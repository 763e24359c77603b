/**
 * net/sender.cpp and net/sender.h: the sender thread at work on real buffers, a real queue and a
 * real free list, while other threads use them too.  Every action is recorded as an event of
 * SenderProtocol, so that each execution of run() is one of the runs studied there; what the sender
 * thread does is always what SenderWorld says it does next.
 */
module SenderThread {
  import opened Bytes
  import opened BufferNodes
  import opened BufferQueue
  import opened SenderProtocol
  import opened SenderLink
  import opened SenderWorld
  import opened SenderRounds
  import opened PartialIo
  import opened Transport
  import Spool
  import SenderCustody
  import SenderOrder
  import SenderTiming
  import SenderWire

  /** The nodes carry the payloads ps. */
  ghost predicate Carries(nodes: seq<Buffer>, ps: seq<Payload>)
    reads nodes`data
  {
    |nodes| == |ps| && forall i :: 0 <= i < |nodes| ==> nodes[i].data == ps[i]
  }

  lemma CarriesTail(nodes: seq<Buffer>, ps: seq<Payload>)
    requires Carries(nodes, ps) && nodes != []
    ensures ps != [] && nodes[0].data == ps[0] && Carries(nodes[1..], ps[1..])
  {
  }

  lemma CarriesSize(nodes: seq<Buffer>, ps: seq<Payload>)
    ensures Carries(nodes, ps) ==> |nodes| == |ps|
  {
  }

  lemma EmptyCarries()
    ensures Carries([], [])
  {
  }

  /** The last nodes carry ps. */
  ghost predicate CarriesLast(nodes: seq<Buffer>, ps: seq<Payload>)
    reads nodes`data
  {
    |ps| <= |nodes| && Carries(nodes[|nodes| - |ps|..], ps)
  }

  lemma CarriesLastTail(nodes: seq<Buffer>, ps: seq<Payload>)
    requires CarriesLast(nodes, ps) && |ps| < |nodes|
    ensures CarriesLast(nodes[1..], ps)
  {
    assert nodes[|nodes| - |ps|..] == nodes[1..][|nodes| - 1 - |ps|..];
  }

  ghost function Data(nodes: seq<Buffer>): (ps: seq<Payload>)
    reads nodes`data
    ensures |ps| == |nodes| && Carries(nodes, ps)
  {
    if nodes == [] then [] else [nodes[0].data] + Data(nodes[1..])
  }

  lemma DistinctJoin(a: seq<Buffer>, b: seq<Buffer>)
    requires Distinct(a) && Distinct(b) && forall x :: x in a ==> x !in b
    ensures Distinct(a + b)
  {
    assert forall i :: 0 <= i < |a| ==> a[i] in a;
    assert forall j :: 0 <= j < |b| ==> b[j] in b;
  }

  lemma SameMembers(made: seq<Buffer>, before: seq<Buffer>, buf: Buffer?, after: seq<Buffer>)
    requires made + before == if buf == null then after else [buf] + after
    ensures forall b: Buffer :: b in made || b in before <==> b in after || b == buf
  {
    assert forall b :: b in made + before <==> b in made || b in before;
  }

  lemma CarriesJoin(a: seq<Buffer>, b: seq<Buffer>, p: seq<Payload>, q: seq<Payload>)
    requires Carries(a, p) && Carries(b, q)
    ensures Carries(a + b, p + q)
  {
  }

  /** What a producer's event cannot change. */
  predicate SameSender(s: State, t: State) {
    && s.pc == t.pc && s.error == t.error && s.now == t.now && s.lastOp == t.lastOp
    && s.connected == t.connected && s.conns == t.conns && s.attempts == t.attempts
    && s.batch == t.batch && s.direct == t.direct && s.sent == t.sent && s.lost == t.lost
  }

  lemma ProducerKeepsSender(s: State, e: Event)
    requires e.FromProducer() && Enabled(s, e)
    ensures SameSender(s, Apply(s, e))
  {
  }

  predicate SameLink(s: State, t: State) {
    s.lastOp == t.lastOp && s.connected == t.connected && s.conns == t.conns && s.attempts == t.attempts
  }

  predicate SameShared(s: State, t: State) {
    && s.mode == t.mode && s.disk == t.disk && s.now == t.now && s.producers == t.producers
    && s.queue == t.queue && s.accepted == t.accepted
  }

  lemma AfterSendNext(s: State, ok: bool, k: nat)
    requires s.pc == Walking && s.batch != [] && (ok || CutAt(s.batch[0], k))
    ensures Enabled(s, SendNext(ok, k))
    ensures var t := Apply(s, SendNext(ok, k));
      && SameShared(s, t)
      && SameLink(t, if ok then SendWhole(s, s.batch[0]) else SendCut(s, s.batch[0], k))
      && t.batch == (if ok then s.batch[1..] else s.batch) && t.error == s.error
      && t.sent == (if ok then s.sent + [s.batch[0]] else s.sent)
      && t.pc == (if !ok then Returning else if |s.batch| > 1 then Walking else LoopEnd)
  {
  }

  lemma AfterPushFront(s: State)
    requires s.pc == Returning
    ensures Enabled(s, PushFront)
    ensures var t := Apply(s, PushFront);
      && SameLink(s, t) && SameShared(s, t.(queue := s.queue))
      && t.queue == s.batch + s.queue && t.batch == [] && t.sent == s.sent && t.pc == LoopEnd && t.error
  {
  }

  lemma AfterScan(s: State, e: Event)
    requires (e.ScanSent? || e.ScanFailed? || e.ScanSkipped?) && s.pc == Scanning && e.name in s.disk
    requires e.ScanSent? ==> s.disk[e.name] != []
    requires e.ScanFailed? ==> e.k < |s.disk[e.name]|
    requires e.ScanSkipped? ==> !e.maps || s.disk[e.name] == []
    ensures Enabled(s, e)
    ensures var t := Apply(s, e);
      && SameLink(t, if e.ScanSent? then SendWhole(s, s.disk[e.name])
                     else if e.ScanFailed? then SendCut(s, s.disk[e.name], e.k) else s)
      && SameShared(s, t.(disk := s.disk)) && t.batch == s.batch
      && t.disk == (if e.ScanFailed? then s.disk else s.disk - {e.name})
      && t.sent == (if e.ScanSent? then s.sent + [s.disk[e.name]] else s.sent)
      && t.lost == (if e.ScanSkipped? then s.lost + [s.disk[e.name]] else s.lost)
      && t.pc == (if e.ScanFailed? then LoopEnd else Scanning) && (e.ScanFailed? ==> t.error)
  {
  }

  /** The events of the sender thread that move no payload and do not touch the connection. */
  predicate Simple(e: Event) {
    e.ReadClock? || e.Choose? || e.PopEmpty? || e.PopTimeout? || e.ScanAbsent? || e.ScanEnd? || e.Loop?
  }

  lemma AfterSimple(s: State, e: Event)
    requires Simple(e) && SenderEnabled(s, e)
    ensures Enabled(s, e)
    ensures var t := Apply(s, e);
      && SameLink(s, t) && t.batch == s.batch && t.queue == s.queue && t.producers == s.producers
      && t.disk == s.disk && t.sent == s.sent && t.lost == s.lost
      && t.now == (if e.ReadClock? then e.t else s.now)
      && t.mode == (if e.ScanEnd? then SendingQueuedBuffers else s.mode)
      && t.error == (if e.ScanEnd? then false else s.error)
      && t.pc == match e
                 case ReadClock(_) => Gate
                 case Choose => (if s.mode == SendingQueuedBuffers then Waiting else Opening)
                 case PopEmpty => Waiting
                 case PopTimeout => TimedOut
                 case ScanAbsent(_) => Scanning
                 case ScanEnd => LoopEnd
                 case Loop(running) => if running then Top else Stopping
  {
  }

  lemma AfterPop(s: State, e: Event)
    requires (e.TakeBatch? && s.pc == Waiting && s.queue != []) || (e.FinalPop? && s.pc == Stopping)
    ensures Enabled(s, e)
    ensures var t := Apply(s, e);
      && SameLink(s, t) && SameShared(s, t.(queue := s.queue)) && t.queue == [] && t.batch == s.queue
      && t.sent == s.sent && t.lost == s.lost && t.error == s.error
      && t.pc == (if e.TakeBatch? then Holding else if s.queue == [] then Done else Draining)
  {
  }

  lemma AfterBatchConnect(s: State, ok: bool)
    requires s.pc == Holding
    ensures Enabled(s, BatchConnect(ok))
    ensures var c, t := SenderProtocol.Connect(s, ok), Apply(s, BatchConnect(ok));
      && SameLink(c, t) && SameShared(s, t) && t.batch == s.batch && t.sent == s.sent && t.error == s.error
      && t.pc == (if c.connected then Walking else Returning)
  {
  }

  lemma AfterOpenDirectory(s: State, ok: bool, dir: bool)
    requires s.pc == Opening
    ensures Enabled(s, OpenDirectory(ok, dir))
    ensures var c, t := SenderProtocol.Connect(s, ok), Apply(s, OpenDirectory(ok, dir));
      && SameLink(c, t) && SameShared(s, t) && t.batch == s.batch && t.sent == s.sent && t.lost == s.lost
      && t.pc == (if c.connected && dir then Scanning else LoopEnd) && (!(c.connected && dir) ==> t.error)
  {
  }

  lemma AfterPassGate(s: State, ok: bool)
    requires s.pc == Gate
    ensures Enabled(s, PassGate(ok))
    ensures var t := Apply(s, PassGate(ok));
      && SameShared(s, t) && t.batch == s.batch && t.sent == s.sent
      && (!s.error ==> SameLink(s, t) && t.pc == Dispatch && !t.error)
      && (s.error && s.now - s.lastOp < RECONNECTION_TIME ==> SameLink(s, t) && t.pc == LoopEnd && t.error)
      && (s.error && s.now - s.lastOp >= RECONNECTION_TIME ==>
            var c := SenderProtocol.Connect(s, ok);
            SameLink(c, t) && t.error == !c.connected && t.pc == if c.connected then Dispatch else LoopEnd)
  {
  }

  lemma AfterIdleCheck(s: State)
    requires s.pc == TimedOut
    ensures Enabled(s, IdleCheck)
    ensures var t := Apply(s, IdleCheck);
      && SameLink(s, t.(connected := s.connected)) && SameShared(s, t) && t.batch == s.batch && t.sent == s.sent
      && t.connected == (s.connected && s.now - s.lastOp < IDLE_TIMEOUT) && t.pc == LoopEnd && t.error == s.error
  {
  }

  lemma AfterFinalSave(s: State, name: string)
    requires s.pc == Draining && s.batch != [] && name !in s.disk
    ensures Enabled(s, FinalSave(name))
    ensures var t := Apply(s, FinalSave(name));
      && SameLink(s, t) && SameShared(s, t.(disk := s.disk)) && t.batch == s.batch[1..] && t.sent == s.sent
      && t.disk == s.disk[name := s.batch[0]] && t.pc == (if |s.batch| > 1 then Draining else Done)
  {
  }

  /** b continues a with events of producers only. */
  predicate OnlyProducers(a: seq<Event>, b: seq<Event>) {
    a <= b && forall i :: |a| <= i < |b| ==> b[i].FromProducer()
  }

  /** Every file of a is in b, unchanged. */
  predicate FilesKept(a: map<string, Payload>, b: map<string, Payload>) {
    forall n :: n in a ==> n in b && b[n] == a[n]
  }

  /** Between a and b some producer wrote the file n. */
  predicate WrittenSince(a: seq<Event>, b: seq<Event>, n: string) {
    exists i :: |a| <= i < |b| && b[i].SpillSave? && b[i].name == n
  }

  /** Every new file was written by a producer meanwhile. */
  ghost predicate OnlyWritten(before: map<string, Payload>, after: map<string, Payload>, a: seq<Event>, b: seq<Event>) {
    forall n :: n in after ==> n in before || WrittenSince(a, b, n)
  }

  /** No producer did anything between a and b. */
  predicate Quiet(a: seq<Event>, b: seq<Event>) {
    a <= b && forall i :: |a| <= i < |b| ==> !b[i].FromProducer()
  }

  lemma QuietParts(a: seq<Event>, b: seq<Event>, c: seq<Event>)
    requires a <= b <= c && Quiet(a, c)
    ensures Quiet(a, b) && Quiet(b, c)
  {
  }

  /** What other threads may do to the directory, and what they do when they do nothing. */
  ghost predicate Spooling(s: State, t: State, a: seq<Event>, b: seq<Event>) {
    && OnlyProducers(a, b) && (Quiet(a, b) ==> s == t)
    && FilesKept(s.disk, t.disk) && OnlyWritten(s.disk, t.disk, a, b)
  }

  lemma SpoolingStep(s: State, e: Event, a: seq<Event>)
    requires e.FromProducer() && Enabled(s, e)
    ensures Spooling(s, Apply(s, e), a, a + [e])
  {
    assert (a + [e])[|a|] == e;
  }

  lemma NothingDone(s: State, a: seq<Event>)
    ensures Spooling(s, s, a, a) && SameSender(s, s)
  {
  }

  lemma SameSenderMore(s: State, t: State, u: State)
    requires SameSender(s, t) && SameSender(t, u)
    ensures SameSender(s, u)
  {
  }

  lemma SpoolingMore(s: State, t: State, u: State, a: seq<Event>, b: seq<Event>, c: seq<Event>)
    requires Spooling(s, t, a, b) && Spooling(t, u, b, c)
    ensures Spooling(s, u, a, c)
  {
    if Quiet(a, c) {
      QuietParts(a, b, c);
    }
    forall n | n in u.disk ensures n in s.disk || WrittenSince(a, c, n) {
      if n in t.disk && n !in s.disk {
        var i :| |a| <= i < |b| && b[i].SpillSave? && b[i].name == n;
        assert c[i] == b[i];
      }
    }
  }

  /** What a directory scan is about. */
  datatype View = View(disk: map<string, Payload>, sent: seq<Payload>, lost: seq<Payload>, events: seq<Event>)

  ghost predicate Later(v: View, w: View) {
    v.sent <= w.sent && v.lost <= w.lost && v.events <= w.events
  }

  /** Files that the scan has not come to, or will not, are as they were. */
  ghost predicate Untouched(v: View, w: View, names: set<string>) {
    forall n :: n in v.disk && n !in names ==> n in w.disk && w.disk[n] == v.disk[n]
  }

  /** An entry dealt with is off the disk, unless a producer has written that name again. */
  ghost predicate Removed(v: View, w: View, e: Entry) {
    e.name in w.disk ==> WrittenSince(v.events, w.events, e.name)
  }

  /** What a scan finds under a name: what was there before, or what a producer has written since. */
  ghost predicate Found(v: View, w: View, name: string, f: Option<Payload>) {
    if name in v.disk then f == Some(v.disk[name])
    else f.Some? ==> WrittenSince(v.events, w.events, name)
  }

  /**
   * The entries dealt with at w by a scan that began at v, and what was found under each: exactly
   * that was sent or lost, in order; none of them is still there unless written again; files not
   * dealt with are as they were.
   */
  ghost predicate Scanned(v: View, w: View, entries: seq<Entry>, found: seq<Option<Payload>>)
    requires |found| <= |entries|
  {
    var n := |found|;
    && Later(v, w) && Untouched(v, w, Names(entries[..n]))
    && OnlyWritten(v.disk, w.disk, v.events, w.events)
    && w.sent == v.sent + ToSend(entries, found)
    && w.lost == v.lost + ToLose(entries, found)
    && (forall i :: 0 <= i < n ==> Removed(v, w, entries[i]))
    && (forall i :: 0 <= i < n ==> FoundFirst(v, w, entries, found, i))
  }

  /** What was found under the i-th entry; a name that came before is not there unless written again. */
  ghost predicate FoundFirst(v: View, w: View, entries: seq<Entry>, found: seq<Option<Payload>>, i: nat)
    requires i < |found| <= |entries|
  {
    var name := entries[i].name;
    if name in Names(entries[..i]) then found[i].Some? ==> WrittenSince(v.events, w.events, name)
    else Found(v, w, name, found[i])
  }

  /** One entry is dealt with, while producers may write files. */
  ghost predicate EntryDone(v: View, w: View, e: Entry, f: Option<Payload>) {
    && Later(v, w) && OnlyWritten(v.disk, w.disk, v.events, w.events)
    && FilesKept(v.disk - {e.name}, w.disk) && e.name !in w.disk
    && Found(v, w, e.name, f)
    && w.sent == v.sent + (if Goes(e, f) then [f.value] else [])
    && w.lost == v.lost + (if f.Some? && !Goes(e, f) then [f.value] else [])
  }

  lemma WrittenLater(a: seq<Event>, b: seq<Event>, c: seq<Event>, d: seq<Event>, n: string)
    requires a <= b <= c <= d && WrittenSince(b, c, n)
    ensures WrittenSince(a, d, n)
  {
    var i :| |b| <= i < |c| && c[i].SpillSave? && c[i].name == n;
    assert d[i] == c[i];
  }

  lemma OnlyWrittenLater(v: View, w: View, x: View)
    requires Later(v, w) && Later(w, x)
    requires OnlyWritten(v.disk, w.disk, v.events, w.events) && OnlyWritten(w.disk, x.disk, w.events, x.events)
    ensures OnlyWritten(v.disk, x.disk, v.events, x.events)
  {
    forall n | n in x.disk && n !in v.disk ensures WrittenSince(v.events, x.events, n) {
      if n in w.disk {
        WrittenLater(v.events, v.events, w.events, x.events, n);
      } else {
        WrittenLater(v.events, w.events, x.events, x.events, n);
      }
    }
  }

  lemma RemovedStays(v: View, w: View, x: View, e: Entry)
    requires Removed(v, w, e) && Later(v, w) && Later(w, x) && OnlyWritten(w.disk, x.disk, w.events, x.events)
    ensures Removed(v, x, e)
  {
    if e.name in x.disk {
      if e.name in w.disk {
        WrittenLater(v.events, v.events, w.events, x.events, e.name);
      } else {
        WrittenLater(v.events, w.events, x.events, x.events, e.name);
      }
    }
  }

  lemma FoundStays(v: View, w: View, x: View, entries: seq<Entry>, found: seq<Option<Payload>>, i: nat)
    requires i < |found| <= |entries| && Later(v, w) && Later(w, x) && FoundFirst(v, w, entries, found, i)
    ensures FoundFirst(v, x, entries, found, i)
  {
    if WrittenSince(v.events, w.events, entries[i].name) {
      WrittenLater(v.events, v.events, w.events, x.events, entries[i].name);
    }
  }

  lemma UntouchedStep(v: View, w: View, x: View, names: set<string>, e: Entry, f: Option<Payload>)
    requires Untouched(v, w, names) && EntryDone(w, x, e, f)
    ensures Untouched(v, x, names + {e.name})
  {
  }

  lemma RemovedStep(v: View, w: View, x: View, e: Entry, f: Option<Payload>, g: Entry)
    requires Later(v, w) && EntryDone(w, x, e, f) && (g == e || Removed(v, w, g))
    ensures Removed(v, x, g)
  {
    if g != e {
      RemovedStays(v, w, x, g);
    }
  }

  /** What is found under the next entry, seen from where the scan began. */
  lemma FoundStep(v: View, w: View, x: View, entries: seq<Entry>, found: seq<Option<Payload>>, f: Option<Payload>)
    requires |found| < |entries| && Scanned(v, w, entries, found) && EntryDone(w, x, entries[|found|], f)
    ensures FoundFirst(v, x, entries, found + [f], |found|)
  {
    var n := |found|;
    var name := entries[n].name;
    if name in Names(entries[..n]) {
      var j :| 0 <= j < n && entries[j].name == name;
      if name in w.disk {
        assert Removed(v, w, entries[j]);
        WrittenLater(v.events, v.events, w.events, x.events, name);
      } else if f.Some? {
        WrittenLater(v.events, w.events, x.events, x.events, name);
      }
    } else if name !in v.disk && f.Some? {
      if name in w.disk {
        WrittenLater(v.events, v.events, w.events, x.events, name);
      } else {
        WrittenLater(v.events, w.events, x.events, x.events, name);
      }
    }
  }

  lemma ScannedStep(v: View, w: View, x: View, entries: seq<Entry>, found: seq<Option<Payload>>, f: Option<Payload>)
    requires |found| < |entries| && Scanned(v, w, entries, found) && EntryDone(w, x, entries[|found|], f)
    ensures Scanned(v, x, entries, found + [f])
  {
    var n := |found|;
    var e, more := entries[n], found + [f];
    assert more[..n] == found;
    FoundStep(v, w, x, entries, found, f);
    LaterStep(v, w, x, e, f);
    OnlyWrittenLater(v, w, x);
    NamesMore(entries, n);
    UntouchedStep(v, w, x, Names(entries[..n]), e, f);
    hide Removed, FoundFirst, Later, Untouched, EntryDone;
    forall i | 0 <= i < n + 1 ensures Removed(v, x, entries[i]) {
      RemovedStep(v, w, x, e, f, entries[i]);
    }
    forall i | 0 <= i < n + 1 ensures FoundFirst(v, x, entries, more, i) {
      if i < n {
        FoundStays(v, w, x, entries, found, i);
        SameFound(v, x, entries, found, more, i);
      }
    }
  }

  lemma SameFound(v: View, w: View, entries: seq<Entry>,
                  found: seq<Option<Payload>>, more: seq<Option<Payload>>, i: nat)
    requires i < |found| <= |more| <= |entries| && found <= more && FoundFirst(v, w, entries, found, i)
    ensures FoundFirst(v, w, entries, more, i)
  {
  }

  lemma LaterStep(v: View, w: View, x: View, e: Entry, f: Option<Payload>)
    requires Later(v, w) && EntryDone(w, x, e, f)
    ensures Later(v, x) && Later(w, x)
  {
  }

  /** Nothing is dealt with, while producers may write files. */
  ghost predicate Waited(v: View, w: View) {
    && w.sent == v.sent && w.lost == v.lost && v.events <= w.events
    && OnlyWritten(v.disk, w.disk, v.events, w.events) && FilesKept(v.disk, w.disk)
  }

  lemma ScannedStill(v: View, w: View, x: View, entries: seq<Entry>, found: seq<Option<Payload>>)
    requires |found| <= |entries| && Scanned(v, w, entries, found) && Waited(w, x)
    ensures Scanned(v, x, entries, found)
  {
    OnlyWrittenLater(v, w, x);
    forall i | 0 <= i < |found| ensures Removed(v, x, entries[i]) {
      RemovedStays(v, w, x, entries[i]);
    }
    forall i | 0 <= i < |found| ensures FoundFirst(v, x, entries, found, i) {
      FoundStays(v, w, x, entries, found, i);
    }
  }

  lemma SpoolingGrows(s: State, t: State, a: seq<Event>, b: seq<Event>)
    requires Spooling(s, t, a, b)
    ensures a <= b && (Quiet(a, b) ==> s == t)
  {
  }

  /** What every connection of the protocol state has carried. */
  function Streams(cs: seq<Connection>): seq<seq<byte>> {
    seq(|cs|, i requires 0 <= i < |cs| => cs[i].bytes)
  }

  lemma StreamsOnWire(cs: seq<Connection>, out: seq<byte>, whole: seq<Payload>, cut: Option<Payload>)
    ensures Streams(OnWire(cs, out, whole, cut)) == OnLast(Streams(cs), out)
  {
  }

  lemma StreamsNew(cs: seq<Connection>)
    ensures Streams(cs + [Connection([], [], None)]) == Streams(cs) + [[]]
  {
  }

  /**
   * Where another thread stands in sender::send(buffer*...) and the save_buffers() below it, with
   * the variables it has there.
   */
  datatype Thread =
    | Resting
    | OverLimit
    | Writing(at: Buffer, last: Buffer, count: nat)  // save_buffer() of at comes next
    | Putting(at: Buffer, last: Buffer, count: nat)  // put() of at, which is saved, comes next
    | Written

  /** A thread in save_buffers() holds the chain that it has popped, up to what it has put back. */
  ghost predicate Holds(t: Thread, chain: seq<Buffer>, p: Producer)
    reads chain`next, chain`data
  {
    match t
    case Resting => chain == [] && p == Idle
    case OverLimit => chain == [] && p == Overflowing
    case Writing(at, last, _) => Chain(at, last, chain) && p.Saving? && Carries(chain, p.rest)
    case Putting(at, last, _) => Chain(at, last, chain) && p.Saving? && Carries(chain[1..], p.rest)
    case Written => chain == [] && p == Saving([])
  }

  /** All the buffers in some chains. */
  ghost function Union(chains: seq<seq<Buffer>>): set<Buffer> {
    set i, b | 0 <= i < |chains| && b in chains[i] :: b
  }

  ghost predicate Disjoint(chains: seq<seq<Buffer>>) {
    forall i, j :: 0 <= i < j < |chains| ==> forall b :: b in chains[i] ==> b !in chains[j]
  }

  lemma NoChains(chains: seq<seq<Buffer>>)
    requires forall i :: 0 <= i < |chains| ==> chains[i] == []
    ensures Union(chains) == {} && Disjoint(chains)
  {
  }

  lemma UnionTaken(chains: seq<seq<Buffer>>, who: nat, chain: seq<Buffer>)
    requires who < |chains| && chains[who] == [] && Disjoint(chains)
    requires forall b :: b in chain ==> b !in Union(chains)
    ensures Disjoint(chains[who := chain])
    ensures Union(chains[who := chain]) == Union(chains) + set b | b in chain
  {
    var more := chains[who := chain];
    forall b ensures b in Union(more) <==> b in Union(chains) || b in chain {
      if b in chain {
        assert b in more[who];
      } else if b in Union(chains) {
        var i :| 0 <= i < |chains| && b in chains[i];
        assert b in more[i];
      }
    }
  }

  lemma UnionPut(chains: seq<seq<Buffer>>, who: nat)
    requires who < |chains| && chains[who] != [] && Disjoint(chains) && Distinct(chains[who])
    ensures Disjoint(chains[who := chains[who][1..]])
    ensures Union(chains[who := chains[who][1..]]) == Union(chains) - {chains[who][0]}
  {
    var chain := chains[who];
    var less := chains[who := chain[1..]];
    assert chain == [chain[0]] + chain[1..];
    forall b ensures b in Union(less) <==> b in Union(chains) && b != chain[0] {
      if b in Union(less) {
        var i :| 0 <= i < |less| && b in less[i];
        assert b in chains[i];
      }
      if b in Union(chains) && b != chain[0] {
        var i :| 0 <= i < |chains| && b in chains[i];
        assert b in less[i];
      }
    }
  }

  /** Each thread holds, within that set, what the protocol says it has still to write. */
  ghost predicate Spills(threads: seq<Thread>, chains: seq<seq<Buffer>>, ps: seq<Producer>, within: set<Buffer>)
    reads within`next, within`data
  {
    && |threads| == |chains| == |ps|
    && forall i :: 0 <= i < |threads| ==> SpillHeld(threads[i], chains[i], ps[i], within)
  }

  ghost predicate SpillHeld(t: Thread, chain: seq<Buffer>, p: Producer, within: set<Buffer>)
    reads within`next, within`data
  {
    (forall b :: b in chain ==> b in within) && Holds(t, chain, p)
  }

  lemma SpillsAt(threads: seq<Thread>, chains: seq<seq<Buffer>>, ps: seq<Producer>, within: set<Buffer>, who: nat)
    requires Spills(threads, chains, ps, within) && who < |threads|
    ensures |threads| == |chains| == |ps| && SpillHeld(threads[who], chains[who], ps[who], within)
  {
  }

  /** One thread goes on; the others hold what they held. */
  lemma SpillsSet(threads: seq<Thread>, chains: seq<seq<Buffer>>, ps: seq<Producer>, within: set<Buffer>,
                  who: nat, t: Thread, chain: seq<Buffer>, p: Producer)
    requires Spills(threads, chains, ps, within) && who < |threads| == |chains| == |ps|
    requires SpillHeld(t, chain, p, within)
    ensures Spills(threads[who := t], chains[who := chain], ps[who := p], within)
  {
  }

  lemma {:induction false} SpillsWider(threads: seq<Thread>, chains: seq<seq<Buffer>>, ps: seq<Producer>,
                                       within: set<Buffer>, wider: set<Buffer>)
    requires Spills(threads, chains, ps, within) && within <= wider
    ensures Spills(threads, chains, ps, wider)
  {
    hide Holds;
    forall i | 0 <= i < |threads| ensures SpillHeld(threads[i], chains[i], ps[i], wider) {
      assert SpillHeld(threads[i], chains[i], ps[i], within);
    }
  }

  /** What a thread holds no more no other thread holds. */
  lemma {:induction false} SpillsNarrower(threads: seq<Thread>, chains: seq<seq<Buffer>>, ps: seq<Producer>,
                                          within: set<Buffer>, gone: Buffer)
    requires Spills(threads, chains, ps, within)
    requires forall i :: 0 <= i < |chains| ==> gone !in chains[i]
    ensures Spills(threads, chains, ps, within - {gone})
  {
    hide Holds;
    forall i | 0 <= i < |threads| ensures SpillHeld(threads[i], chains[i], ps[i], within - {gone}) {
      assert SpillHeld(threads[i], chains[i], ps[i], within);
    }
  }

  /** From v to m the scan waits, from m to w it deals with one entry. */
  lemma EntryFound(v: View, m: View, w: View, e: Entry, f: Option<Payload>, go: bool)
    requires Waited(v, m) && m.events <= w.events
    requires f == if e.name in m.disk then Some(m.disk[e.name]) else None
    requires go ==>
      && w.disk == m.disk - {e.name}
      && w.sent == m.sent + (if Goes(e, f) then [f.value] else [])
      && w.lost == m.lost + (if f.Some? && !Goes(e, f) then [f.value] else [])
    requires !go ==> w.disk == m.disk && w.sent == m.sent && w.lost == m.lost
    ensures if go then EntryDone(v, w, e, f) else Waited(v, w)
  {
    WaitedOn(v, m, w);
  }

  /** No file is written from m to w. */
  lemma WaitedOn(v: View, m: View, w: View)
    requires Waited(v, m) && m.events <= w.events && forall n :: n in w.disk ==> n in m.disk
    ensures OnlyWritten(v.disk, w.disk, v.events, w.events)
    ensures OnlyWritten(v.disk, m.disk, v.events, w.events)
    ensures m.sent == w.sent && m.lost == w.lost && m.disk == w.disk ==> Waited(v, w)
  {
    forall n | n in m.disk && n !in v.disk ensures WrittenSince(v.events, w.events, n) {
      WrittenLater(v.events, v.events, m.events, w.events, n);
    }
  }

  /** What belongs to the present round may have changed. */
  predicate SameRound(v: World, w: World) {
    w == v.(script := w.script, looks := w.looks, at := w.at)
  }

  /** The next entry is a file that maps, and after all that was sent it is not delivered. */
  ghost predicate Undelivered(x: Script, disk: map<string, Payload>, entries: seq<Entry>, found: seq<Option<Payload>>) {
    && |found| < |entries|
    && var e := entries[|found|];
    && e.maps && e.name in disk && disk[e.name] != []
    && !Delivers(AfterAll(x, ToSend(entries, found)), disk[e.name])
  }

  lemma NothingFound(x: Script, entries: seq<Entry>)
    ensures ToSend(entries, []) == [] && AllDelivered(x, []) && AfterAll(x, []) == x
  {
  }

  class Sender {
    const allocator: Allocator
    const buffers: Buffers
    const link: Link

    var mode: Mode
    var currentTime: int
    var lastSocketOperation: int
    var disk: map<string, Payload>

    /** The threads that send, the chains that they hold, and the buffers in anybody else's hands. */
    var threads: seq<Thread>
    ghost var chains: seq<seq<Buffer>>
    ghost var spilling: set<Buffer>
    var others: set<Buffer>

    /** The chain that the sender thread holds. */
    ghost var mine: seq<Buffer>

    /** Every buffer there is. */
    ghost var pool: set<Buffer>

    /** The run so far, and what the environment has still to answer. */
    ghost const start: State
    ghost const begin: World
    ghost var events: seq<Event>
    ghost var st: State
    ghost var world: World

    ghost function Repr(): set<object>
      reads this`pool
    {
      {this, allocator, buffers, buffers.header, link, link.sock, link.sslsock, link.sslsock.sock} + pool
    }

    /** Every buffer is in exactly one place. */
    ghost predicate Owned()
      reads this`mine, this`pool, this`others, this`chains, this`spilling, allocator`free, buffers`nodes
    {
      && PlacesApart() && spilling == Union(chains)
      && (forall b :: b in pool ==>
            b in allocator.free || b in buffers.nodes || b in mine || b in others || b in spilling)
      && Distinct(mine) && buffers.header !in pool && Disjoint(chains)
    }

    ghost predicate PlacesApart()
      reads this`mine, this`pool, this`others, this`spilling, allocator`free, buffers`nodes
    {
      && (forall b :: b in allocator.free ==>
            b in pool && b !in buffers.nodes && b !in mine && b !in others && b !in spilling)
      && (forall b :: b in buffers.nodes ==> b in pool && b !in mine && b !in others && b !in spilling)
      && (forall b :: b in mine ==> b in pool && b !in others && b !in spilling)
      && (forall b :: b in others ==> b in pool && b !in spilling)
      && (forall b :: b in spilling ==> b in pool)
    }

    /** The free list, the queue and the chain in hand are lists, and lie apart. */
    ghost predicate Lists()
      reads this`mine, this`pool, this`others, this`chains, this`spilling
      reads allocator, buffers, buffers.header`next, buffers.header`prev, pool`next
    {
      Owned() && allocator.Valid() && buffers.Valid() && Linked(mine)
    }

    /**
     * What the buffers carry: the queue q; the last ones in hand batch, those before them being
     * used up; those of the other threads what ps have still to write.
     */
    ghost predicate Carrying(q: seq<Payload>, batch: seq<Payload>, ps: seq<Producer>)
      reads this`mine, this`threads, this`chains, this`spilling, buffers`nodes, buffers.nodes`data, mine`data
      reads spilling`next, spilling`data
    {
      Carries(buffers.nodes, q) && CarriesLast(mine, batch) && Spills(threads, chains, ps, spilling)
    }

    /** The protocol state describes the shared fields. */
    ghost predicate Fields(s: State)
      reads this`mode, this`disk, this`currentTime
    {
      mode == s.mode && disk == s.disk && currentTime == s.now
    }

    /**
     * It describes the connections: how often one was attempted, and every byte each has carried; x
     * is what the network has still to answer.
     */
    ghost predicate Net(s: State, x: Script)
      reads this`lastSocketOperation, link, link.sock, link.sslsock, link.sslsock.sock
    {
      && link.Ahead() == x
      && link.Valid() && lastSocketOperation == s.lastOp && link.Connected() == s.connected
      && link.Streams() == Streams(s.conns) && link.Dials() == |s.attempts|
    }

    /** st is where the events have led from start; the sender thread did what it does in that world. */
    ghost predicate History()
      reads this`events, this`st, this`world
    {
      && Initial(start) && begin.rounds != [] && Legal(start, events) && st == Exec(start, events)
      && Follows(begin, start, events) && world == WorldAfter(begin, start, events)
    }

    ghost predicate Valid()
      reads Repr()
    {
      Lists() && Carrying(st.queue, st.batch, st.producers) && Fields(st) && Net(st, world.script) && History()
    }

    /** A new sender over an empty queue, with files possibly left over in the directory. */
    constructor (allocator: Allocator, buffers: Buffers, link: Link, disk: map<string, Payload>,
                 count: nat, others: set<Buffer>, ghost rounds: seq<Round>, ghost stamp: string)
      requires allocator.Valid() && buffers.Valid() && buffers.nodes == [] && rounds != []
      requires link.Valid() && !link.Connected() && link.Streams() == [] && link.Dials() == 0
      requires buffers.header !in others && buffers.header !in allocator.free
      requires forall b :: b in allocator.free ==> b !in others
      ensures Valid() && events == [] && mine == [] && this.disk == disk && this.others == others
      ensures this.allocator == allocator && this.buffers == buffers && this.link == link
      ensures pool == others + set b | b in allocator.free
      ensures |threads| == count && mode == SendingFiles
      ensures world == begin == Sleeping(link.Ahead(), rounds, stamp)
    {
      hide Union, Disjoint, NullTerminated, Ring, Reaches;
      this.allocator, this.buffers, this.link := allocator, buffers, link;
      this.mode, this.currentTime, this.lastSocketOperation, this.disk := SendingFiles, 0, 0, disk;
      this.threads, this.others := seq(count, _ => Resting), others;
      var none: seq<seq<Buffer>> := seq(count, _ => []);
      NoChains(none);
      chains, spilling := none, {};
      mine, pool := [], others + set b | b in allocator.free;
      var idle := seq(count, _ => Idle);
      var s := State(Top, false, SendingFiles, 0, 0, false, [], [], [], [], [], idle, disk, [], [], []);
      start, events, st := s, [], s;
      begin, world := Sleeping(link.Ahead(), rounds, stamp), Sleeping(link.Ahead(), rounds, stamp);
    }

    /** The next event of the sender thread, once everything is as it says. */
    ghost method Emit(e: Event)
      requires History() && e == Next(world, st) && Enabled(st, e) && Lists()
      requires var t := Apply(st, e); Carrying(t.queue, t.batch, t.producers) && Fields(t)
      requires Net(Apply(st, e), After(world, st, e).script)
      modifies this`st, this`events, this`world
      ensures Valid() && st == Apply(old(st), e) && events == old(events) + [e]
      ensures world == After(old(world), old(st), e)
    {
      hide Lists, Carrying, Fields, Net, Apply, Enabled, Initial, Next, After;
      FollowsMore(begin, start, events, e);
      LegalAppend(start, events, e);
      events := events + [e];
      world := After(world, st, e);
      st := Apply(st, e);
    }

    ghost method EmitProducer(e: Event)
      requires History() && e.FromProducer() && Enabled(st, e) && Lists() && Net(st, world.script)
      requires var t := ProducerStep(st, e); Carrying(t.queue, st.batch, t.producers) && Fields(t)
      modifies this`st, this`events
      ensures Valid() && SameSender(old(st), st) && Spooling(old(st), st, old(events), events)
      ensures st == ProducerStep(old(st), e) && events == old(events) + [e]
    {
      hide Lists, Carrying, Fields, Net, Spooling, Next, After, Initial, Enabled, ProducerStep;
      ProducerKeepsSender(st, e);
      SpoolingStep(st, e, events);
      NetSame(st, Apply(st, e), world.script);
      FollowsMore(begin, start, events, e);
      LegalAppend(start, events, e);
      events := events + [e];
      st := Apply(st, e);
    }

    lemma KnowsLink()
      requires Valid()
      ensures Fields(st) && lastSocketOperation == st.lastOp && link.Connected() == st.connected
    {
    }

    lemma NetSame(s: State, t: State, x: Script)
      requires Net(s, x) && SameLink(s, t)
      ensures Net(t, x)
    {
    }

    // ----- What other threads do

    /** allocator::get() by another thread, which then holds the buffer. */
    method OtherGet(memory: nat) returns (buf: Buffer?)
      requires Valid()
      modifies this`others, this`pool, allocator
      ensures Valid() && fresh(pool - old(pool)) && old(pool) <= pool
      ensures if buf == null then others == old(others) && old(allocator.free) == []
              else buf !in old(others) && others == old(others) + {buf}
    {
      hide Owned, Carrying, Fields, Net, History, NullTerminated, Ring, Linked;
      buf := OtherReceive(memory);
    }

    /** What allocator::get() has to do with who has which buffer. */
    method OtherReceive(memory: nat) returns (buf: Buffer?)
      requires Owned() && allocator.Valid()
      modifies this`others, this`pool, allocator
      ensures Owned() && allocator.Valid() && fresh(pool - old(pool)) && old(pool) <= pool
      ensures if buf == null then others == old(others) && old(allocator.free) == []
              else buf !in old(others) && others == old(others) + {buf}
    {
      hide NullTerminated, Distinct, Union, Disjoint;
      ghost var made;
      buf, made := allocator.Get(memory);
      SameMembers(made, old(allocator.free), buf, allocator.free);
      pool := pool + set b | b in made;
      if buf != null {
        others := others + {buf};
      }
    }

    /** A buffer in somebody's hands is in no list. */
    lemma InOtherHands(chain: seq<Buffer>)
      requires Lists() && forall b :: b in chain ==> b in others
      ensures forall b :: b in chain ==>
                b !in buffers.nodes && b !in mine && b !in allocator.free && b !in spilling && b != buffers.header
      ensures forall b :: b in spilling ==> b !in buffers.nodes && b != buffers.header && b !in mine
      ensures forall b :: b in mine ==> b !in buffers.nodes && b != buffers.header
    {
    }

    /** allocator::put() by another thread. */
    method OtherPut(buf: Buffer)
      requires Valid() && buf in others
      modifies this`others, allocator, buf`next
      ensures Valid() && others == old(others) - {buf} && allocator.free == [buf] + old(allocator.free)
    {
      hide Carrying, Fields, Net, History, NullTerminated, Ring, Union, Disjoint;
      InOtherHands([buf]);
      allocator.Put(buf);
      others := others - {buf};
    }

    /** A buffer in a thread's hands can be filled, by buffer::init(), and linked in any way. */
    method OtherWrite(buf: Buffer, data: Payload, memory: bool, prev: Buffer?, next: Buffer?)
      requires Valid() && buf in others
      modifies buf
      ensures Valid()
      ensures buf.data == (if memory then data else old(buf.data)) && buf.prev == prev && buf.next == next
    {
      hide Owned, Carrying, Fields, Net, History, NullTerminated, Ring, Linked, Union;
      InOtherHands([buf]);
      assert buf in [buf];
      var _ := buf.Init(data, memory);
      buf.prev, buf.next := prev, next;
    }

    lemma JoinsQueue(chain: seq<Buffer>)
      requires Lists() && Distinct(chain) && forall b :: b in chain ==> b in others
      ensures Distinct(buffers.nodes + chain)
      ensures forall b :: b in allocator.free ==> b !in chain && b !in buffers.nodes && b != buffers.header
    {
      DistinctJoin(buffers.nodes, chain);
    }

    /** push_back() of a chain that another thread holds. */
    method OtherPush(first: Buffer, last: Buffer, chain: seq<Buffer>) returns (n: nat)
      requires Lists() && Chain(first, last, chain) && forall b :: b in chain ==> b in others
      modifies this`others, buffers, buffers.header`prev, buffers.header`next
      modifies buffers.nodes`prev, buffers.nodes`next, first`prev, last`next
      ensures Lists() && buffers.nodes == old(buffers.nodes) + chain && n == |buffers.nodes|
      ensures others == old(others) - set b | b in chain
    {
      hide Distinct, Ring, NullTerminated, Union, Disjoint;
      InOtherHands(chain);
      JoinsQueue(chain);
      n := buffers.PushBackChain(first, last, chain);
      assert forall b :: b in allocator.free ==> b.next == old(b.next);
      others := others - set b | b in chain;
    }

    /** sender::send(buffer*, buffer*) up to the comparison with the limit. */
    method OtherSend(who: nat, first: Buffer, last: Buffer, chain: seq<Buffer>, ghost ps: seq<Payload>)
      requires Valid() && who < |threads| && threads[who].Resting?
      requires Chain(first, last, chain) && Carries(chain, ps) && forall b :: b in chain ==> b in others
      modifies this`others, this`threads, this`st, this`events
      modifies buffers, buffers.header`prev, buffers.header`next
      modifies buffers.nodes`prev, buffers.nodes`next, first`prev, last`next
      ensures Valid() && Spooling(old(st), st, old(events), events) && SameSender(old(st), st)
      ensures events == old(events) + [Accept(who, ps)]
      ensures buffers.nodes == old(buffers.nodes) + chain && st.queue == old(st.queue) + ps
      ensures threads == old(threads)[who := if |buffers.nodes| > MAX_QUEUED_BUFFERS then OverLimit else Resting]
    {
      hide Lists, Net, History, SenderEnabled, Linked, Distinct, Spills, Union, Carries, CarriesLast;
      InOtherHands(chain);
      SpillsAt(threads, chains, st.producers, spilling, who);
      CarriesSize(chain, ps);
      CarriesJoin(buffers.nodes, chain, st.queue, ps);
      ghost var held := st.producers;
      var n := OtherPush(first, last, chain);
      var t := if n > MAX_QUEUED_BUFFERS then OverLimit else Resting;
      SpillsSet(threads, chains, held, spilling, who, t, [], if n > MAX_QUEUED_BUFFERS then Overflowing else Idle);
      assert chains[who := []] == chains;
      threads := threads[who := t];
      EmitProducer(Accept(who, ps));
    }

    lemma TakenOver(who: nat)
      requires Lists() && who < |chains| && chains[who] == []
      ensures var more := chains[who := buffers.nodes];
              Disjoint(more) && Union(more) == spilling + set b | b in buffers.nodes
    {
      UnionTaken(chains, who, buffers.nodes);
    }

    /** pop() by a thread over the limit. */
    method OtherTake(who: nat) returns (t: Thread)
      requires Lists() && who < |chains| && chains[who] == []
      modifies this`chains, this`spilling, buffers, buffers.header`prev, buffers.header`next
      ensures Lists() && buffers.nodes == [] && chains == old(chains)[who := old(buffers.nodes)]
      ensures spilling == old(spilling) + set b | b in old(buffers.nodes)
      ensures if old(buffers.nodes) == [] then t == Written
              else t.Writing? && t.count == 0 && Chain(t.at, t.last, old(buffers.nodes))
    {
      hide NullTerminated, Ring, Distinct, Union, Disjoint;
      ghost var queued := buffers.nodes;
      TakenOver(who);
      var first, last, n := buffers.Pop();
      t := if n > 0 then Writing(first, last, 0) else Written;
      chains, spilling := chains[who := queued], spilling + set b | b in queued;
    }

    /** A producer over the limit takes the whole queue over: save_buffers() up to its pop. */
    method OtherSpillPop(who: nat)
      requires Valid() && who < |threads| && threads[who].OverLimit?
      modifies this`threads, this`chains, this`spilling, this`st, this`events
      modifies buffers, buffers.header`prev, buffers.header`next
      ensures Valid() && Spooling(old(st), st, old(events), events) && SameSender(old(st), st)
      ensures events == old(events) + [SpillPop(who)]
      ensures chains == old(chains)[who := old(buffers.nodes)] && buffers.nodes == []
    {
      hide Lists, Net, History, SenderEnabled, Linked, Distinct, Spills, Union, Carries, CarriesLast;
      InOtherHands([]);
      CarriesSize(buffers.nodes, st.queue);
      SpillsAt(threads, chains, st.producers, spilling, who);
      ghost var held, q, queued, before, within := st.producers, st.queue, buffers.nodes, chains, spilling;
      var t := OtherTake(who);
      SpillsWider(threads, before, held, within, spilling);
      EmptyCarries();
      assert queued == [] ==> q == [];
      SpillsSet(threads, before, held, spilling, who, t, queued, Saving(q));
      threads := threads[who := t];
      EmitProducer(SpillPop(who));
    }

    /** save_buffer() by a producer: the buffer at hand is written under the first free name. */
    method OtherSpillSave(who: nat, stamp: string)
      requires Valid() && who < |threads| && threads[who].Writing?
      modifies this`disk, this`threads, this`st, this`events
      ensures Valid() && Spooling(old(st), st, old(events), events) && SameSender(old(st), st)
      ensures var name := Spool.Name(stamp, Spool.FirstFree(old(disk), stamp, old(threads[who].count)));
              && events == old(events) + [SpillSave(who, name)]
              && disk == old(disk)[name := old(threads[who].at.data)]
    {
      hide Lists, Net, History, SenderEnabled, Linked, Distinct, Spills, Union, Carries, CarriesLast;
      hide Spool.Name, Spool.FirstFree, Spool.Completes;
      SpillsAt(threads, chains, st.producers, spilling, who);
      CarriesTail(chains[who], st.producers[who].rest);
      var at, last := threads[who].at, threads[who].last;
      ghost var held := st.producers;
      Spool.OneWrite(|at.data|);
      var saved, after;
      saved, after, disk := Spool.SaveBuffer(disk, stamp, threads[who].count, at.data, true, [Took(|at.data|)]);
      var t := Putting(at, last, after);
      SpillsSet(threads, chains, held, spilling, who, t, chains[who], Saving(held[who].rest[1..]));
      assert chains[who := chains[who]] == chains;
      threads := threads[who := t];
      EmitProducer(SpillSave(who, Spool.Name(stamp, after - 1)));
    }

    /** put() of the first buffer of a chain that a producer is writing. */
    method OtherPutHead(who: nat, at: Buffer)
      requires Lists() && who < |chains| && chains[who] != [] && chains[who][0] == at && Distinct(chains[who])
      modifies this`chains, this`spilling, allocator, at`next
      ensures Lists() && chains == old(chains)[who := old(chains)[who][1..]] && spilling == old(spilling) - {at}
      ensures allocator.free == [at] + old(allocator.free)
    {
      ghost var chain := chains[who];
      assert at in chain;
      UnionPut(chains, who);
      assert at in spilling;
      hide NullTerminated, Ring, Union, Disjoint, Distinct;
      allocator.Put(at);
      chains, spilling := chains[who := chain[1..]], spilling - {at};
    }

    lemma OnlyOneHolds(who: nat)
      requires Lists() && who < |chains| && chains[who] != [] && Distinct(chains[who])
      ensures var less := chains[who := Tail(chains[who])];
              forall i :: 0 <= i < |less| ==> chains[who][0] !in less[i]
    {
      var chain := chains[who];
      assert chain == [chain[0]] + chain[1..] && chain[0] in chain;
    }

    /** Where a producer is when the buffer at hand has been put back. */
    method NextToWrite(who: nat) returns (t: Thread)
      requires Lists() && Spills(threads, chains, st.producers, spilling)
      requires who < |threads| == |chains| == |st.producers| && threads[who].Putting?
      ensures chains[who] != [] && threads[who].at == chains[who][0] && Distinct(chains[who])
      ensures SpillHeld(t, chains[who][1..], st.producers[who], spilling)
      ensures if threads[who].at == threads[who].last then t == Written
              else t == Writing(chains[who][1], threads[who].last, threads[who].count)
    {
      hide Lists, Spills;
      SpillsAt(threads, chains, st.producers, spilling, who);
      var at, last, count := threads[who].at, threads[who].last, threads[who].count;
      ghost var chain := chains[who];
      t := Written;
      assert chain[0] == at && last == chain[|chain| - 1];
      if at != last {
        assert at.next == chain[1];
        t := Writing(at.next, last, count);
      }
    }

    /** The put() after it: the link to the next buffer is read before it is overwritten. */
    method OtherSpillPut(who: nat)
      requires Valid() && who < |threads| && threads[who].Putting?
      modifies this`threads, this`chains, this`spilling, allocator, threads[who].at`next
      ensures Valid() && chains == old(chains)[who := Tail(old(chains)[who])]
      ensures allocator.free == [old(threads[who].at)] + old(allocator.free)
    {
      hide Lists, Fields, Net, History, Spills, Union, Carries, CarriesLast, SpillHeld;
      SpillsAt(threads, chains, st.producers, spilling, who);
      var at := threads[who].at;
      ghost var held, chain, less := st.producers, chains[who], chains[who := Tail(chains[who])];
      var t := NextToWrite(who);
      OnlyOneHolds(who);
      SpillsSet(threads, chains, held, spilling, who, t, chain[1..], held[who]);
      assert held[who := held[who]] == held;
      SpillsNarrower(threads[who := t], less, held, spilling, at);
      OtherPutHead(who, at);
      threads := threads[who := t];
    }

    /** A producer that has written everything makes the sender look for files. */
    method OtherSpillFlag(who: nat)
      requires Valid() && who < |threads| && threads[who].Written?
      modifies this`mode, this`threads, this`st, this`events
      ensures Valid() && Spooling(old(st), st, old(events), events) && SameSender(old(st), st)
      ensures events == old(events) + [SpillFlag(who)] && mode == SendingFiles
    {
      hide Lists, Net, History, SenderEnabled, Linked, Distinct, Spills, Union, Carries, CarriesLast;
      SpillsAt(threads, chains, st.producers, spilling, who);
      SpillsSet(threads, chains, st.producers, spilling, who, Resting, [], Idle);
      assert chains[who := []] == chains;
      mode, threads := SendingFiles, threads[who := Resting];
      EmitProducer(SpillFlag(who));
    }

    /** One action of another thread. */
    method OtherStep()
      requires Valid()
      modifies this`others, this`threads, this`chains, this`spilling, this`pool
      modifies this`st, this`events, this`mode, this`disk
      modifies allocator, buffers, buffers.header`prev, buffers.header`next, pool - (set b | b in mine)
      ensures Valid() && fresh(pool - old(pool)) && old(pool) <= pool
      ensures Spooling(old(st), st, old(events), events) && SameSender(old(st), st)
    {
      hide Valid, Spooling, SameSender, Distinct, Linked;
      Frames();
      NothingDone(st, events);
      var action: nat := *;
      var who: int := *;
      if action == 0 {
        var memory: nat := *;
        var _ := OtherGet(memory);
      } else if action == 1 && others != {} {
        var buf :| buf in others;
        OtherPut(buf);
      } else if action == 2 && others != {} {
        var buf :| buf in others;
        var data: Payload, memory: bool, prev: Buffer?, next: Buffer? := *, *, *, *;
        OtherWrite(buf, data, memory, prev, next);
      } else if 0 <= who < |threads| {
        match threads[who]
        case Resting =>
          var chain: seq<Buffer> := *;
          if && chain != [] && Chain(chain[0], chain[|chain| - 1], chain)
             && (forall i :: 0 <= i < |chain| ==> chain[i] in others)
          {
            OtherSend(who, chain[0], chain[|chain| - 1], chain, Data(chain));
          }
        case OverLimit => OtherSpillPop(who);
        case Writing(_, _, _) =>
          var stamp: string := *;
          OtherSpillSave(who, stamp);
        case Putting(at, _, _) => OtherSpillPut(who);
        case Written => OtherSpillFlag(who);
      }
    }

    /** Where the buffers are that may be touched by one thread and not by another. */
    lemma Frames()
      requires Valid()
      ensures forall i :: 0 <= i < |mine| ==> mine[i] in pool
      ensures forall i :: 0 <= i < |buffers.nodes| ==> buffers.nodes[i] in pool && buffers.nodes[i] !in mine
      ensures forall b :: b in others ==> b in pool && b !in mine
      ensures forall i :: 0 <= i < |threads| && threads[i].Putting? ==> threads[i].at in pool && threads[i].at !in mine
    {
      hide Carries, CarriesLast, NullTerminated, Ring;
      forall i | 0 <= i < |threads| && threads[i].Putting?
        ensures threads[i].at in pool && threads[i].at !in mine
      {
        SpillsAt(threads, chains, st.producers, spilling, i);
      }
    }

    /**
     * Other threads run: any number of the actions above, in any order.  Between any two actions
     * of the sender thread this can happen; it leaves alone what the sender thread holds.
     */
    method Interfere()
      requires Valid()
      modifies this`others, this`threads, this`chains, this`spilling, this`pool
      modifies this`st, this`events, this`mode, this`disk
      modifies allocator, buffers, buffers.header`prev, buffers.header`next, pool - (set b | b in mine)
      ensures Valid() && fresh(pool - old(pool)) && old(pool) <= pool
      ensures Spooling(old(st), st, old(events), events) && SameSender(old(st), st)
    {
      NothingDone(st, events);
      hide Valid, SameSender, Spooling;
      var steps: nat := *;
      while steps > 0
        invariant Valid() && fresh(pool - old(pool)) && old(pool) <= pool
        invariant Spooling(old(st), st, old(events), events) && SameSender(old(st), st)
      {
        steps := steps - 1;
        ghost var s, es := st, events;
        OtherStep();
        SpoolingMore(old(st), s, st, old(events), es, events);
        SameSenderMore(old(st), s, st);
      }
      SpoolingGrows(old(st), st, old(events), events);
    }

    /** Interfere(), seen by whoever only wants its own things unchanged. */
    method Meanwhile()
      requires Valid()
      modifies this`others, this`threads, this`chains, this`spilling, this`pool
      modifies this`st, this`events, this`mode, this`disk
      modifies allocator, buffers, buffers.header`prev, buffers.header`next, pool - (set b | b in mine)
      ensures Valid() && fresh(pool - old(pool)) && old(pool) <= pool
      ensures st.pc == old(st.pc) && st.batch == old(st.batch) && st.sent == old(st.sent) && st.error == old(st.error)
      ensures old(events) <= events
    {
      hide Valid;
      Interfere();
    }

    // ----- What the sender thread does

    /** sender::connect(); dialed is what an attempt comes to, or would. */
    method Connect() returns (ok: bool, ghost dialed: bool)
      requires Net(st, world.script) && currentTime == st.now
      modifies this`lastSocketOperation, link, link.sock, link.sslsock, link.sslsock.sock
      ensures dialed <==> Reaches(world.script)
      ensures var c := SenderProtocol.Connect(st, dialed);
              Net(c, Dialled(world, st).script) && ok == c.connected
    {
      hide History, Lists, Carrying, Streams, Reaches;
      dialed := Reaches(world.script);
      if link.Connected() {
        return true, dialed;
      }
      lastSocketOperation := currentTime;
      StreamsNew(st.conns);
      ok := link.Connect();
    }

    /**
     * sender::send(const void*, size_t): true exactly when the peer is there and the transport lets
     * all of the payload out; on false, k is where it was cut.
     */
    method SendBytes(data: Payload) returns (ok: bool, ghost k: nat)
      requires Net(st, world.script) && st.connected && currentTime == st.now
      modifies this`lastSocketOperation, link, link.sock, link.sslsock, link.sslsock.sock
      ensures (ok <==> Delivers(world.script, data)) && k == Cut(world.script, data)
      ensures var x := AfterDelivery(world.script, data);
              if ok then Net(SendWhole(st, data), x) else Net(SendCut(st, data, k), x)
      ensures if ok then k == |data| else CutAt(data, k)
    {
      hide History, Lists, Carrying, Streams, OnWire, OnLast, Sends, Out, AfterSend;
      lastSocketOperation := currentTime;
      k := 0;
      OnLastTwice(Streams(st.conns), [], []);
      var closed := link.ClosedByPeer();
      if !closed {
        SameAhead(world.script, data);
        ok, k := link.Send(data);
        if ok {
          assert data[..k] == data;
          StreamsOnWire(st.conns, data, [data], None);
          return;
        }
      }
      StreamsOnWire(st.conns, data[..k], [], Some(data));
      link.Disconnect();
      ok := false;
    }

    /** Whether the peer is there has nothing to do with what the transport lets out. */
    lemma SameAhead(x: Script, data: Payload)
      ensures var y := x.(endings := Tail(x.endings));
              (Sends(y, data) <==> Sends(x, data)) && Out(y, data) == Out(x, data)
    {
    }

    lemma StateCoherent()
      requires History()
      ensures Coherent(st)
    {
      AlwaysCoherent(start, events);
    }

    /** first and last are the ends of the chain in hand. */
    ghost predicate InHand(first: Buffer?, last: Buffer)
      reads this`mine
    {
      mine != [] && first == mine[0] && last == mine[|mine| - 1]
    }

    /** The chain in hand can be walked by next, and its end recognised. */
    lemma Walk(first: Buffer, last: Buffer)
      requires Valid() && InHand(first, last)
      ensures Chain(first, last, mine) && first in mine && last in mine
      ensures first == last <==> |mine| == 1
      ensures |mine| > 1 ==> first.next == mine[1]
    {
    }

    /** What is known of the first buffer in hand when none is used up. */
    lemma HeadInHand(at: Buffer)
      requires Valid() && |mine| == |st.batch| && mine != [] && at == mine[0]
      ensures at.data == st.batch[0] && Fields(st) && (st.pc == Walking ==> st.connected)
    {
      StateCoherent();
      assert mine[|mine| - |st.batch|..] == mine;
    }

    /** The first payload of the batch is dealt with; its buffer is still in hand. */
    lemma UsedUp(q: seq<Payload>, batch: seq<Payload>, ps: seq<Producer>)
      requires Carrying(q, batch, ps) && batch != []
      ensures Carrying(q, batch[1..], ps)
    {
      hide Spills;
      assert mine[|mine| - |batch[1..]|..] == mine[|mine| - |batch|..][1..];
    }

    /** Records how the head of the batch has fared. */
    ghost method FinishHead(ok: bool, k: nat)
      requires Lists() && Carrying(st.queue, st.batch, st.producers) && Fields(st) && History()
      requires st.pc == Walking && st.batch != [] && (ok || CutAt(st.batch[0], k))
      requires (ok <==> Delivers(world.script, st.batch[0])) && k == Cut(world.script, st.batch[0])
      requires Net(if ok then SendWhole(st, st.batch[0]) else SendCut(st, st.batch[0], k),
                   AfterDelivery(world.script, st.batch[0]))
      modifies this`st, this`events, this`world
      ensures Valid() && events == old(events) + [SendNext(ok, k)]
      ensures world == old(world).(script := AfterDelivery(old(world).script, old(st.batch)[0]))
      ensures ok ==> st.batch == old(st.batch)[1..] && st.sent == old(st.sent) + [old(st.batch)[0]]
                     && st.error == old(st.error) && st.pc == if |old(st.batch)| > 1 then Walking else LoopEnd
      ensures !ok ==> st.pc == Returning && st.batch == old(st.batch) && st.sent == old(st.sent)
    {
      hide Lists, Carrying, Net, History, Apply, Enabled, SendWhole, SendCut, Delivers, Cut, AfterDelivery, Reaches;
      AfterSendNext(st, ok, k);
      NetSame(if ok then SendWhole(st, st.batch[0]) else SendCut(st, st.batch[0], k), Apply(st, SendNext(ok, k)),
              AfterDelivery(world.script, st.batch[0]));
      UsedUp(st.queue, st.batch, st.producers);
      Emit(SendNext(ok, k));
    }

    /** Sends the buffer at the head of the chain in hand. */
    method SendHead(at: Buffer) returns (sent: bool)
      requires Valid() && st.pc == Walking && |mine| == |st.batch| && mine != [] && at == mine[0]
      modifies this`lastSocketOperation, this`st, this`events, this`world
      modifies link, link.sock, link.sslsock, link.sslsock.sock
      ensures Valid() && (sent <==> Delivers(old(world).script, old(st.batch)[0]))
      ensures world == old(world).(script := AfterDelivery(old(world).script, old(st.batch)[0]))
      ensures exists k :: events == old(events) + [SendNext(sent, k)]
      ensures sent ==> st.batch == old(st.batch)[1..] && st.sent == old(st.sent) + [old(st.batch)[0]]
                       && st.error == old(st.error) && st.pc == if |old(st.batch)| > 1 then Walking else LoopEnd
      ensures !sent ==> st.pc == Returning && st.batch == old(st.batch) && st.sent == old(st.sent)
    {
      hide Lists, Carrying, Net, History, SendWhole, SendCut, Delivers, Cut, AfterDelivery;
      HeadInHand(at);
      ghost var k;
      sent, k := SendBytes(at.data);
      FinishHead(sent, k);
    }

    /** allocator::put() of the first buffer of the chain in hand, as far as the lists go. */
    method PutMine(at: Buffer)
      requires Lists() && mine != [] && at == mine[0]
      modifies this`mine, allocator, at`next
      ensures Lists() && mine == old(mine)[1..]
    {
      hide NullTerminated, Ring, Union, Disjoint;
      ghost var rest := mine[1..];
      assert mine == [at] + rest;
      allocator.Put(at);
      mine := rest;
    }

    /** allocator::put() of the first buffer of the chain in hand, whose payload is dealt with. */
    method PutHead(at: Buffer)
      requires Valid() && |st.batch| < |mine| && at == mine[0]
      modifies this`mine, allocator, at`next
      ensures Valid() && mine == old(mine)[1..]
    {
      hide Lists, Fields, Net, History, Carries, CarriesLast, Spills;
      InOtherHands([]);
      assert at in mine;
      CarriesLastTail(mine, st.batch);
      PutMine(at);
    }

    lemma JoinQueue()
      requires Lists()
      ensures Distinct(mine + buffers.nodes) && buffers.header !in mine && Distinct<Buffer>([])
      ensures forall b :: b in allocator.free ==> b !in mine && b !in buffers.nodes && b != buffers.header
    {
      DistinctJoin(mine, buffers.nodes);
    }

    /** push_front() of the chain in hand, as far as the lists go. */
    method PushMine(first: Buffer, last: Buffer)
      requires Lists() && Chain(first, last, mine)
      modifies this`mine, buffers, buffers.header`prev, buffers.header`next
      modifies buffers.nodes`prev, buffers.nodes`next, first`prev, last`next
      ensures Lists() && mine == [] && buffers.nodes == old(mine) + old(buffers.nodes)
    {
      hide Distinct, Ring, NullTerminated, Union, Disjoint;
      JoinQueue();
      var n := buffers.PushFrontChain(first, last, mine);
      assert forall b :: b in allocator.free ==> b.next == old(b.next);
      mine := [];
    }

    /** push_front() of the chain in hand, with what it carries. */
    method PushBatch(first: Buffer, last: Buffer,
                     ghost q: seq<Payload>, ghost batch: seq<Payload>, ghost ps: seq<Producer>)
      requires Lists() && Chain(first, last, mine) && Carrying(q, batch, ps) && |mine| == |batch|
      modifies this`mine, buffers, buffers.header`prev, buffers.header`next
      modifies buffers.nodes`prev, buffers.nodes`next, first`prev, last`next
      ensures Lists() && mine == [] && buffers.nodes == old(mine) + old(buffers.nodes)
      ensures Carrying(batch + q, [], ps)
    {
      hide Lists, Chain, Carries, Spills;
      InOtherHands([]);
      EndsInHand(first, last);
      assert mine[|mine| - |batch|..] == mine;
      CarriesJoin(mine, buffers.nodes, batch, q);
      PushMine(first, last);
      EmptyCarries();
    }

    lemma EndsInHand(first: Buffer, last: Buffer)
      requires Chain(first, last, mine)
      ensures first in mine && last in mine
    {
    }

    /** push_front() of the chain in hand. */
    method Return(first: Buffer, last: Buffer)
      requires Valid() && st.pc == Returning && |mine| == |st.batch| && InHand(first, last)
      modifies this`mine, this`st, this`events, this`world, buffers, buffers.header`prev, buffers.header`next
      modifies buffers.nodes`prev, buffers.nodes`next, first`prev, last`next
      ensures Valid() && mine == [] && st.pc == LoopEnd && st.error && st.sent == old(st.sent)
      ensures st.queue == old(st.batch + st.queue) && buffers.nodes == old(mine + buffers.nodes)
      ensures events == old(events) + [PushFront] && world == old(world)
    {
      hide Lists, Carrying, Net, History, Apply, Enabled, Chain, Reaches, Delivers, Cut;
      Walk(first, last);
      AfterPushFront(st);
      NetSame(st, Apply(st, PushFront), world.script);
      PushBatch(first, last, st.queue, st.batch, st.producers);
      Emit(PushFront);
    }

    /** The first buffer of the chain in hand goes back to the allocator, after a while. */
    method Recycle(at: Buffer)
      requires Valid() && |st.batch| < |mine| && at == mine[0]
      modifies Repr()
      ensures Valid() && fresh(pool - old(pool)) && old(pool) <= pool && mine == old(mine)[1..]
      ensures SameSender(old(st), st) && Spooling(old(st), st, old(events), events) && world == old(world)
      ensures old(events) <= events
    {
      hide Valid, SameSender, Spooling;
      Frames();
      Interfere();
      KeepsBatch(old(st), st);
      SpoolingGrows(old(st), st, old(events), events);
      PutHead(at);
    }

    lemma KeepsBatch(s: State, t: State)
      requires SameSender(s, t)
      ensures s.batch == t.batch
    {
    }

    /** The chain in hand goes back to the front of the queue, after a while. */
    method GiveBack(first: Buffer, last: Buffer)
      requires Valid() && st.pc == Returning && |mine| == |st.batch| && InHand(first, last)
      modifies Repr()
      ensures Valid() && fresh(pool - old(pool)) && old(pool) <= pool && mine == [] && world == old(world)
      ensures st.pc == LoopEnd && st.error && st.sent == old(st.sent) && old(st.batch) <= st.queue
      ensures old(mine) <= buffers.nodes
      ensures old(events) <= events
    {
      hide Valid;
      Frames();
      Meanwhile();
      Frames();
      Return(first, last);
    }

    /** One round of the walk over a batch: next is the buffer to go on with, if there is one. */
    method SendOne(at: Buffer, last: Buffer) returns (sent: bool, next: Buffer?)
      requires Valid() && st.pc == Walking && |mine| == |st.batch| && InHand(at, last)
      modifies Repr()
      ensures Valid() && fresh(pool - old(pool)) && old(pool) <= pool
      ensures sent <==> Delivers(old(world).script, old(st.batch)[0])
      ensures world == old(world).(script := AfterDelivery(old(world).script, old(st.batch)[0]))
      ensures sent ==> st.batch == old(st.batch)[1..] && st.sent == old(st.sent) + [old(st.batch)[0]]
                       && mine == old(mine)[1..] && st.error == old(st.error)
      ensures sent && at != last ==> st.pc == Walking && InHand(next, last)
      ensures sent && at == last ==> st.pc == LoopEnd && mine == []
      ensures !sent ==> st.pc == LoopEnd && mine == [] && st.error
                        && st.sent == old(st.sent) && old(st.batch) <= st.queue
      ensures old(events) <= events
    {
      hide Valid, Chain, Spooling, Delivers, AfterDelivery;
      next := null;
      Meanwhile();
      sent := SendHead(at);
      Walk(at, last);
      if sent {
        if at != last {
          next := at.next;
        }
        Recycle(at);
      } else {
        GiveBack(at, last);
      }
    }

    /**
     * run(), the walk over a popped batch.  What it sends is the longest prefix of the batch that is
     * delivered, in order; what it does not send goes back to the front of the queue, ahead of
     * whatever was queued meanwhile.
     */
    method SendBatch(first: Buffer, last: Buffer) returns (ok: bool, ghost n: nat)
      requires Valid() && st.pc == Walking && |mine| == |st.batch| && InHand(first, last)
      modifies Repr()
      ensures Valid() && fresh(pool - old(pool)) && old(pool) <= pool && world == old(world).(script := world.script)
      ensures st.pc == LoopEnd && mine == [] && st.error == if ok then old(st.error) else true
      ensures n <= |old(st.batch)| && st.sent == old(st.sent) + old(st.batch)[..n]
      ensures AllDelivered(old(world).script, old(st.batch)[..n])
      ensures if ok then n == |old(st.batch)|
              else && n < |old(st.batch)| && old(st.batch)[n..] <= st.queue
                   && !Delivers(AfterAll(old(world).script, old(st.batch)[..n]), old(st.batch)[n])
      ensures old(events) <= events
    {
      hide Valid, Delivers, AfterDelivery, AllDelivered, AfterAll;
      var at: Buffer? := first;
      n := 0;
      NothingDelivered(world.script);
      while true
        invariant Valid() && fresh(pool - old(pool)) && old(pool) <= pool
        invariant st.pc == Walking && |mine| == |st.batch| && InHand(at, last) && old(events) <= events
        invariant n < |old(st.batch)| && st.batch == old(st.batch)[n..]
        invariant st.sent == old(st.sent) + old(st.batch)[..n] && st.error == old(st.error)
        invariant AllDelivered(old(world).script, old(st.batch)[..n])
        invariant world == old(world).(script := AfterAll(old(world).script, old(st.batch)[..n]))
        decreases |mine|
      {
        Walk(at, last);
        DeliveredMore(old(world).script, old(st.batch)[..n], old(st.batch)[n]);
        var sent, next := SendOne(at, last);
        if !sent {
          return false, n;
        }
        assert old(st.batch)[..n] + [old(st.batch)[n]] == old(st.batch)[..n + 1];
        n := n + 1;
        if at == last {
          return true, n;
        }
        at := next;
      }
    }

    // ----- Files

    lemma SharedFields()
      requires Valid()
      ensures Fields(st)
    {
    }

    /** The end of a directory entry: unlink() unless the send failed. */
    method FinishFile(name: string, gone: bool, ghost e: Event)
      requires Lists() && Carrying(st.queue, st.batch, st.producers) && Fields(st) && History()
      requires st.batch == [] && st.pc == Scanning && e == Next(world, st)
      requires (e.ScanSent? || e.ScanFailed? || e.ScanSkipped?) && Enabled(st, e)
      requires e.name == name && (gone <==> !e.ScanFailed?)
      requires Net(if e.ScanSent? then SendWhole(st, st.disk[e.name])
                   else if e.ScanFailed? then SendCut(st, st.disk[e.name], e.k) else st,
                   After(world, st, e).script)
      modifies this`disk, this`st, this`events, this`world
      ensures Valid() && st.batch == [] && events == old(events) + [e]
      ensures world == After(old(world), old(st), e)
      ensures disk == if e.ScanFailed? then old(disk) else old(disk) - {e.name}
      ensures st.pc == (if e.ScanFailed? then LoopEnd else Scanning) && (e.ScanFailed? ==> st.error)
      ensures st.sent == if e.ScanSent? then old(st.sent) + [old(disk)[e.name]] else old(st.sent)
      ensures st.lost == if e.ScanSkipped? then old(st.lost) + [old(disk)[e.name]] else old(st.lost)
    {
      hide Lists, Carrying, Net, History, Apply, SendWhole, SendCut, Next, After;
      AfterScan(st, e);
      NetSame(if e.ScanSent? then SendWhole(st, st.disk[e.name])
              else if e.ScanFailed? then SendCut(st, st.disk[e.name], e.k) else st, Apply(st, e),
              After(world, st, e).script);
      if gone {
        disk := disk - {name};
      }
      Emit(e);
    }

    /**
     * send_file() and the unlink() after it, for a name that is there: a file that can be mapped
     * is sent; a file that cannot be opened or mapped, as no empty file can, is removed unsent.
     * False exactly when there is something to be sent and it is not delivered.
     */
    method SendFile(name: string, maps: bool) returns (ok: bool)
      requires Valid() && st.pc == Scanning && mine == [] && st.batch == [] && name in disk
      requires NextIs(Entry(name, maps))
      modifies this`lastSocketOperation, this`disk, this`st, this`events, this`world
      modifies link, link.sock, link.sslsock, link.sslsock.sock
      ensures Valid() && st.batch == [] && old(events) < events
      ensures var p := old(disk)[name];
              var goes := maps && p != [];
              && (ok <==> !goes || Delivers(old(world).script, p))
              && world == old(world).(script := if goes then AfterDelivery(old(world).script, p) else old(world).script,
                                      at := old(world).at + 1)
              && (ok ==> st.pc == Scanning && disk == old(disk) - {name})
              && (ok && goes ==> st.sent == old(st.sent) + [p] && st.lost == old(st.lost))
              && (!goes ==> st.sent == old(st.sent) && st.lost == old(st.lost) + [p])
              && (!ok ==> st.pc == LoopEnd && st.error && disk == old(disk)
                          && st.sent == old(st.sent) && st.lost == old(st.lost))
    {
      hide Lists, Carrying, Net, History, SendWhole, SendCut, Delivers, Cut, AfterDelivery, Reaches;
      FileAtHand();
      var content := disk[name];
      if maps && content != [] {
        ghost var k;
        ok, k := SendBytes(content);
        FinishFile(name, ok, if ok then ScanSent(name) else ScanFailed(name, k));
      } else {
        ok := true;
        FinishFile(name, true, ScanSkipped(name, maps));
      }
    }

    /** The next entry of the present round. */
    ghost predicate NextIs(e: Entry)
      reads this`world
    {
      world.at < |world.round.entries| && world.round.entries[world.at] == e
    }

    /** stat() finds nothing. */
    method PassBy(name: string, maps: bool)
      requires Valid() && st.pc == Scanning && mine == [] && st.batch == [] && name !in disk
      requires NextIs(Entry(name, maps))
      modifies this`st, this`events, this`world
      ensures Valid() && st.batch == [] && st.pc == Scanning && disk == old(disk)
      ensures st.sent == old(st.sent) && st.lost == old(st.lost) && events == old(events) + [ScanAbsent(name)]
      ensures world == old(world).(at := old(world).at + 1)
    {
      hide Lists, Carrying, Net, History, Apply, Delivers, Cut, Reaches;
      AfterSimple(st, ScanAbsent(name));
      EmitSimple(ScanAbsent(name));
    }

    lemma FileAtHand()
      requires Valid() && st.pc == Scanning
      ensures Fields(st) && st.connected
    {
      StateCoherent();
    }

    ghost function Now(): View
      reads this`disk, this`st, this`events
    {
      View(disk, st.sent, st.lost, events)
    }

    /** Interfere(), seen by a scan of the directory. */
    method WaitForFiles()
      requires Valid()
      modifies this`others, this`threads, this`chains, this`spilling, this`pool
      modifies this`st, this`events, this`mode, this`disk
      modifies allocator, buffers, buffers.header`prev, buffers.header`next, pool - (set b | b in mine)
      ensures Valid() && fresh(pool - old(pool)) && old(pool) <= pool && Waited(old(Now()), Now())
      ensures st.pc == old(st.pc) && st.batch == old(st.batch) && old(events) <= events
    {
      hide Valid;
      SharedFields();
      Interfere();
      SharedFields();
    }

    /**
     * One directory entry of send_files(), after a while; f is what was found there, and go says
     * whether to go on: not when a file that goes out is not delivered.
     */
    method ScanEntry(e: Entry) returns (go: bool, ghost f: Option<Payload>)
      requires Valid() && st.pc == Scanning && mine == [] && st.batch == [] && NextIs(e)
      modifies Repr()
      ensures Valid() && fresh(pool - old(pool)) && old(pool) <= pool && mine == [] && st.batch == []
      ensures go <==> !(Goes(e, f) && !Delivers(old(world).script, f.value))
      ensures world == (if Goes(e, f) then
                          old(world).(script := AfterDelivery(old(world).script, f.value), at := old(world).at + 1)
                        else old(world).(at := old(world).at + 1))
      ensures go ==> st.pc == Scanning && EntryDone(old(Now()), Now(), e, f)
      ensures !go ==> st.pc == LoopEnd && st.error && e.name in disk && f == Some(disk[e.name])
                      && Waited(old(Now()), Now())
      ensures old(events) <= events
    {
      hide Valid, EntryDone, Waited, Delivers, AfterDelivery;
      WaitForFiles();
      ghost var m := Now();
      go, f := true, None;
      if e.name in disk {
        f := Some(disk[e.name]);
        go := SendFile(e.name, e.maps);
      } else {
        PassBy(e.name, e.maps);
      }
      EntryFound(old(Now()), m, Now(), e, f, go);
    }

    /** connect() and opendir() of send_files(): true exactly when both succeed. */
    method OpenFiles(dir: bool) returns (ok: bool)
      requires Valid() && st.pc == Opening && mine == [] && st.batch == [] && world.round.dir == dir
      modifies this`lastSocketOperation, this`st, this`events, this`world
      modifies link, link.sock, link.sslsock, link.sslsock.sock
      ensures Valid() && old(events) < events && st.batch == []
      ensures st.sent == old(st.sent) && st.lost == old(st.lost)
      ensures ok <==> CanConnect(old(world).script, old(st.connected)) && dir
      ensures world == old(world).(script := AfterConnect(old(world).script, old(st.connected)))
      ensures st.pc == (if ok then Scanning else LoopEnd) && (!ok ==> st.error)
    {
      hide Lists, Carrying, Net, History, Apply, Enabled, Reaches, Delivers, Cut, AfterDial;
      ghost var dialed;
      ok, dialed := Connect();
      ok := ok && dir;
      AfterOpenDirectory(st, dialed, dir);
      NetSame(SenderProtocol.Connect(st, dialed), Apply(st, OpenDirectory(dialed, dir)), Dialled(world, st).script);
      Emit(OpenDirectory(dialed, dir));
    }

    /** An event that changes the protocol state and the field that goes with it, and nothing else. */
    ghost method EmitSimple(e: Event)
      requires Lists() && Carrying(st.queue, st.batch, st.producers) && Net(st, world.script) && History()
      requires Simple(e) && e == Next(world, st) && SenderEnabled(st, e) && Fields(Apply(st, e))
      modifies this`st, this`events, this`world
      ensures Valid() && st == Apply(old(st), e) && events == old(events) + [e]
      ensures world == After(old(world), old(st), e)
    {
      hide Lists, Carrying, Net, History, Apply, Enabled, Fields, Next;
      AfterSimple(st, e);
      NetSame(st, Apply(st, e), world.script);
      Emit(e);
    }

    /** The end of the directory: back to the queue. */
    method CloseFiles()
      requires Valid() && st.pc == Scanning && mine == [] && st.batch == [] && world.at == |world.round.entries|
      modifies this`mode, this`st, this`events, this`world
      ensures Valid() && events == old(events) + [ScanEnd] && st.batch == [] && world == old(world)
      ensures st.sent == old(st.sent) && st.lost == old(st.lost) && disk == old(disk)
      ensures st.pc == LoopEnd && !st.error
    {
      hide Lists, Carrying, Net, History, Apply, Delivers, Cut, Reaches;
      AfterSimple(st, ScanEnd);
      mode := SendingQueuedBuffers;
      EmitSimple(ScanEnd);
    }

    /**
     * The loop over the directory entries; found is what was found under each one dealt with.  All
     * that was found and maps is delivered; false exactly when the next entry is a file that maps
     * and is not.
     */
    method ScanDirectory(entries: seq<Entry>, ghost v: View) returns (ok: bool, ghost found: seq<Option<Payload>>)
      requires Valid() && st.pc == Scanning && mine == [] && st.batch == [] && Scanned(v, Now(), entries, [])
      requires world.round.entries == entries && world.at == 0
      modifies Repr()
      ensures Valid() && fresh(pool - old(pool)) && old(pool) <= pool && mine == [] && st.batch == []
      ensures SameRound(old(world), world)
      ensures |found| <= |entries| && Scanned(v, Now(), entries, found)
      ensures AllDelivered(old(world).script, ToSend(entries, found))
      ensures ok ==> |found| == |entries| && st.pc == Scanning && world.at == |entries|
      ensures !ok ==> st.pc == LoopEnd && st.error && Undelivered(old(world).script, disk, entries, found)
      ensures old(events) <= events
    {
      hide Valid, Scanned, Waited, EntryDone, Delivers, AfterDelivery, AllDelivered, AfterAll, ToSend;
      found := [];
      NothingFound(world.script, entries);
      for i := 0 to |entries|
        invariant Valid() && fresh(pool - old(pool)) && old(pool) <= pool && mine == [] && st.batch == []
        invariant st.pc == Scanning && |found| == i && Scanned(v, Now(), entries, found) && old(events) <= events
        invariant AllDelivered(old(world).script, ToSend(entries, found))
        invariant world == old(world).(script := AfterAll(old(world).script, ToSend(entries, found)), at := i)
      {
        ghost var w := Now();
        ghost var f;
        ok, f := ScanEntry(entries[i]);
        if f.Some? {
          DeliveredMore(old(world).script, ToSend(entries, found), f.value);
        }
        FoundMore(entries, found, f);
        if !ok {
          ScannedStill(v, w, Now(), entries, found);
          return;
        }
        ScannedStep(v, w, Now(), entries, found, f);
        found := found + [f];
      }
      ok := true;
    }

    /**
     * send_files(): found is what was found under each entry that was dealt with.  True exactly when
     * there is a connection, the directory can be opened, and every file that maps is delivered; then
     * all entries were dealt with, and none is still there unless a producer has written it again.
     * On false nothing was done, or the next entry is a file that could not be sent; it and all files
     * not dealt with are still there.
     */
    method SendFiles(dir: bool, entries: seq<Entry>) returns (ok: bool, ghost found: seq<Option<Payload>>)
      requires Valid() && st.pc == Opening && mine == [] && st.batch == []
      requires world.round.dir == dir && world.round.entries == entries && world.at == 0
      modifies Repr()
      ensures Valid() && fresh(pool - old(pool)) && old(pool) <= pool && mine == [] && st.batch == []
      ensures st.pc == LoopEnd && st.error == !ok && SameRound(old(world), world)
      ensures |found| <= |entries| && Scanned(old(Now()), Now(), entries, found)
      ensures var x := AfterConnect(old(world).script, old(st.connected));
              if CanConnect(old(world).script, old(st.connected)) && dir then
                && AllDelivered(x, ToSend(entries, found))
                && (if ok then |found| == |entries| else Undelivered(x, disk, entries, found))
              else !ok && found == []
      ensures old(events) <= events
    {
      hide Valid, Scanned, Waited, CanConnect, AllDelivered, ToSend, Undelivered;
      found := [];
      NothingScanned(Now(), entries);
      ghost var v, w := Now(), Now();
      ok := OpenFiles(dir);
      StillThere(w, Now());
      ScannedStill(v, w, Now(), entries, []);
      if ok {
        ok, found := ScanDirectory(entries, v);
        if ok {
          w := Now();
          LeaveDirectory();
          ScannedStill(v, w, Now(), entries, found);
        }
      }
    }

    /** The end of send_files(), after a while in which producers may write files. */
    method LeaveDirectory()
      requires Valid() && st.pc == Scanning && mine == [] && st.batch == [] && world.at == |world.round.entries|
      modifies Repr()
      ensures Valid() && fresh(pool - old(pool)) && old(pool) <= pool && mine == [] && st.batch == []
      ensures st.pc == LoopEnd && !st.error && Waited(old(Now()), Now()) && world == old(world)
      ensures old(events) <= events
    {
      hide Valid, Waited;
      ghost var v := Now();
      WaitForFiles();
      ghost var m := Now();
      CloseFiles();
      WaitedOn(v, m, Now());
    }

    // ----- The queue, the connection and the clock

    /** pop(): the whole queue comes into the sender thread's hands. */
    method Detach() returns (first: Buffer?, last: Buffer?, n: nat)
      requires Lists() && mine == []
      modifies this`mine, buffers, buffers.header`prev, buffers.header`next
      ensures Lists() && buffers.nodes == [] && mine == old(buffers.nodes) && n == |mine|
      ensures n > 0 ==> first != null && last != null && InHand(first, last)
    {
      hide NullTerminated, Union, Disjoint;
      ghost var queued := buffers.nodes;
      first, last, n := buffers.Pop();
      mine := queued;
    }

    /** The whole queue is in hand, and what it carries is the batch. */
    lemma AllInHand(q: seq<Payload>)
      requires Carries(mine, q)
      ensures CarriesLast(mine, q) && |mine| == |q| && Carries([], [])
    {
      assert mine[|mine| - |q|..] == mine;
    }

    /** pop(), with what the queue carries. */
    method TakeQueue(ghost q: seq<Payload>, ghost ps: seq<Producer>) returns (first: Buffer?, last: Buffer?, n: nat)
      requires Lists() && mine == [] && Carrying(q, [], ps)
      modifies this`mine, buffers, buffers.header`prev, buffers.header`next
      ensures Lists() && Carrying([], q, ps) && n == |mine| == |q|
      ensures buffers.nodes == [] && mine == old(buffers.nodes)
      ensures n > 0 ==> first != null && last != null && InHand(first, last)
    {
      hide Lists, Carries, CarriesLast, Spills;
      InOtherHands([]);
      first, last, n := Detach();
      AllInHand(q);
    }

    /** One look at the queue: all of it comes into the sender thread's hands. */
    method TryPop() returns (first: Buffer?, last: Buffer?, n: nat)
      requires Valid() && st.pc == Waiting && mine == [] && st.batch == [] && world.looks > 0
      modifies this`mine, this`st, this`events, this`world, buffers, buffers.header`prev, buffers.header`next
      ensures Valid() && n == |mine| == |st.batch| == |old(st.queue)| && mine == old(buffers.nodes)
      ensures st.sent == old(st.sent) && st.error == old(st.error) && st.queue == [] && st.batch == old(st.queue)
      ensures n > 0 ==> first != null && last != null && InHand(first, last)
      ensures if n > 0 then st.pc == Holding && world == old(world) && events == old(events) + [TakeBatch]
              else && st.pc == Waiting && world == old(world).(looks := old(world).looks - 1)
                   && events == old(events) + [PopEmpty]
    {
      hide Lists, Carrying, Net, History, Apply, Enabled, Reaches, Delivers, Cut;
      ghost var q := st.queue;
      first, last, n := TakeQueue(st.queue, st.producers);
      if n > 0 {
        AfterPop(st, TakeBatch);
        NetSame(st, Apply(st, TakeBatch), world.script);
        Emit(TakeBatch);
      } else {
        AfterSimple(st, PopEmpty);
        EmitSimple(PopEmpty);
      }
    }

    /** The wait has timed out. */
    method GiveUp()
      requires Valid() && st.pc == Waiting && mine == [] && st.batch == [] && world.looks == 0
      modifies this`st, this`events, this`world
      ensures Valid() && st.pc == TimedOut && st.sent == old(st.sent) && st.error == old(st.error) && st.batch == []
      ensures events == old(events) + [PopTimeout] && world == old(world)
    {
      hide Lists, Carrying, Net, History, Apply, Enabled, Reaches, Delivers, Cut;
      AfterSimple(st, PopTimeout);
      EmitSimple(PopTimeout);
    }

    /** The waits of a timed pop, each followed by a look, and the one that times out. */
    method AwaitQueue(signals: nat) returns (first: Buffer?, last: Buffer?, n: nat)
      requires Valid() && st.pc == Waiting && mine == [] && st.batch == [] && world.looks == signals
      modifies Repr()
      ensures Valid() && fresh(pool - old(pool)) && old(pool) <= pool && n == |mine| == |st.batch|
      ensures st.sent == old(st.sent) && st.error == old(st.error) && world == old(world).(looks := world.looks)
      ensures st.pc == (if n > 0 then Holding else TimedOut) && old(events) <= events
      ensures n > 0 ==> first != null && last != null && InHand(first, last)
    {
      hide Valid, InHand;
      first, last, n := null, null, 0;
      var i := 0;
      while i < signals
        invariant Valid() && fresh(pool - old(pool)) && old(pool) <= pool && mine == [] && st.batch == []
        invariant i <= signals && old(events) <= events && st.pc == Waiting && world.looks == signals - i && n == 0
        invariant st.sent == old(st.sent) && st.error == old(st.error) && world == old(world).(looks := world.looks)
      {
        Frames();
        Meanwhile();
        Frames();
        first, last, n := TryPop();
        if n > 0 {
          return;
        }
        i := i + 1;
      }
      Frames();
      Meanwhile();
      GiveUp();
    }

    /**
     * The timed pop of run(): a look at the queue at once, and one after every wait that is
     * signalled.  Whatever is popped is the whole queue as it is then; if there is a queue at once,
     * that one.
     */
    method PopBatch(signals: nat) returns (first: Buffer?, last: Buffer?, n: nat)
      requires Valid() && st.pc == Waiting && mine == [] && st.batch == [] && world.looks == signals + 1
      modifies Repr()
      ensures Valid() && fresh(pool - old(pool)) && old(pool) <= pool && n == |mine| == |st.batch|
      ensures st.sent == old(st.sent) && st.error == old(st.error) && world == old(world).(looks := world.looks)
      ensures st.pc == (if n > 0 then Holding else TimedOut) && old(events) <= events
      ensures n > 0 ==> first != null && last != null && InHand(first, last)
      ensures old(st.queue) != [] ==> st.batch == old(st.queue) && mine == old(buffers.nodes)
    {
      hide Valid, InHand;
      Frames();
      first, last, n := TryPop();
      if n == 0 {
        first, last, n := AwaitQueue(signals);
      }
    }

    /** connect() with a batch in hand. */
    method ConnectForBatch() returns (ok: bool)
      requires Valid() && st.pc == Holding && |mine| == |st.batch|
      modifies this`lastSocketOperation, this`st, this`events, this`world
      modifies link, link.sock, link.sslsock, link.sslsock.sock
      ensures Valid() && st.batch == old(st.batch) && st.sent == old(st.sent) && st.error == old(st.error)
      ensures st.pc == if ok then Walking else Returning
      ensures ok <==> CanConnect(old(world).script, old(st.connected))
      ensures world == old(world).(script := AfterConnect(old(world).script, old(st.connected)))
      ensures exists dialed :: events == old(events) + [BatchConnect(dialed)]
    {
      hide Lists, Carrying, Net, History, Apply, Enabled, Reaches, Delivers, Cut, AfterDial;
      ghost var dialed;
      ok, dialed := Connect();
      AfterBatchConnect(st, dialed);
      NetSame(SenderProtocol.Connect(st, dialed), Apply(st, BatchConnect(dialed)), Dialled(world, st).script);
      Emit(BatchConnect(dialed));
    }

    /** The top of run()'s loop: after an error, wait for the reconnection time and connect. */
    method PassTheGate(error: bool) returns (go: bool)
      requires Valid() && st.pc == Gate && mine == [] && st.batch == [] && error == st.error
      modifies this`lastSocketOperation, this`st, this`events, this`world
      modifies link, link.sock, link.sslsock, link.sslsock.sock
      ensures Valid() && st.batch == [] && st.error == !go && st.pc == if go then Dispatch else LoopEnd
      ensures go <==> !error || (old(currentTime - lastSocketOperation) >= RECONNECTION_TIME
                                 && CanConnect(old(world).script, old(st.connected)))
      ensures exists dialed :: events == old(events) + [PassGate(dialed)]
      ensures world == old(world).(script := world.script)
    {
      hide Lists, Carrying, Net, History, Apply, Enabled, Reaches, Delivers, Cut, AfterDial;
      KnowsLink();
      ghost var dialed := Reaches(world.script);
      ghost var due := error && currentTime - lastSocketOperation >= RECONNECTION_TIME;
      go := true;
      if error {
        go := false;
        if currentTime - lastSocketOperation >= RECONNECTION_TIME {
          go, dialed := Connect();
        }
      }
      AfterPassGate(st, dialed);
      NetSame(if due then SenderProtocol.Connect(st, dialed) else st, Apply(st, PassGate(dialed)),
              After(world, st, PassGate(dialed)).script);
      Emit(PassGate(dialed));
    }

    /** Nothing was popped: close a connection that has been idle for too long. */
    method CloseIdle()
      requires Valid() && st.pc == TimedOut && mine == [] && st.batch == []
      modifies this`st, this`events, this`world, link, link.sock, link.sslsock, link.sslsock.sock
      ensures Valid() && st.batch == [] && st.pc == LoopEnd && st.error == old(st.error) && st.sent == old(st.sent)
      ensures events == old(events) + [IdleCheck] && world == old(world)
      ensures link.Connected() <==> old(link.Connected()) && currentTime - lastSocketOperation < IDLE_TIMEOUT
    {
      hide Lists, Carrying, History, Apply, Enabled, Reaches, Delivers, Cut;
      if link.Connected() && currentTime - lastSocketOperation >= IDLE_TIMEOUT {
        link.Disconnect();
      }
      AfterIdleCheck(st);
      Emit(IdleCheck);
    }

    /** The loop's condition; running is what _M_running says. */
    method GoOn(running: bool)
      requires Valid() && mine == [] && st.batch == [] && st.pc == LoopEnd && (running <==> world.rounds != [])
      modifies this`st, this`events, this`world
      ensures Valid() && st.pc == (if running then Top else Stopping) && st.error == old(st.error) && st.batch == []
      ensures st.sent == old(st.sent) && events == old(events) + [Loop(running)]
      ensures world == old(world).(turns := old(world).turns + 1)
    {
      hide Lists, Carrying, Net, History, Apply, Enabled, Reaches, Delivers, Cut;
      AfterSimple(st, Loop(running));
      EmitSimple(Loop(running));
    }

    method ReadTheClock(round: Round)
      requires Valid() && mine == [] && st.batch == [] && st.pc == Top
      requires world.rounds != [] && world.rounds[0] == round
      modifies this`currentTime, this`st, this`events, this`world
      ensures Valid() && st.pc == Gate && st.batch == [] && st.error == old(st.error)
      ensures currentTime == round.now && events == old(events) + [ReadClock(round.now)]
      ensures world == old(world).(rounds := old(world).rounds[1..], round := round,
                                   looks := round.signals + 1, at := 0)
    {
      hide Lists, Carrying, Net, History, Apply, Enabled, Reaches, Delivers, Cut;
      currentTime := round.now;
      AfterSimple(st, ReadClock(round.now));
      EmitSimple(ReadClock(round.now));
    }

    // ----- The end of run()

    /** save_buffers() after the loop, its pop. */
    method FinalTake() returns (first: Buffer?, last: Buffer?, n: nat)
      requires Valid() && st.pc == Stopping && mine == [] && st.batch == []
      modifies this`mine, this`st, this`events, this`world, buffers, buffers.header`prev, buffers.header`next
      ensures Valid() && n == |mine| == |st.batch| && st.batch == old(st.queue) && st.queue == []
      ensures st.pc == (if n > 0 then Draining else Done) && disk == old(disk) && events == old(events) + [FinalPop]
      ensures st.sent == old(st.sent) && world == old(world).(count := 0)
      ensures n > 0 ==> first != null && last != null && InHand(first, last)
    {
      hide Lists, Carrying, Net, History, Apply, Enabled, Reaches, Delivers, Cut;
      first, last, n := TakeQueue(st.queue, st.producers);
      AfterPop(st, FinalPop);
      NetSame(st, Apply(st, FinalPop), world.script);
      Emit(FinalPop);
    }

    /**
     * save_buffer(): the first free name from count on, and a save that succeeds; by the contract
     * of Spool.Save it does not matter in how many writes.
     */
    method SaveBuffer(at: Buffer, stamp: string, count: nat) returns (after: nat)
      requires Valid() && st.pc == Draining && |mine| == |st.batch| && mine != [] && at == mine[0]
      requires world.stamp == stamp && world.count == count
      modifies this`disk, this`st, this`events, this`world
      ensures Valid() && st.batch == old(st.batch)[1..] && st.sent == old(st.sent)
      ensures st.pc == if |old(st.batch)| > 1 then Draining else Done
      ensures after == Spool.FirstFree(old(disk), stamp, count) + 1
      ensures disk == old(disk)[Spool.Name(stamp, after - 1) := old(st.batch)[0]]
      ensures events == old(events) + [FinalSave(Spool.Name(stamp, after - 1))]
      ensures world == old(world).(count := after)
    {
      hide Lists, Carrying, Net, History, Apply, Enabled, Spool.Name, Spool.FirstFree, Spool.Completes;
      hide Reaches, Delivers, Cut;
      HeadInHand(at);
      Spool.OneWrite(|at.data|);
      var saved;
      saved, after, disk := Spool.SaveBuffer(disk, stamp, count, at.data, true, [Took(|at.data|)]);
      ghost var name := Spool.Name(stamp, after - 1);
      AfterFinalSave(st, name);
      NetSame(st, Apply(st, FinalSave(name)), world.script);
      UsedUp(st.queue, st.batch, st.producers);
      Emit(FinalSave(name));
    }

    /** The next save, after a while. */
    method SaveSoon(at: Buffer, stamp: string, count: nat) returns (after: nat)
      requires Valid() && st.pc == Draining && |mine| == |st.batch| && mine != [] && at == mine[0]
      requires world.stamp == stamp && world.count == count
      modifies Repr()
      ensures Valid() && fresh(pool - old(pool)) && old(pool) <= pool && old(events) <= events && mine == old(mine)
      ensures st.batch == old(st.batch)[1..] && st.sent == old(st.sent) && world == old(world).(count := after)
      ensures st.pc == if |old(st.batch)| > 1 then Draining else Done
      ensures Quiet(old(events), events) ==>
                && after == Spool.FirstFree(old(st.disk), stamp, count) + 1
                && st.disk == old(st.disk)[Spool.Name(stamp, after - 1) := old(st.batch)[0]]
    {
      hide Valid, Quiet, Spooling, Spool.FirstFree, Spool.Name;
      Interfere();
      ghost var s1, e1 := st, events;
      SharedFields();
      after := SaveBuffer(at, stamp, count);
      SharedFields();
      if Quiet(old(events), events) {
        SpoolingGrows(old(st), s1, old(events), e1);
        QuietParts(old(events), e1, events);
      }
      SpoolingGrows(old(st), s1, old(events), e1);
    }

    /** One round of save_buffers(), among other threads. */
    method SaveOne(at: Buffer, last: Buffer, stamp: string, count: nat) returns (next: Buffer?, after: nat)
      requires Valid() && st.pc == Draining && |mine| == |st.batch| && InHand(at, last)
      requires world.stamp == stamp && world.count == count
      modifies Repr()
      ensures Valid() && fresh(pool - old(pool)) && old(pool) <= pool && old(events) <= events
      ensures mine == old(mine)[1..] && st.batch == old(st.batch)[1..] && st.sent == old(st.sent)
      ensures at != last ==> st.pc == Draining && InHand(next, last)
      ensures at == last ==> st.pc == Done && mine == []
      ensures world == old(world).(count := after)
      ensures Quiet(old(events), events) ==>
                && after == Spool.FirstFree(old(st.disk), stamp, count) + 1
                && st.disk == old(st.disk)[Spool.Name(stamp, after - 1) := old(st.batch)[0]]
    {
      hide Valid, Chain, Quiet, Spooling, Spool.FirstFree, Spool.Name;
      next := null;
      after := SaveSoon(at, stamp, count);
      Walk(at, last);
      if at != last {
        next := at.next;
      }
      ghost var s2, e2 := st, events;
      Recycle(at);
      SpoolingGrows(s2, st, e2, events);
      if Quiet(old(events), events) {
        QuietParts(old(events), e2, events);
      }
    }

    /** The loop of save_buffers(). */
    method SaveEach(first: Buffer, last: Buffer, stamp: string)
      requires Valid() && st.pc == Draining && |mine| == |st.batch| && InHand(first, last)
      requires world.stamp == stamp && world.count == 0
      modifies Repr()
      ensures Valid() && fresh(pool - old(pool)) && old(pool) <= pool && old(events) <= events
      ensures st.pc == Done && mine == [] && st.batch == [] && st.sent == old(st.sent)
      ensures world.rounds == old(world).rounds
      ensures Quiet(old(events), events) ==> st.disk == Spool.Spilled(old(st.disk), stamp, old(st.batch), 0)
    {
      hide Valid, Chain, Quiet, Spooling, Spool.FirstFree, Spool.Name, Spool.Spilled;
      ghost var d, q, e0 := st.disk, st.batch, events;
      var at: Buffer? := first;
      var count := 0;
      while true
        invariant Valid() && fresh(pool - old(pool)) && old(pool) <= pool && e0 <= events
        invariant st.pc == Draining && |mine| == |st.batch| && InHand(at, last) && st.sent == old(st.sent)
        invariant world.stamp == stamp && world.count == count && world.rounds == old(world).rounds
        invariant Quiet(e0, events) ==>
                    Spool.Spilled(st.disk, stamp, st.batch, count) == Spool.Spilled(d, stamp, q, 0)
        decreases |mine|
      {
        ghost var disk1, batch1, count1, e1 := st.disk, st.batch, count, events;
        var next, after := SaveOne(at, last, stamp, count);
        count := after;
        if Quiet(e0, events) {
          QuietParts(e0, e1, events);
          Spool.SpilledStep(disk1, stamp, batch1, count1);
        }
        if at == last {
          Spool.SpilledStep(st.disk, stamp, [], count);
          return;
        }
        at := next;
      }
    }

    /**
     * save_buffers() after the loop.  If no producer interferes, the queue is written in order
     * under the names that Spool.SpillNaming describes.  If none sends meanwhile, the queue is
     * empty in the end.
     */
    method SaveBuffers(stamp: string)
      requires Valid() && st.pc == Stopping && mine == [] && st.batch == [] && world.stamp == stamp
      modifies Repr()
      ensures Valid() && fresh(pool - old(pool)) && old(pool) <= pool && old(events) <= events
      ensures st.pc == Done && mine == [] && st.batch == [] && st.sent == old(st.sent)
      ensures world.rounds == old(world).rounds
      ensures Quiet(old(events), events) ==> st.disk == Spool.Spilled(old(st.disk), stamp, old(st.queue), 0)
      ensures SenderCustody.NoAccept(events[|old(events)|..]) ==> st.queue == []
    {
      hide Valid, Chain, Quiet, Spooling, Emptied, SenderCustody.NoAccept;
      hide Spool.FirstFree, Spool.Name, Spool.Spilled;
      SharedFields();
      var first, last, n := FinalTake();
      ghost var e1 := events;
      SharedFields();
      TakenAll();
      if n == 0 {
        Spool.SpilledStep(st.disk, stamp, [], 0);
      } else {
        SaveEach(first, last, stamp);
        if Quiet(old(events), events) {
          QuietParts(old(events), e1, events);
        }
        if SenderCustody.NoAccept(events[|old(events)|..]) {
          StaysEmpty(old(events), e1);
        }
      }
    }

    /** These events end with the queue taken for the last time. */
    ghost predicate Emptied(es: seq<Event>) {
      && Legal(start, es) && SenderCustody.Finishing(Exec(start, es)) && Exec(start, es).queue == []
      && (Exec(start, es).pc == Done ==> Exec(start, es).batch == [])
    }

    lemma TakenAll()
      requires Valid() && st.queue == [] && (st.pc == Draining || (st.pc == Done && st.batch == []))
      ensures Emptied(events)
    {
    }

    /** Nothing comes back into the queue when nothing is accepted after that. */
    lemma StaysEmpty(before: seq<Event>, upTo: seq<Event>)
      requires Valid() && before <= upTo <= events && SenderCustody.NoAccept(events[|before|..])
      requires Emptied(upTo)
      ensures st.queue == []
    {
      hide Exec, Lists, Carrying, Fields, Net, SenderCustody.Finishing;
      var more := events[|upTo|..];
      assert events == upTo + more;
      assert forall i :: 0 <= i < |more| ==> more[i] == events[|before|..][|upTo| - |before| + i];
      LegalSplit(start, upTo, more);
      SenderCustody.NothingComesBack(Exec(start, upTo), more);
    }

    // ----- run()

    lemma NoBatch()
      requires Valid() && st.pc !in {Holding, Walking, Returning, Draining}
      ensures st.batch == []
    {
      StateCoherent();
    }

    /**
     * A round of run() that serves the queue: what is sent, n payloads, is the longest prefix of what
     * was popped that is delivered; that is the queue as it was, if there was one.
     */
    method ServeQueue(signals: nat) returns (error: bool, ghost popped: seq<Payload>, ghost n: nat)
      requires Valid() && st.pc == Waiting && mine == [] && !st.error && world.looks == signals + 1
      modifies Repr()
      ensures Valid() && fresh(pool - old(pool)) && old(pool) <= pool && SameRound(old(world), world)
      ensures st.pc == LoopEnd && mine == [] && error == st.error
      ensures n <= |popped| && st.sent == old(st.sent) + popped[..n] && (error <==> n < |popped|)
      ensures old(st.queue) != [] ==> popped == old(st.queue)
      ensures old(events) <= events
    {
      hide Valid, Spooling;
      NoBatch();
      var first, last, count := PopBatch(signals);
      popped, n, error := st.batch, 0, false;
      Frames();
      Meanwhile();
      if count > 0 {
        error, n := ServeBatch(first, last);
      } else {
        NoBatch();
        CloseIdle();
      }
    }

    /** A batch has been popped. */
    method ServeBatch(first: Buffer, last: Buffer) returns (error: bool, ghost n: nat)
      requires Valid() && st.pc == Holding && |mine| == |st.batch| && InHand(first, last) && !st.error
      modifies Repr()
      ensures Valid() && fresh(pool - old(pool)) && old(pool) <= pool && world == old(world).(script := world.script)
      ensures st.pc == LoopEnd && mine == [] && error == st.error
      ensures n <= |old(st.batch)| && st.sent == old(st.sent) + old(st.batch)[..n]
      ensures if error then n < |old(st.batch)| && old(st.batch)[n..] <= st.queue else n == |old(st.batch)|
      ensures var x := AfterConnect(old(world).script, old(st.connected));
              if CanConnect(old(world).script, old(st.connected)) then
                && AllDelivered(x, old(st.batch)[..n])
                && (error ==> !Delivers(AfterAll(x, old(st.batch)[..n]), old(st.batch)[n]))
              else n == 0
      ensures old(events) <= events
    {
      hide Valid, InHand, AllDelivered, AfterAll, Delivers, CanConnect, AfterConnect;
      HandsFull();
      n := 0;
      var ok := ConnectForBatch();
      if ok {
        var sent;
        sent, n := SendBatch(first, last);
        error := !sent;
      } else {
        GiveBack(first, last);
        error := true;
      }
    }

    lemma HandsFull()
      requires Valid() && st.pc == Holding
      ensures st.batch != []
    {
      StateCoherent();
    }

    /**
     * The rest of a round, past the gate.  From the queue, a prefix of what was popped is sent, all of
     * it unless in error; from the directory, what was found under the round's entries, under all of
     * them unless in error.
     */
    method Serve(round: Round) returns (error: bool, ghost popped: seq<Payload>, ghost found: seq<Option<Payload>>)
      requires Valid() && st.pc == Dispatch && mine == [] && !st.error
      requires world.round == round && world.looks == round.signals + 1 && world.at == 0
      modifies Repr()
      ensures Valid() && fresh(pool - old(pool)) && old(pool) <= pool && SameRound(old(world), world)
      ensures st.pc == LoopEnd && mine == [] && error == st.error
      ensures old(mode) == SendingQueuedBuffers ==>
                exists n: nat :: n <= |popped| && st.sent == old(st.sent) + popped[..n] && (error <==> n < |popped|)
      ensures old(mode) == SendingFiles ==>
                && |found| <= |round.entries| && (error || |found| == |round.entries|)
                && st.sent == old(st.sent) + ToSend(round.entries, found)
      ensures old(events) <= events
    {
      hide Valid, Spooling, Scanned, ToSend, AllDelivered, AfterAll, Delivers, CanConnect, AfterConnect, Undelivered;
      SharedFields();
      NoBatch();
      popped, found := [], [];
      var queue := mode == SendingQueuedBuffers;
      Choose();
      Meanwhile();
      if queue {
        ghost var n;
        error, popped, n := ServeQueue(round.signals);
      } else {
        NoBatch();
        ghost var v := Now();
        var ok;
        ok, found := SendFiles(round.dir, round.entries);
        ScannedSent(v, Now(), round.entries, found);
        error := !ok;
      }
    }

    /** Looks at _M_state. */
    method Choose()
      requires Valid() && mine == [] && st.batch == [] && st.pc == Dispatch
      modifies this`st, this`events, this`world
      ensures Valid() && st.pc == (if mode == SendingQueuedBuffers then Waiting else Opening)
      ensures st.sent == old(st.sent) && st.batch == [] && st.error == old(st.error) && world == old(world)
      ensures events == old(events) + [Event.Choose]
    {
      hide Lists, Carrying, Net, History, Apply, Enabled, Reaches, Delivers, Cut;
      AfterSimple(st, Event.Choose);
      EmitSimple(Event.Choose);
    }

    /**
     * One round of run().  If nobody interferes, what it comes to is settled by the environment, as
     * RoundAlone says.
     */
    method OneRound(round: Round, error: bool) returns (error': bool)
      requires Valid() && st.pc == Top && mine == [] && error == st.error
      requires world.rounds != [] && world.rounds[0] == round
      modifies Repr()
      ensures Valid() && fresh(pool - old(pool)) && old(pool) <= pool
      ensures st.pc == LoopEnd && mine == [] && error' == st.error && old(events) <= events
      ensures world.rounds == old(world).rounds[1..] && world.turns == old(world).turns
      ensures world.stamp == old(world).stamp
      ensures Quiet(old(events), events) ==> RoundAlone(old(world), old(st), st)
    {
      hide Valid, Spooling, Scanned, RoundAlone, Quiet, AllDelivered, Delivers, CanConnect, AfterConnect, Known, ToSend;
      ghost var es, s, w := events, st, world;
      KnowsHistory();
      NoBatch();
      ReadTheClock(round);
      error' := GateAndServe(round, error);
      if Quiet(es, events) {
        WasAlone(es, s, w);
      }
    }

    /** A round after its read of the clock. */
    method GateAndServe(round: Round, error: bool) returns (error': bool)
      requires Valid() && st.pc == Gate && mine == [] && error == st.error && st.batch == []
      requires world.round == round && world.looks == round.signals + 1 && world.at == 0
      modifies Repr()
      ensures Valid() && fresh(pool - old(pool)) && old(pool) <= pool && SameRound(old(world), world)
      ensures st.pc == LoopEnd && mine == [] && error' == st.error && old(events) <= events
    {
      hide Valid, AllDelivered, Delivers, CanConnect, AfterConnect, ToSend;
      Meanwhile();
      var go := PassTheGate(error);
      error' := true;
      if go {
        Meanwhile();
        ghost var popped, found;
        error', popped, found := Serve(round);
      }
    }

    /** A round without other threads is one that SenderRounds.LoneRound is about. */
    lemma WasAlone(es: seq<Event>, s: State, w: World)
      requires Valid() && es <= events && Known(es, s, w) && Quiet(es, events)
      requires s.pc == Top && w.rounds != [] && st.pc == LoopEnd && world.turns == w.turns
      ensures RoundAlone(w, s, st)
    {
      hide Lists, Carrying, Fields, Net, Exec, WorldAfter, Coherent, RoundAlone;
      var fs := events[|es|..];
      assert events == es + fs;
      FollowsSplit(begin, start, es, fs);
      AlwaysCoherent(start, es);
      NoTurn(w, s, fs);
      assert forall i :: 0 <= i < |fs| ==> fs[i] == events[|es| + i];
      LoneRound(w, s, fs);
    }

    /** Once, after the events es, the state was s and the world w. */
    ghost predicate Known(es: seq<Event>, s: State, w: World) {
      && Initial(start) && Legal(start, es) && Follows(begin, start, es)
      && Exec(start, es) == s && WorldAfter(begin, start, es) == w
    }

    lemma KnowsHistory()
      requires Valid()
      ensures Known(events, st, world)
    {
    }

    /** Whatever is known of all runs is known of this one. */
    ghost predicate Accounted()
      reads this`events, this`st
    {
      && SenderCustody.Contents(start.disk) + multiset(st.accepted) == SenderCustody.Custody(st)
      && Subsequence(SenderOrder.Line(st), st.accepted)
      && (start.disk == map[] ==> (SenderOrder.Line(st) == st.accepted <==> SenderOrder.AllInLine(st)))
      && SenderWire.WireInvariant(st)
      && (st.batch == [] && st.queue == [] && (forall i :: 0 <= i < |st.producers| ==> !st.producers[i].Saving?) ==>
            SenderCustody.Contents(start.disk) + multiset(st.accepted)
            == multiset(st.sent) + SenderCustody.Contents(st.disk) + multiset(st.lost))
    }

    lemma Accounting()
      requires Valid()
      ensures Accounted()
    {
      hide Lists, Carrying, Fields, Net, Follows, WorldAfter;
      SenderCustody.Conservation(start, events);
      SenderOrder.NeverReordered(start, events);
      SenderWire.StreamShape(start, events);
      if start.disk == map[] {
        SenderOrder.FifoIffAllInLine(start, events);
      }
      if forall i :: 0 <= i < |st.producers| ==> !st.producers[i].Saving? {
        SenderCustody.HeldByNobody(st.producers);
      }
    }

    /**
     * What the rounds say about the run: a clock that is not set back spaces the attempts, all of
     * which were made; and when all files listed map, every payload is still somewhere.
     */
    lemma WorldTells(rounds: seq<Round>)
      requires Valid() && begin.rounds == rounds && begin.round.entries == [] && world.rounds == []
      ensures SenderTiming.Clocks(events) == Nows(rounds)
      ensures SenderTiming.Forward(Nows(rounds)) ==> SenderTiming.Spaced(st.attempts)
      ensures (forall r :: r in rounds ==> SenderCustody.AllMap(r.entries)) ==> SenderCustody.Conserved(start, st)
      ensures |st.attempts| == link.Dials() && Streams(st.conns) == link.Streams()
    {
      hide Lists, Carrying, Fields, SenderCustody.Conserved;
      ClockReads(begin, start, events);
      if SenderTiming.Forward(Nows(rounds)) {
        SenderTiming.ReconnectSpacing(start, events);
      }
      if forall r :: r in rounds ==> SenderCustody.AllMap(r.entries) {
        ScansMap(begin, start, events);
        SenderCustody.AllMapMeetsNone(start, events);
        SenderCustody.ConservedIffFilesMap(start, events);
      }
    }

    /**
     * run(): stop() makes it leave the loop after the last of the rounds.  All the while other
     * threads use the queue and the allocator; still every buffer stays in one place, the sender
     * ends with empty hands, and what it did is, by Valid, the run of SenderProtocol in which the
     * sender thread always does what SenderWorld says for these rounds and answers; with all that
     * this implies for payloads, order, connections and attempts.  If nothing is accepted after the
     * loop, which ended at stopped, the queue ends empty.
     */
    method Run(rounds: seq<Round>, stamp: string) returns (ghost stopped: nat)
      requires Valid() && events == [] && mine == [] && rounds != []
      requires world.rounds == rounds && world.round.entries == [] && world.stamp == stamp
      modifies Repr()
      ensures Valid() && fresh(pool - old(pool)) && st.pc == Done && mine == [] && st.batch == []
      ensures Legal(start, events) && Follows(begin, start, events) && st == Exec(start, events)
      ensures Accounted() && SenderTiming.Clocks(events) == Nows(rounds)
      ensures SenderTiming.Forward(Nows(rounds)) ==> SenderTiming.Spaced(st.attempts)
      ensures (forall r :: r in rounds ==> SenderCustody.AllMap(r.entries)) ==> SenderCustody.Conserved(start, st)
      ensures |st.attempts| == link.Dials() && Streams(st.conns) == link.Streams()
      ensures stopped <= |events| && (SenderCustody.NoAccept(events[stopped..]) ==> st.queue == [])
    {
      hide Valid, Accounted, Nows, Follows, Exec, Legal, SenderTiming.Spaced, SenderTiming.Forward;
      hide SenderCustody.NoAccept, SenderCustody.Conserved, SenderCustody.AllMap;
      AtTheTop();
      AllRounds(rounds);
      stopped := Finish(stamp);
      Accounting();
      WorldTells(rounds);
      KnowsHistory();
    }

    /** The loop of run(). */
    method AllRounds(rounds: seq<Round>)
      requires Valid() && st.pc == Top && !st.error && mine == [] && rounds != [] && world.rounds == rounds
      modifies Repr()
      ensures Valid() && fresh(pool - old(pool)) && old(pool) <= pool && mine == [] && st.pc == LoopEnd
      ensures world.rounds == [] && world.stamp == old(world).stamp
    {
      hide Valid, RoundAlone;
      var error := false;
      for i := 0 to |rounds|
        invariant Valid() && fresh(pool - old(pool)) && old(pool) <= pool && mine == []
        invariant error == st.error && st.pc == if i == 0 then Top else LoopEnd
        invariant world.rounds == rounds[i..] && world.stamp == old(world).stamp
      {
        if i > 0 {
          GoRound(true);
        }
        Meanwhile();
        error := OneRound(rounds[i], error);
      }
    }

    /** The loop's condition, after a while. */
    method GoRound(running: bool)
      requires Valid() && st.pc == LoopEnd && mine == [] && (running <==> world.rounds != [])
      modifies Repr()
      ensures Valid() && fresh(pool - old(pool)) && old(pool) <= pool && mine == []
      ensures st.pc == (if running then Top else Stopping) && st.error == old(st.error) && st.batch == []
      ensures world == old(world).(turns := old(world).turns + 1)
    {
      hide Valid, Spooling;
      Meanwhile();
      NoBatch();
      GoOn(running);
    }

    /** stop() has been called: what is still queued is saved. */
    method Finish(stamp: string) returns (ghost stopped: nat)
      requires Valid() && st.pc == LoopEnd && mine == [] && world.rounds == [] && world.stamp == stamp
      modifies Repr()
      ensures Valid() && fresh(pool - old(pool)) && old(pool) <= pool
      ensures st.pc == Done && mine == [] && st.batch == [] && world.rounds == []
      ensures stopped <= |events| && (SenderCustody.NoAccept(events[stopped..]) ==> st.queue == [])
    {
      hide Valid, Spooling, Quiet, SenderCustody.NoAccept;
      GoRound(false);
      Meanwhile();
      NoBatch();
      stopped := |events|;
      SaveBuffers(stamp);
    }

    lemma AtTheTop()
      requires Valid() && events == []
      ensures st.pc == Top && !st.error && world == begin
    {
    }
  }

  lemma ScannedSent(v: View, w: View, entries: seq<Entry>, found: seq<Option<Payload>>)
    requires |found| <= |entries| && Scanned(v, w, entries, found)
    ensures w.sent == v.sent + ToSend(entries, found)
  {
  }

  lemma NothingScanned(v: View, entries: seq<Entry>)
    ensures Scanned(v, v, entries, [])
  {
  }

  lemma StillThere(v: View, w: View)
    requires v.sent == w.sent && v.lost == w.lost && v.events <= w.events && v.disk == w.disk
    ensures Waited(v, w)
  {
  }
}
