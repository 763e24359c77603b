/** What one round of run() comes to. */
module SenderRounds {
  import opened Bytes
  import opened SenderProtocol
  import opened SenderLink
  import opened SenderWorld
  import SenderCustody

  // ----- Among other threads

  /** How often the queue has been found empty in the present round. */
  function Empties(es: seq<Event>): nat {
    if es == [] || es[|es| - 1].ReadClock? then 0
    else Empties(es[..|es| - 1]) + if es[|es| - 1].PopEmpty? then 1 else 0
  }

  /** The names that the present scan has dealt with. */
  function Looked(es: seq<Event>): seq<string> {
    if es == [] || es[|es| - 1].OpenDirectory? then []
    else
      var e := es[|es| - 1];
      Looked(es[..|es| - 1]) + LookedAt(e)
  }

  function LookedAt(e: Event): seq<string> {
    if e.ScanSent? || e.ScanFailed? || e.ScanSkipped? || e.ScanAbsent? then [e.name] else []
  }

  function Listed(entries: seq<Entry>, n: nat): seq<string>
    requires n <= |entries|
  {
    seq(n, i requires 0 <= i < n => entries[i].name)
  }

  /** Where a round stands with its looks at the queue and with its entries. */
  predicate OnTheWay(w: World, s: State, empties: nat, looked: seq<string>) {
    && (s.pc in {Gate, Dispatch} ==> empties == 0)
    && (s.pc in {Gate, Dispatch, Waiting} ==> w.looks + empties == w.round.signals + 1)
    && (s.pc in {Gate, Dispatch, Opening} ==> w.at == 0)
    && (s.pc == Scanning ==> w.at <= |w.round.entries| && looked == Listed(w.round.entries, w.at))
  }

  lemma StepOnTheWay(w: World, s: State, e: Event, empties: nat, looked: seq<string>)
    requires OnTheWay(w, s, empties, looked) && Enabled(s, e) && !e.FromProducer() && e == Next(w, s)
    requires s.pc == Top ==> w.rounds != []
    ensures OnTheWay(After(w, s, e), Apply(s, e),
                     if e.ReadClock? then 0 else empties + if e.PopEmpty? then 1 else 0,
                     if e.OpenDirectory? then [] else looked + LookedAt(e))
  {
  }

  lemma ProducerOnTheWay(w: World, s: State, e: Event, empties: nat, looked: seq<string>)
    requires OnTheWay(w, s, empties, looked) && Enabled(s, e) && e.FromProducer()
    ensures OnTheWay(After(w, s, e), Apply(s, e), empties, looked)
  {
    ProducersAskNothing(w, s, e);
  }

  lemma {:induction false} AlwaysOnTheWay(w: World, s: State, es: seq<Event>)
    requires s.pc == Top && w.rounds != [] && Legal(s, es) && Follows(w, s, es)
    ensures OnTheWay(WorldAfter(w, s, es), Exec(s, es), Empties(es), Looked(es))
    decreases |es|
  {
    hide Apply, Enabled, Next, After, OnTheWay;
    if es == [] {
      AtFirst(w, s);
    } else {
      var before, e := es[..|es| - 1], es[|es| - 1];
      AlwaysOnTheWay(w, s, before);
      ClockReads(w, s, before);
      if e.FromProducer() {
        ProducerOnTheWay(WorldAfter(w, s, before), Exec(s, before), e, Empties(before), Looked(before));
        assert Empties(es) == Empties(before) && Looked(es) == Looked(before);
      } else {
        StepOnTheWay(WorldAfter(w, s, before), Exec(s, before), e, Empties(before), Looked(before));
      }
    }
  }

  lemma AtFirst(w: World, s: State)
    requires s.pc == Top
    ensures OnTheWay(w, s, 0, [])
  {
  }

  lemma AtTheEnd(w: World, s: State, e: Event, empties: nat, looked: seq<string>)
    requires OnTheWay(w, s, empties, looked) && Enabled(s, e) && e == Next(w, s)
    ensures e.PopTimeout? ==> empties == w.round.signals + 1
    ensures e.ScanEnd? ==> looked == Listed(w.round.entries, |w.round.entries|)
  {
  }

  /**
   * A timeout is recorded only after the queue was found empty in this round, once more than the
   * waits were signalled.
   */
  lemma {:induction false} TimeoutOnlyWhenEmpty(w: World, s: State, es: seq<Event>)
    requires s.pc == Top && w.rounds != [] && Legal(s, es + [PopTimeout]) && Follows(w, s, es + [PopTimeout])
    ensures Legal(s, es) && Empties(es) == WorldAfter(w, s, es).round.signals + 1
  {
    hide Apply, Enabled, Next, After, OnTheWay;
    assert (es + [PopTimeout])[..|es|] == es;
    AlwaysOnTheWay(w, s, es);
    AtTheEnd(WorldAfter(w, s, es), Exec(s, es), PopTimeout, Empties(es), Looked(es));
  }

  /** A scan comes to its end only after every entry has been dealt with, in order. */
  lemma {:induction false} ScanEndSawAll(w: World, s: State, es: seq<Event>)
    requires s.pc == Top && w.rounds != [] && Legal(s, es + [ScanEnd]) && Follows(w, s, es + [ScanEnd])
    ensures Legal(s, es)
    ensures var entries := WorldAfter(w, s, es).round.entries; Looked(es) == Listed(entries, |entries|)
  {
    hide Apply, Enabled, Next, After, OnTheWay;
    assert (es + [ScanEnd])[..|es|] == es;
    AlwaysOnTheWay(w, s, es);
    AtTheEnd(WorldAfter(w, s, es), Exec(s, es), ScanEnd, Empties(es), Looked(es));
  }

  /** A batch that has been popped is under way, or its round is over. */
  ghost predicate BatchUnderWay(sent: seq<Payload>, q: seq<Payload>, t: State, n: nat) {
    && n <= |q| && t.sent == sent + q[..n]
    && (t.pc in {Holding, Walking, Returning} ==> t.batch == q[n..] && n < |q| && !t.error)
    && (t.pc == Holding ==> n == 0)
    && (t.pc == LoopEnd ==> t.error || n == |q|)
    && t.pc in {Holding, Walking, Returning, LoopEnd}
  }

  lemma StepBatch(sent: seq<Payload>, q: seq<Payload>, s: State, e: Event, n: nat) returns (m: nat)
    requires BatchUnderWay(sent, q, s, n) && Enabled(s, e) && !e.Loop?
    ensures BatchUnderWay(sent, q, Apply(s, e), m)
  {
    m := n;
    if e.SendNext? && e.ok {
      m := n + 1;
      assert q[..m] == q[..n] + [q[n]] && q[n..][1..] == q[m..];
    }
  }

  /**
   * However the round goes on: of what was queued at the pop a prefix is sent, in order; all of it
   * unless the round ends in error.
   */
  lemma {:induction false} BatchSent(s: State, es: seq<Event>, fs: seq<Event>) returns (n: nat)
    requires Initial(s) && Legal(s, es + [TakeBatch] + fs) && forall i :: 0 <= i < |fs| ==> !fs[i].Loop?
    ensures Legal(s, es)
    ensures BatchUnderWay(Exec(s, es).sent, Exec(s, es).queue, Exec(s, es + [TakeBatch] + fs), n)
    decreases |fs|
  {
    hide Apply, Enabled, Initial;
    LegalSplit(s, es + [TakeBatch], fs);
    LegalSplit(s, es, [TakeBatch]);
    if fs == [] {
      assert es + [TakeBatch] + fs == es + [TakeBatch] && (es + [TakeBatch])[..|es|] == es;
      AlwaysCoherent(s, es);
      n := Popped(Exec(s, es));
    } else {
      var gs := fs[..|fs| - 1];
      assert (es + [TakeBatch] + fs)[..|es| + |fs|] == es + [TakeBatch] + gs;
      var m := BatchSent(s, es, gs);
      n := StepBatch(Exec(s, es).sent, Exec(s, es).queue, Exec(s, es + [TakeBatch] + gs), fs[|fs| - 1], m);
    }
  }

  lemma Popped(s: State) returns (n: nat)
    requires Coherent(s) && Enabled(s, TakeBatch)
    ensures n == 0 && BatchUnderWay(s.sent, s.queue, Apply(s, TakeBatch), n)
  {
    n := 0;
  }

  /** All files that the rounds list can be mapped. */
  predicate AllFilesMap(w: World) {
    SenderCustody.AllMap(w.round.entries) && forall r :: r in w.rounds ==> SenderCustody.AllMap(r.entries)
  }

  lemma StepMaps(w: World, s: State, e: Event)
    requires AllFilesMap(w) && Enabled(s, e) && (e.FromProducer() || e == Next(w, s))
    ensures AllFilesMap(After(w, s, e)) && SenderCustody.AllMap(SenderCustody.Reached(e))
  {
  }

  lemma {:induction false} ScansMap(w: World, s: State, es: seq<Event>)
    requires AllFilesMap(w) && Legal(s, es) && Follows(w, s, es)
    ensures AllFilesMap(WorldAfter(w, s, es)) && SenderCustody.AllMap(SenderCustody.Scans(es))
    decreases |es|
  {
    hide Apply, Enabled, Next, After, AllFilesMap;
    if es != [] {
      var before, e := es[..|es| - 1], es[|es| - 1];
      ScansMap(w, s, before);
      StepMaps(WorldAfter(w, s, before), Exec(s, before), e);
    }
  }

  // ----- What scans find

  function Names(entries: seq<Entry>): set<string> {
    set e | e in entries :: e.name
  }

  /** A file goes out if it can be mapped, which an empty one cannot. */
  predicate Goes(e: Entry, f: Option<Payload>) {
    f.Some? && e.maps && f.value != []
  }

  /** What is to be sent, and what is lost, for entries under which that is found. */
  function ToSend(entries: seq<Entry>, found: seq<Option<Payload>>): seq<Payload>
    requires |found| <= |entries|
  {
    if found == [] then []
    else
      var n := |found| - 1;
      ToSend(entries, found[..n]) + if Goes(entries[n], found[n]) then [found[n].value] else []
  }

  function ToLose(entries: seq<Entry>, found: seq<Option<Payload>>): seq<Payload>
    requires |found| <= |entries|
  {
    if found == [] then []
    else
      var n := |found| - 1;
      ToLose(entries, found[..n]) + if found[n].Some? && !Goes(entries[n], found[n]) then [found[n].value] else []
  }

  /** Each file that was found and can be mapped is among what is to be sent. */
  lemma {:induction false} FoundIsSent(entries: seq<Entry>, found: seq<Option<Payload>>, i: nat)
    requires i < |found| <= |entries|
    ensures Goes(entries[i], found[i]) ==> found[i].value in ToSend(entries, found)
    decreases |found|
  {
    if i < |found| - 1 {
      FoundIsSent(entries, found[..|found| - 1], i);
    }
  }

  lemma FoundMore(entries: seq<Entry>, found: seq<Option<Payload>>, f: Option<Payload>)
    requires |found| < |entries|
    ensures var e := entries[|found|];
      && ToSend(entries, found + [f]) == ToSend(entries, found) + (if Goes(e, f) then [f.value] else [])
      && (!Goes(e, f) ==> ToSend(entries, found + [f]) == ToSend(entries, found))
      && ToLose(entries, found + [f]) == ToLose(entries, found) + (if f.Some? && !Goes(e, f) then [f.value] else [])
  {
    assert (found + [f])[..|found|] == found;
  }

  lemma NamesMore(entries: seq<Entry>, n: nat)
    requires n < |entries|
    ensures Names(entries[..n + 1]) == Names(entries[..n]) + {entries[n].name}
  {
    assert entries[..n + 1] == entries[..n] + [entries[n]];
    assert forall e :: e in entries[..n + 1] <==> e in entries[..n] || e == entries[n];
  }

  // ----- Alone

  /** What is under a name for a scan that has removed some names already. */
  function Under(disk: map<string, Payload>, removed: set<string>, name: string): Option<Payload> {
    if name in disk && name !in removed then Some(disk[name]) else None
  }

  /** What a scan that nobody interferes with finds under the first n entries. */
  function FoundOn(disk: map<string, Payload>, entries: seq<Entry>, n: nat): (found: seq<Option<Payload>>)
    requires n <= |entries|
    ensures |found| == n
  {
    seq(n, i requires 0 <= i < n => Under(disk, Names(entries[..i]), entries[i].name))
  }

  /**
   * From s to t, n of the queued payloads are sent: up to the first one that is not delivered, which
   * with those after it is queued again.
   */
  ghost predicate BatchAlone(x: Script, s: State, t: State, n: nat) {
    && n <= |s.queue| && AllDelivered(x, s.queue[..n])
    && (n < |s.queue| ==> !Delivers(AfterAll(x, s.queue[..n]), s.queue[n]))
    && t.sent == s.sent + s.queue[..n] && t.queue == s.queue[n..] && (t.error <==> n < |s.queue|)
    && t.disk == s.disk && t.lost == s.lost && t.mode == s.mode
  }

  /**
   * From s to t, n of the entries are dealt with: up to the first file that is not delivered.  What
   * was found under them is sent or lost, and is gone.
   */
  ghost predicate FilesAlone(x: Script, entries: seq<Entry>, s: State, t: State, n: nat) {
    && n <= |entries|
    && var found := FoundOn(s.disk, entries, n);
    && AllDelivered(x, ToSend(entries, found))
    && t.sent == s.sent + ToSend(entries, found) && t.lost == s.lost + ToLose(entries, found)
    && t.disk == s.disk - Names(entries[..n]) && t.queue == s.queue
    && (t.error <==> n < |entries|)
    && (if n < |entries| then
          var f := Under(s.disk, Names(entries[..n]), entries[n].name);
          Goes(entries[n], f) && !Delivers(AfterAll(x, ToSend(entries, found)), f.value) && t.mode == s.mode
        else t.mode == SendingQueuedBuffers)
  }

  /** Nothing is moved. */
  predicate NothingMoved(s: State, t: State) {
    t.sent == s.sent && t.lost == s.lost && t.queue == s.queue && t.disk == s.disk && t.mode == s.mode
  }

  /** A connection that is there, or is made by the next attempt. */
  ghost predicate CanConnect(x: Script, connected: bool) {
    connected || Reaches(x)
  }

  function AfterConnect(x: Script, connected: bool): Script {
    if connected then x else AfterDial(x)
  }

  /** Past the gate, with x to be answered. */
  ghost predicate ServedAlone(x: Script, connected: bool, round: Round, s: State, t: State) {
    if s.mode == SendingQueuedBuffers && s.queue == [] then NothingMoved(s, t) && !t.error
    else if !CanConnect(x, connected) || (s.mode == SendingFiles && !round.dir) then NothingMoved(s, t) && t.error
    else if s.mode == SendingQueuedBuffers then exists n :: BatchAlone(AfterConnect(x, connected), s, t, n)
    else exists n :: FilesAlone(AfterConnect(x, connected), round.entries, s, t, n)
  }

  /** A whole round. */
  ghost predicate RoundAlone(w: World, s: State, t: State)
    requires w.rounds != []
  {
    var round := w.rounds[0];
    if !s.error then ServedAlone(w.script, s.connected, round, s, t)
    else if round.now - s.lastOp >= RECONNECTION_TIME && CanConnect(w.script, s.connected) then
      ServedAlone(AfterConnect(w.script, s.connected), true, round, s, t)
    else NothingMoved(s, t) && t.error
  }

  /** Within one round, the rest of it, fs, is what the sender thread does alone. */
  ghost predicate Lone(w: World, s: State, fs: seq<Event>) {
    && Coherent(s) && Legal(s, fs) && Follows(w, s, fs) && Exec(s, fs).pc == LoopEnd
    && forall i :: 0 <= i < |fs| ==> !fs[i].FromProducer() && !fs[i].Loop?
  }

  /** The first event of such a rest is what comes next. */
  lemma LoneFirst(w: World, s: State, fs: seq<Event>)
    requires Lone(w, s, fs) && fs != []
    ensures fs[0] == Next(w, s) && !fs[0].FromProducer() && !fs[0].Loop? && Enabled(s, fs[0])
    ensures Lone(After(w, s, fs[0]), Apply(s, fs[0]), fs[1..])
    ensures Exec(s, fs) == Exec(Apply(s, fs[0]), fs[1..])
  {
    hide Next, Apply, After, Enabled, Coherent;
    assert fs == [fs[0]] + fs[1..];
    assert [fs[0]][..0] == [];
    FollowsSplit(w, s, [fs[0]], fs[1..]);
    StepCoherent(s, fs[0]);
  }

  lemma LoneStep(w: World, s: State, fs: seq<Event>)
    requires Lone(w, s, fs) && s.pc != LoopEnd
    ensures fs != [] && fs[0] == Next(w, s) && !fs[0].FromProducer() && Enabled(s, fs[0])
    ensures Lone(After(w, s, fs[0]), Apply(s, fs[0]), fs[1..])
    ensures Exec(s, fs) == Exec(Apply(s, fs[0]), fs[1..])
  {
    hide Next, Apply, After, Enabled, Coherent;
    if fs != [] {
      LoneFirst(w, s, fs);
    }
  }

  lemma LoneCoherent(w: World, s: State, fs: seq<Event>)
    requires Lone(w, s, fs)
    ensures Coherent(s)
  {
  }

  lemma LoneEnd(w: World, s: State, fs: seq<Event>)
    requires Lone(w, s, fs) && s.pc == LoopEnd
    ensures fs == [] && Exec(s, fs) == s
  {
    hide Next, Apply, After, Enabled, Coherent;
    if fs != [] {
      LoneFirst(w, s, fs);
      LoopIsNext(w, s);
    }
  }

  lemma LoopIsNext(w: World, s: State)
    requires s.pc == LoopEnd
    ensures Next(w, s).Loop?
  {
  }

  /** The walk over a batch, n of which are sent. */
  ghost predicate Walks(w: World, s: State, base: State, x: Script, n: nat) {
    var q := base.queue;
    && n < |q| && s.pc == Walking && s.batch == q[n..] && s.queue == []
    && AllDelivered(x, q[..n]) && w.script == AfterAll(x, q[..n])
    && s.sent == base.sent + q[..n] && s.disk == base.disk && s.lost == base.lost && s.mode == base.mode
    && !s.error
  }

  lemma WalkStep(w: World, s: State, base: State, x: Script, n: nat)
    requires Walks(w, s, base, x, n)
    ensures var e := Next(w, s);
      && Enabled(s, e)
      && (e.ok ==> if n + 1 < |base.queue| then Walks(After(w, s, e), Apply(s, e), base, x, n + 1)
                   else Apply(s, e).pc == LoopEnd && BatchAlone(x, base, Apply(s, e), n + 1))
      && (!e.ok ==>
            var r := Apply(s, e);
            && r.pc == Returning && Enabled(r, PushFront) && Next(After(w, s, e), r) == PushFront
            && Apply(r, PushFront).pc == LoopEnd && BatchAlone(x, base, Apply(r, PushFront), n))
  {
    hide AllDelivered, AfterAll, Delivers, AfterDelivery, Cut;
    var q := base.queue;
    CutShort(w.script, q[n]);
    DeliveredMore(x, q[..n], q[n]);
    assert q[..n + 1] == q[..n] + [q[n]] && q[n..][1..] == q[n + 1..];
    assert n + 1 == |q| ==> q[..n + 1] == q && q[n + 1..] == [];
  }

  lemma {:induction false} WalkAlone(w: World, s: State, fs: seq<Event>, base: State, x: Script, n: nat)
    returns (m: nat)
    requires Lone(w, s, fs) && Walks(w, s, base, x, n)
    ensures BatchAlone(x, base, Exec(s, fs), m)
    decreases |fs|
  {
    hide Lone, Walks, BatchAlone, Apply, After, Enabled, Exec, Next;
    AtWalk(w, s, base, x, n);
    LoneStep(w, s, fs);
    WalkStep(w, s, base, x, n);
    var e := fs[0];
    var r, v, gs := Apply(s, e), After(w, s, e), fs[1..];
    if e.ok && n + 1 < |base.queue| {
      m := WalkAlone(v, r, gs, base, x, n + 1);
    } else if e.ok {
      LoneEnd(v, r, gs);
      m := n + 1;
    } else {
      LoneStep(v, r, gs);
      LoneEnd(After(v, r, PushFront), Apply(r, PushFront), gs[1..]);
      m := n;
    }
  }

  lemma AtWalk(w: World, s: State, base: State, x: Script, n: nat)
    requires Walks(w, s, base, x, n)
    ensures s.pc == Walking && Next(w, s).SendNext?
  {
  }

  /** A scan that has dealt with n entries. */
  ghost predicate Scans(w: World, s: State, base: State, x: Script, entries: seq<Entry>, n: nat) {
    && s.pc == Scanning && n <= |entries| && w.at == n && w.round.entries == entries
    && var found := FoundOn(base.disk, entries, n);
    && AllDelivered(x, ToSend(entries, found)) && w.script == AfterAll(x, ToSend(entries, found))
    && s.sent == base.sent + ToSend(entries, found) && s.lost == base.lost + ToLose(entries, found)
    && s.disk == base.disk - Names(entries[..n]) && s.queue == base.queue && s.mode == base.mode && !s.error
  }

  lemma FoundOnMore(disk: map<string, Payload>, entries: seq<Entry>, n: nat)
    requires n < |entries|
    ensures var f := Under(disk, Names(entries[..n]), entries[n].name);
            FoundOn(disk, entries, n + 1) == FoundOn(disk, entries, n) + [f]
  {
  }

  lemma ScanStep(w: World, s: State, base: State, x: Script, entries: seq<Entry>, n: nat)
    requires Scans(w, s, base, x, entries, n) && n < |entries|
    ensures var e := Next(w, s);
      && Enabled(s, e)
      && (if e.ScanFailed? then Apply(s, e).pc == LoopEnd && FilesAlone(x, entries, base, Apply(s, e), n)
          else Scans(After(w, s, e), Apply(s, e), base, x, entries, n + 1))
  {
    hide AllDelivered, AfterAll, Delivers, AfterDelivery, Cut, ToSend, ToLose, FoundOn, Names;
    var found := FoundOn(base.disk, entries, n);
    var f := Under(base.disk, Names(entries[..n]), entries[n].name);
    FoundOnMore(base.disk, entries, n);
    FoundMore(entries, found, f);
    NamesMore(entries, n);
    if f.Some? {
      CutShort(w.script, f.value);
      DeliveredMore(x, ToSend(entries, found), f.value);
    }
    assert base.disk - Names(entries[..n + 1]) == s.disk - {entries[n].name};
    assert f.None? ==> s.disk - {entries[n].name} == s.disk;
  }

  lemma ScanOver(w: World, s: State, base: State, x: Script, entries: seq<Entry>)
    requires Scans(w, s, base, x, entries, |entries|)
    ensures Next(w, s) == ScanEnd && Apply(s, ScanEnd).pc == LoopEnd
    ensures FilesAlone(x, entries, base, Apply(s, ScanEnd), |entries|)
  {
  }

  lemma AtScan(w: World, s: State, base: State, x: Script, entries: seq<Entry>, n: nat)
    requires Scans(w, s, base, x, entries, n)
    ensures s.pc == Scanning && n <= |entries|
  {
  }

  lemma {:induction false} ScanAlone(w: World, s: State, fs: seq<Event>,
                                     base: State, x: Script, entries: seq<Entry>, n: nat)
    returns (m: nat)
    requires Lone(w, s, fs) && Scans(w, s, base, x, entries, n)
    ensures FilesAlone(x, entries, base, Exec(s, fs), m)
    decreases |fs|
  {
    hide Lone, Scans, FilesAlone, Apply, After, Enabled, Exec, Next;
    AtScan(w, s, base, x, entries, n);
    LoneStep(w, s, fs);
    var r, v, gs := Apply(s, fs[0]), After(w, s, fs[0]), fs[1..];
    if n < |entries| {
      ScanStep(w, s, base, x, entries, n);
      if fs[0].ScanFailed? {
        LoneEnd(v, r, gs);
        m := n;
      } else {
        m := ScanAlone(v, r, gs, base, x, entries, n + 1);
      }
    } else {
      ScanOver(w, s, base, x, entries);
      LoneEnd(v, r, gs);
      m := n;
    }
  }

  /** Between base and s nothing has been moved, no error is pending, and x is to be answered. */
  predicate AsBefore(w: World, s: State, base: State, x: Script, connected: bool) {
    && NothingMoved(base, s) && s.batch == [] && !s.error && w.script == x && s.connected == connected
  }

  /** The queue is empty, looked at until the wait times out. */
  lemma {:induction false} WaitAlone(w: World, s: State, fs: seq<Event>, base: State, x: Script, c: bool)
    requires Lone(w, s, fs) && s.pc == Waiting && AsBefore(w, s, base, x, c) && base.queue == []
    ensures NothingMoved(base, Exec(s, fs)) && !Exec(s, fs).error
    decreases |fs|
  {
    hide Lone, Exec;
    LoneStep(w, s, fs);
    var r, v, gs := Apply(s, fs[0]), After(w, s, fs[0]), fs[1..];
    if fs[0].PopEmpty? {
      WaitAlone(v, r, gs, base, x, c);
    } else {
      LoneStep(v, r, gs);
      LoneEnd(After(v, r, gs[0]), Apply(r, gs[0]), gs[1..]);
    }
  }

  /** There is a queue: it is popped at once. */
  lemma PopAlone(w: World, s: State, fs: seq<Event>, base: State, x: Script, c: bool)
    requires Lone(w, s, fs) && s.pc == Waiting && AsBefore(w, s, base, x, c) && base.queue != [] && w.looks > 0
    ensures var t := Exec(s, fs);
            if CanConnect(x, c) then exists n :: BatchAlone(AfterConnect(x, c), base, t, n)
            else NothingMoved(base, t) && t.error
  {
    hide Lone, Exec, BatchAlone, Reaches, AfterDial, AllDelivered, AfterAll, Delivers, Cut;
    LoneStep(w, s, fs);
    var r, v, gs := Apply(s, fs[0]), After(w, s, fs[0]), fs[1..];
    LoneStep(v, r, gs);
    var q, u, hs := Apply(r, gs[0]), After(v, r, gs[0]), gs[1..];
    if q.pc == Walking {
      NothingDelivered(AfterConnect(x, c));
      assert base.queue[..0] == [] && base.queue[0..] == base.queue;
      assert Walks(u, q, base, AfterConnect(x, c), 0);
      var n := WalkAlone(u, q, hs, base, AfterConnect(x, c), 0);
    } else {
      LoneStep(u, q, hs);
      LoneEnd(After(u, q, hs[0]), Apply(q, hs[0]), hs[1..]);
    }
  }

  lemma NothingDelivered(x: Script)
    ensures AllDelivered(x, []) && AfterAll(x, []) == x
  {
  }

  /** The directory is to be scanned. */
  lemma OpenAlone(w: World, s: State, fs: seq<Event>, base: State, x: Script, c: bool)
    requires Lone(w, s, fs) && s.pc == Opening && AsBefore(w, s, base, x, c) && w.at == 0
    ensures var t := Exec(s, fs);
            if CanConnect(x, c) && w.round.dir then
              exists n :: FilesAlone(AfterConnect(x, c), w.round.entries, base, t, n)
            else NothingMoved(base, t) && t.error
  {
    hide Lone, Exec, FilesAlone, Reaches, AfterDial, AllDelivered, AfterAll, Delivers, Cut;
    LoneStep(w, s, fs);
    var r, v, gs := Apply(s, fs[0]), After(w, s, fs[0]), fs[1..];
    var entries := w.round.entries;
    if r.pc == Scanning {
      NothingDelivered(AfterConnect(x, c));
      assert FoundOn(base.disk, entries, 0) == [] && Names(entries[..0]) == {};
      assert base.disk - {} == base.disk;
      assert Scans(v, r, base, AfterConnect(x, c), entries, 0);
      var n := ScanAlone(v, r, gs, base, AfterConnect(x, c), entries, 0);
    } else {
      LoneEnd(v, r, gs);
    }
  }

  /** Past the gate. */
  lemma ServeAlone(w: World, s: State, fs: seq<Event>, base: State, x: Script, c: bool)
    requires Lone(w, s, fs) && s.pc == Dispatch && AsBefore(w, s, base, x, c) && w.at == 0 && w.looks > 0
    ensures ServedAlone(x, c, w.round, base, Exec(s, fs))
  {
    hide Lone, Exec, BatchAlone, FilesAlone, CanConnect, AfterConnect, Reaches, Delivers, Cut;
    LoneStep(w, s, fs);
    var r, v, gs := Apply(s, fs[0]), After(w, s, fs[0]), fs[1..];
    if base.mode == SendingFiles {
      OpenAlone(v, r, gs, base, x, c);
    } else if base.queue == [] {
      WaitAlone(v, r, gs, base, x, c);
    } else {
      PopAlone(v, r, gs, base, x, c);
    }
  }

  /**
   * A round that no other thread interferes with is settled by what the environment answers: whether
   * the gate is passed, what is served, how much of it is sent, and whether it ends in error.
   */
  lemma {:induction false} LoneRound(w: World, s: State, fs: seq<Event>)
    requires Lone(w, s, fs) && s.pc == Top && w.rounds != []
    ensures RoundAlone(w, s, Exec(s, fs))
  {
    hide Lone, Exec, ServedAlone, Reaches, Delivers, Cut;
    LoneCoherent(w, s, fs);
    LoneStep(w, s, fs);
    var r, v, gs := Apply(s, fs[0]), After(w, s, fs[0]), fs[1..];
    LoneStep(v, r, gs);
    var q, u, hs := Apply(r, gs[0]), After(v, r, gs[0]), gs[1..];
    if q.pc == LoopEnd {
      LoneEnd(u, q, hs);
    } else if s.error {
      ServeAlone(u, q, hs, s, AfterConnect(w.script, s.connected), true);
    } else {
      ServeAlone(u, q, hs, s, w.script, s.connected);
    }
  }

  /** A round is what happens between two looks at the loop's condition. */
  lemma {:induction false} NoTurn(w: World, s: State, fs: seq<Event>)
    requires Legal(s, fs)
    ensures WorldAfter(w, s, fs).turns >= w.turns
    ensures WorldAfter(w, s, fs).turns == w.turns ==> forall i :: 0 <= i < |fs| ==> !fs[i].Loop?
    decreases |fs|
  {
    hide Apply, Enabled, After;
    if fs != [] {
      var before, e := fs[..|fs| - 1], fs[|fs| - 1];
      NoTurn(w, s, before);
      StepTurns(WorldAfter(w, s, before), Exec(s, before), e);
      assert fs == before + [e];
    }
  }

  lemma StepTurns(w: World, s: State, e: Event)
    requires Enabled(s, e)
    ensures After(w, s, e).turns == w.turns + if e.Loop? then 1 else 0
  {
  }
}
