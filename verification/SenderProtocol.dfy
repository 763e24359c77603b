/**
 * The store-and-forward sender as a state machine: any number of producer threads, the one
 * sender thread, and the environment (network, clock, directory).  One event is one action that
 * the others cannot interrupt: a queue operation under its mutex, a save or a send-and-unlink of
 * one file, a read of the clock, or a read or write of one shared field.
 */
module SenderProtocol {
  import opened Bytes

  const IDLE_TIMEOUT := 60
  const RECONNECTION_TIME := 30
  const MAX_QUEUED_BUFFERS := 10000

  datatype Mode = SendingFiles | SendingQueuedBuffers

  /**
   * One connection made by run().  bytes is all that the kernel took on it, whole and cut are
   * history: the payloads whose send succeeded on it and the payload whose send failed on it.
   */
  datatype Connection = Connection(bytes: seq<byte>, whole: seq<Payload>, cut: Option<Payload>)

  /** Where a producer thread stands in sender::send(buffer*...) and the save_buffers() below it. */
  datatype Producer =
    | Idle
    | Overflowing                   // push_back returned more than the limit
    | Saving(rest: seq<Payload>)    // queue taken over; rest is still to be written

  /** Where the sender thread stands in run(). */
  datatype Pc =
    | Top         // do {
    | Gate        // clock read; error_sending comes next
    | Dispatch    // _M_state comes next
    | Waiting     // timed pop
    | TimedOut    // nothing popped; idle check
    | Holding     // batch popped; connect() comes next
    | Walking     // sending the batch, buffer by buffer
    | Returning   // push_front of what was not sent
    | Opening     // send_files(): connect() and opendir()
    | Scanning    // send_files(): directory loop
    | LoopEnd     // } while (_M_running)
    | Stopping    // save_buffers() after the loop: pop
    | Draining    // save_buffers() after the loop: writing
    | Done

  datatype State = State(
    pc: Pc, error: bool, mode: Mode, now: int, lastOp: int,
    connected: bool, conns: seq<Connection>, attempts: seq<int>,
    accepted: seq<Payload>, queue: seq<Payload>, batch: seq<Payload>, producers: seq<Producer>,
    disk: map<string, Payload>, direct: seq<Payload>, sent: seq<Payload>, lost: seq<Payload>)

  datatype Event =
    // a producer thread
    | Accept(who: nat, ps: seq<Payload>)
    | SpillPop(who: nat)
    | SpillSave(who: nat, name: string)
    | SpillFlag(who: nat)
    // the sender thread, with what the environment answers
    | ReadClock(t: int)
    | PassGate(ok: bool)
    | Choose
    | PopEmpty
    | TakeBatch
    | PopTimeout
    | IdleCheck
    | BatchConnect(ok: bool)
    | SendNext(ok: bool, k: nat)
    | PushFront
    | OpenDirectory(ok: bool, dir: bool)
    | ScanAbsent(name: string)
    | ScanSent(name: string)
    | ScanFailed(name: string, k: nat)
    | ScanSkipped(name: string, maps: bool)
    | ScanEnd
    | Loop(running: bool)
    | FinalPop
    | FinalSave(name: string)
  {
    predicate FromProducer() {
      Accept? || SpillPop? || SpillSave? || SpillFlag?
    }

    /** The event by which a payload leaves memory for the directory. */
    predicate Spills() {
      SpillPop? || FinalSave?
    }

    /** The event by which a scan takes a file off the directory. */
    predicate Unlinks() {
      ScanSent? || ScanSkipped?
    }

    function Arriving(): seq<Payload> {
      if Accept? then ps else []
    }
  }

  /** A directory entry that is no "." or "..", and whether open() and mmap() would succeed on it. */
  datatype Entry = Entry(name: string, maps: bool)

  // ----- Steps

  /** sender::connect(): nothing when connected, otherwise one real attempt at the recorded time. */
  function Connect(s: State, ok: bool): State {
    if s.connected then s
    else s.(lastOp := s.now, attempts := s.attempts + [s.now], connected := ok,
            conns := if ok then s.conns + [Connection([], [], None)] else s.conns)
  }

  function OnWire(cs: seq<Connection>, out: seq<byte>, whole: seq<Payload>, cut: Option<Payload>): seq<Connection> {
    if cs == [] then cs
    else
      var c := cs[|cs| - 1];
      cs[|cs| - 1 := Connection(c.bytes + out, c.whole + whole, cut)]
  }

  /** sender::send(const void*, size_t) when all of p went out. */
  function SendWhole(s: State, p: Payload): State {
    s.(lastOp := s.now, sent := s.sent + [p], conns := OnWire(s.conns, p, [p], None))
  }

  /** sender::send(const void*, size_t) when only the first k bytes of p went out: disconnect. */
  function SendCut(s: State, p: Payload, k: nat): State
    requires k <= |p|
  {
    s.(lastOp := s.now, connected := false, conns := OnWire(s.conns, p[..k], [], Some(p)))
  }

  predicate Enabled(s: State, e: Event) {
    if e.FromProducer() then e.who < |s.producers| && ProducerEnabled(s, e) else SenderEnabled(s, e)
  }

  predicate ProducerEnabled(s: State, e: Event)
    requires e.FromProducer() && e.who < |s.producers|
  {
    var producer := s.producers[e.who];
    match e
    case Accept(_, ps) => producer.Idle? && ps != []
    case SpillPop(_) => producer.Overflowing?
    case SpillSave(_, name) => producer.Saving? && producer.rest != [] && name !in s.disk
    case SpillFlag(_) => producer == Saving([])
  }

  predicate SenderEnabled(s: State, e: Event)
    requires !e.FromProducer()
  {
    match e
    case ReadClock(_) => s.pc == Top
    case PassGate(_) => s.pc == Gate
    case Choose => s.pc == Dispatch
    case PopEmpty => s.pc == Waiting && s.queue == []
    case TakeBatch => s.pc == Waiting && s.queue != []
    case PopTimeout => s.pc == Waiting
    case IdleCheck => s.pc == TimedOut
    case BatchConnect(_) => s.pc == Holding
    case SendNext(ok, k) => s.pc == Walking && s.batch != [] && (ok || CutAt(s.batch[0], k))
    case PushFront => s.pc == Returning
    case OpenDirectory(_, _) => s.pc == Opening
    case ScanAbsent(name) => s.pc == Scanning && name !in s.disk
    // maps says whether open() and mmap() would succeed; mmap() never does on an empty file
    case ScanSent(name) => s.pc == Scanning && name in s.disk && s.disk[name] != []
    case ScanFailed(name, k) => s.pc == Scanning && name in s.disk && k < |s.disk[name]|
    case ScanSkipped(name, maps) => s.pc == Scanning && name in s.disk && (!maps || s.disk[name] == [])
    case ScanEnd => s.pc == Scanning
    case Loop(_) => s.pc == LoopEnd
    case FinalPop => s.pc == Stopping
    case FinalSave(name) => s.pc == Draining && s.batch != [] && name !in s.disk
  }

  function Apply(s: State, e: Event): State
    requires Enabled(s, e)
  {
    if e.FromProducer() then ProducerStep(s, e) else SenderStep(s, e)
  }

  function ProducerStep(s: State, e: Event): State
    requires e.FromProducer() && e.who < |s.producers| && ProducerEnabled(s, e)
  {
    match e
    case Accept(i, ps) =>
      var q := s.queue + ps;
      s.(queue := q, accepted := s.accepted + ps,
         producers := s.producers[i := if |q| > MAX_QUEUED_BUFFERS then Overflowing else Idle])
    case SpillPop(i) => s.(queue := [], producers := s.producers[i := Saving(s.queue)])
    case SpillSave(i, name) =>
      var rest := s.producers[i].rest;
      s.(disk := s.disk[name := rest[0]], producers := s.producers[i := Saving(rest[1..])])
    case SpillFlag(i) => s.(mode := SendingFiles, producers := s.producers[i := Idle])
  }

  function SenderStep(s: State, e: Event): State
    requires !e.FromProducer() && SenderEnabled(s, e)
  {
    match e
    case ReadClock(t) => s.(now := t, pc := Gate)
    case PassGate(ok) =>
      if !s.error then s.(pc := Dispatch)
      else if s.now - s.lastOp >= RECONNECTION_TIME then
        var c := Connect(s, ok);
        c.(error := !c.connected, pc := if c.connected then Dispatch else LoopEnd)
      else s.(pc := LoopEnd)
    case Choose => s.(pc := if s.mode == SendingQueuedBuffers then Waiting else Opening)
    case PopEmpty => s
    case TakeBatch => s.(batch := s.queue, queue := [], pc := Holding)
    case PopTimeout => s.(pc := TimedOut)
    case IdleCheck =>
      s.(connected := s.connected && s.now - s.lastOp < IDLE_TIMEOUT, pc := LoopEnd)
    case BatchConnect(ok) =>
      var c := Connect(s, ok);
      c.(pc := if c.connected then Walking else Returning)
    case SendNext(ok, k) =>
      var p := s.batch[0];
      if ok then
        SendWhole(s, p).(batch := s.batch[1..], direct := s.direct + [p],
                         pc := if |s.batch| > 1 then Walking else LoopEnd)
      else SendCut(s, p, k).(pc := Returning)
    case PushFront => s.(queue := s.batch + s.queue, batch := [], error := true, pc := LoopEnd)
    case OpenDirectory(ok, dir) =>
      var c := Connect(s, ok);
      if c.connected && dir then c.(pc := Scanning) else c.(error := true, pc := LoopEnd)
    case ScanAbsent(_) => s
    case ScanSent(name) => SendWhole(s, s.disk[name]).(disk := s.disk - {name})
    case ScanFailed(name, k) => SendCut(s, s.disk[name], k).(error := true, pc := LoopEnd)
    case ScanSkipped(name, _) => s.(disk := s.disk - {name}, lost := s.lost + [s.disk[name]])
    case ScanEnd => s.(mode := SendingQueuedBuffers, error := false, pc := LoopEnd)
    case Loop(running) => s.(pc := if running then Top else Stopping)
    case FinalPop => s.(batch := s.queue, queue := [], pc := if s.queue == [] then Done else Draining)
    case FinalSave(name) =>
      s.(disk := s.disk[name := s.batch[0]], batch := s.batch[1..],
         pc := if |s.batch| > 1 then Draining else Done)
  }

  /** The directory after an event. */
  function DiskAfter(s: State, e: Event): map<string, Payload>
    requires Enabled(s, e)
  {
    match e
    case SpillSave(who, name) => s.disk[name := s.producers[who].rest[0]]
    case FinalSave(name) => s.disk[name := s.batch[0]]
    case ScanSent(name) => s.disk - {name}
    case ScanSkipped(name, _) => s.disk - {name}
    case _ => s.disk
  }

  /** Only saves and scans change the directory. */
  lemma StepDisk(s: State, e: Event)
    requires Enabled(s, e)
    ensures Apply(s, e).disk == DiskAfter(s, e)
  {
    hide ProducerStep, SenderStep, Enabled, DiskAfter;
    if e.FromProducer() {
      ProducerDisk(s, e);
    } else {
      SenderDisk(s, e);
    }
  }

  lemma ProducerDisk(s: State, e: Event)
    requires Enabled(s, e) && e.FromProducer()
    ensures ProducerStep(s, e).disk == DiskAfter(s, e)
  {
  }

  lemma SenderDisk(s: State, e: Event)
    requires Enabled(s, e) && !e.FromProducer()
    ensures SenderStep(s, e).disk == DiskAfter(s, e)
  {
  }

  // ----- Runs

  /** A sender whose run() is about to begin: buffers may already be queued and files left over. */
  predicate Initial(s: State) {
    && s.pc == Top && !s.error && !s.connected && s.conns == [] && s.attempts == []
    && s.batch == [] && s.accepted == s.queue && s.direct == [] && s.sent == [] && s.lost == []
    && (forall i :: 0 <= i < |s.producers| ==> s.producers[i].Idle?)
  }

  /** es can happen, in this order, from s. */
  predicate Legal(s: State, es: seq<Event>)
    decreases |es|, 0
  {
    es == [] || (Legal(s, es[..|es| - 1]) && Enabled(Exec(s, es[..|es| - 1]), es[|es| - 1]))
  }

  function Exec(s: State, es: seq<Event>): State
    requires Legal(s, es)
    decreases |es|
  {
    if es == [] then s else Apply(Exec(s, es[..|es| - 1]), es[|es| - 1])
  }

  lemma LegalAppend(s: State, es: seq<Event>, e: Event)
    requires Legal(s, es) && Enabled(Exec(s, es), e)
    ensures Legal(s, es + [e]) && Exec(s, es + [e]) == Apply(Exec(s, es), e)
  {
    assert (es + [e])[..|es|] == es;
  }

  /** A run goes on with one more event. */
  lemma Then(s: State, es: seq<Event>, e: Event) returns (longer: seq<Event>)
    requires Legal(s, es) && Enabled(Exec(s, es), e)
    ensures longer == es + [e] && Legal(s, longer) && Exec(s, longer) == Apply(Exec(s, es), e)
  {
    longer := es + [e];
    LegalAppend(s, es, e);
  }

  /** A run can be cut anywhere: its second part is a run from where its first part ends. */
  lemma {:induction false} LegalSplit(s: State, es: seq<Event>, fs: seq<Event>)
    requires Legal(s, es + fs)
    ensures Legal(s, es) && Legal(Exec(s, es), fs)
    ensures Exec(s, es + fs) == Exec(Exec(s, es), fs)
    decreases |fs|
  {
    if fs == [] {
      assert es + fs == es;
    } else {
      assert (es + fs)[..|es + fs| - 1] == es + fs[..|fs| - 1];
      LegalSplit(s, es, fs[..|fs| - 1]);
    }
  }

  lemma {:induction false} LegalJoin(s: State, es: seq<Event>, fs: seq<Event>)
    requires Legal(s, es) && Legal(Exec(s, es), fs)
    ensures Legal(s, es + fs) && Exec(s, es + fs) == Exec(Exec(s, es), fs)
    decreases |fs|
  {
    if fs == [] {
      assert es + fs == es;
    } else {
      assert (es + fs)[..|es + fs| - 1] == es + fs[..|fs| - 1];
      LegalJoin(s, es, fs[..|fs| - 1]);
    }
  }

  // ----- What holds at every moment

  /**
   * The batch is in flight exactly between the pop and its end; whoever is about to send is
   * connected; being connected has a connection behind it; past the gate no error is pending.
   */
  predicate Coherent(s: State) {
    && (s.batch != [] <==> s.pc in {Holding, Walking, Returning, Draining})
    && (s.pc in {Walking, Scanning} ==> s.connected)
    && (s.connected ==> s.conns != [])
    && (s.pc in {Dispatch, Waiting, TimedOut, Holding, Walking, Opening, Scanning, Returning} ==> !s.error)
  }

  lemma StepCoherent(s: State, e: Event)
    requires Coherent(s) && Enabled(s, e)
    ensures Coherent(Apply(s, e))
  {
  }

  /** Every send, of a buffer or of a file, happens while connected. */
  lemma {:induction false} AlwaysCoherent(s: State, es: seq<Event>)
    requires Initial(s) && Legal(s, es)
    ensures Coherent(Exec(s, es))
    decreases |es|
  {
    if es != [] {
      AlwaysCoherent(s, es[..|es| - 1]);
      StepCoherent(Exec(s, es[..|es| - 1]), es[|es| - 1]);
    }
  }
}
