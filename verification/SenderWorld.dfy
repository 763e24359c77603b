/**
 * The sender thread against an environment that is given in advance: what the clock, the waits for
 * the queue, the directory and the network answer.  Next is what run() does next; nothing else but
 * these answers and the other threads has any say in it.
 */
module SenderWorld {
  import opened Bytes
  import opened SenderProtocol
  import opened SenderLink
  import SenderCustody
  import SenderTiming
  import Spool

  /**
   * What the environment answers in one round of run(): the clock; how often a wait for the queue is
   * signalled before one times out; whether the directory can be opened, and what readdir() lists.
   */
  datatype Round = Round(now: int, signals: nat, dir: bool, entries: seq<Entry>)

  /** What is still to be answered. */
  datatype World = World(
    script: Script,
    rounds: seq<Round>,   // the rounds to come; stop() is called when there are no more
    round: Round,         // the present one
    looks: nat,           // how often it may still look at the queue
    at: nat,              // how many of its entries are dealt with
    turns: nat,           // how often the loop's condition has been looked at
    stamp: string, count: nat)

  function Sleeping(script: Script, rounds: seq<Round>, stamp: string): World {
    World(script, rounds, Round(0, 0, false, []), 0, 0, 0, stamp, 0)
  }

  /** All of ps are delivered, one after the other. */
  ghost predicate AllDelivered(x: Script, ps: seq<Payload>) {
    ps == [] ||
    var before := ps[..|ps| - 1];
    AllDelivered(x, before) && Delivers(AfterAll(x, before), ps[|ps| - 1])
  }

  function AfterAll(x: Script, ps: seq<Payload>): Script {
    if ps == [] then x else AfterDelivery(AfterAll(x, ps[..|ps| - 1]), ps[|ps| - 1])
  }

  lemma DeliveredMore(x: Script, ps: seq<Payload>, p: Payload)
    ensures AllDelivered(x, ps + [p]) <==> AllDelivered(x, ps) && Delivers(AfterAll(x, ps), p)
    ensures AfterAll(x, ps + [p]) == AfterDelivery(AfterAll(x, ps), p)
  {
    assert (ps + [p])[..|ps|] == ps;
  }

  /** What send_files() does with the next entry. */
  ghost function NextEntry(w: World, s: State, e: Entry): Event {
    if e.name !in s.disk then ScanAbsent(e.name)
    else
      var p := s.disk[e.name];
      if !e.maps || p == [] then ScanSkipped(e.name, e.maps)
      else if Delivers(w.script, p) then ScanSent(e.name)
      else ScanFailed(e.name, Cut(w.script, p))
  }

  /** What run() does next. */
  ghost function Next(w: World, s: State): Event {
    match s.pc
    case Top => ReadClock(if w.rounds == [] then s.now else w.rounds[0].now)
    case Gate => PassGate(Reaches(w.script))
    case Dispatch => Choose
    case Waiting => if w.looks == 0 then PopTimeout else if s.queue == [] then PopEmpty else TakeBatch
    case TimedOut => IdleCheck
    case Holding => BatchConnect(Reaches(w.script))
    case Walking => SendNext(s.batch != [] && Delivers(w.script, s.batch[0]),
                             if s.batch == [] then 0 else Cut(w.script, s.batch[0]))
    case Returning => PushFront
    case Opening => OpenDirectory(Reaches(w.script), w.round.dir)
    case Scanning => if w.at < |w.round.entries| then NextEntry(w, s, w.round.entries[w.at]) else ScanEnd
    case LoopEnd => Loop(w.rounds != [])
    case Stopping => FinalPop
    case Draining => FinalSave(Spool.Name(w.stamp, Spool.FirstFree(s.disk, w.stamp, w.count)))
    case Done => FinalPop
  }

  /** What is still to be answered after an event. */
  ghost function After(w: World, s: State, e: Event): World
    requires Enabled(s, e)
  {
    match e
    case ReadClock(_) =>
      if w.rounds == [] then w
      else w.(rounds := w.rounds[1..], round := w.rounds[0], looks := w.rounds[0].signals + 1, at := 0)
    case PassGate(_) =>
      if s.error && s.now - s.lastOp >= RECONNECTION_TIME then Dialled(w, s) else w
    case BatchConnect(_) => Dialled(w, s)
    case OpenDirectory(_, _) => Dialled(w, s)
    case PopEmpty => w.(looks := if w.looks == 0 then 0 else w.looks - 1)
    case SendNext(_, _) => w.(script := AfterDelivery(w.script, s.batch[0]))
    case ScanSent(name) => w.(script := AfterDelivery(w.script, s.disk[name]), at := w.at + 1)
    case ScanFailed(name, _) => w.(script := AfterDelivery(w.script, s.disk[name]), at := w.at + 1)
    case ScanSkipped(_, _) => w.(at := w.at + 1)
    case ScanAbsent(_) => w.(at := w.at + 1)
    case Loop(_) => w.(turns := w.turns + 1)
    case FinalPop => w.(count := 0)
    case FinalSave(_) => w.(count := Spool.FirstFree(s.disk, w.stamp, w.count) + 1)
    case _ => w
  }

  /** sender::connect() asks for an answer only when there is no connection. */
  function Dialled(w: World, s: State): World {
    if s.connected then w else w.(script := AfterDial(w.script))
  }

  lemma ProducersAskNothing(w: World, s: State, e: Event)
    requires Enabled(s, e) && e.FromProducer()
    ensures After(w, s, e) == w
  {
  }

  // ----- Runs in a world

  ghost function WorldAfter(w: World, s: State, es: seq<Event>): World
    requires Legal(s, es)
    decreases |es|
  {
    if es == [] then w
    else
      var before := es[..|es| - 1];
      After(WorldAfter(w, s, before), Exec(s, before), es[|es| - 1])
  }

  /** In es the sender thread does what it does in the world w. */
  ghost predicate Follows(w: World, s: State, es: seq<Event>)
    requires Legal(s, es)
    decreases |es|
  {
    es == [] ||
    var before, e := es[..|es| - 1], es[|es| - 1];
    Follows(w, s, before) && (e.FromProducer() || e == Next(WorldAfter(w, s, before), Exec(s, before)))
  }

  lemma FollowsMore(w: World, s: State, es: seq<Event>, e: Event)
    requires Legal(s, es) && Follows(w, s, es) && Enabled(Exec(s, es), e)
    requires e.FromProducer() || e == Next(WorldAfter(w, s, es), Exec(s, es))
    ensures Legal(s, es + [e]) && Follows(w, s, es + [e])
    ensures WorldAfter(w, s, es + [e]) == After(WorldAfter(w, s, es), Exec(s, es), e)
    ensures e.FromProducer() ==> WorldAfter(w, s, es + [e]) == WorldAfter(w, s, es)
  {
    hide Next, Enabled, After;
    assert (es + [e])[..|es|] == es;
    LegalAppend(s, es, e);
    if e.FromProducer() {
      ProducersAskNothing(WorldAfter(w, s, es), Exec(s, es), e);
    }
  }

  lemma {:induction false} FollowsSplit(w: World, s: State, es: seq<Event>, fs: seq<Event>)
    requires Legal(s, es + fs) && Follows(w, s, es + fs)
    ensures Legal(s, es) && Follows(w, s, es) && Legal(Exec(s, es), fs)
    ensures Exec(s, es + fs) == Exec(Exec(s, es), fs)
    ensures Follows(WorldAfter(w, s, es), Exec(s, es), fs)
    ensures WorldAfter(w, s, es + fs) == WorldAfter(WorldAfter(w, s, es), Exec(s, es), fs)
    decreases |fs|
  {
    hide Next, Enabled, Apply, After;
    LegalSplit(s, es, fs);
    if fs == [] {
      assert es + fs == es;
    } else {
      var gs := fs[..|fs| - 1];
      assert (es + fs)[..|es + fs| - 1] == es + gs;
      FollowsSplit(w, s, es, gs);
    }
  }

  /**
   * What the sender thread does is settled by what the environment answers and by what the
   * producers do when: two runs that agree on these are the same.
   */
  lemma {:induction false} Determined(w: World, s: State, es: seq<Event>, fs: seq<Event>)
    requires Legal(s, es) && Follows(w, s, es) && Legal(s, fs) && Follows(w, s, fs) && |es| == |fs|
    requires forall i :: 0 <= i < |es| && (es[i].FromProducer() || fs[i].FromProducer()) ==> es[i] == fs[i]
    ensures es == fs
    decreases |es|
  {
    hide Next, Enabled, Apply, After;
    if es != [] {
      var n := |es| - 1;
      Determined(w, s, es[..n], fs[..n]);
      assert es == es[..n] + [es[n]] && fs == fs[..n] + [fs[n]];
    }
  }

  /** Until run() has returned there is always something that it can do next. */
  lemma NeverStuck(w: World, s: State)
    requires Coherent(s) && s.pc != Done
    ensures !Next(w, s).FromProducer() && Enabled(s, Next(w, s))
  {
    hide Delivers, Cut, Reaches, Spool.Name, Spool.FirstFree;
    if s.pc == Walking && s.batch != [] {
      CutShort(w.script, s.batch[0]);
    } else if s.pc == Scanning && w.at < |w.round.entries| && w.round.entries[w.at].name in s.disk {
      CutShort(w.script, s.disk[w.round.entries[w.at].name]);
    }
  }

  // ----- What a world says about a run

  function Nows(rounds: seq<Round>): seq<int> {
    if rounds == [] then [] else [rounds[0].now] + Nows(rounds[1..])
  }

  /** run() has read the clock once for each round that is over or under way. */
  lemma {:induction false} ClockReads(w: World, s: State, es: seq<Event>)
    requires Legal(s, es) && Follows(w, s, es)
    requires s.pc == Top ==> w.rounds != []
    ensures SenderTiming.Clocks(es) + Nows(WorldAfter(w, s, es).rounds) == Nows(w.rounds)
    ensures Exec(s, es).pc == Top ==> WorldAfter(w, s, es).rounds != []
    decreases |es|
  {
    hide Apply, Enabled, Next, After;
    if es != [] {
      var before, e := es[..|es| - 1], es[|es| - 1];
      ClockReads(w, s, before);
      var v, t := WorldAfter(w, s, before), Exec(s, before);
      StepRounds(v, t, e);
      assert e.ReadClock? ==> SenderTiming.Clocks(before) + Nows(v.rounds)
                              == SenderTiming.Clocks(before) + [e.t] + Nows(v.rounds[1..]);
    }
  }

  lemma StepRounds(w: World, s: State, e: Event)
    requires Enabled(s, e) && (e.FromProducer() || e == Next(w, s)) && (s.pc == Top ==> w.rounds != [])
    ensures Apply(s, e).pc == Top ==> After(w, s, e).rounds != []
    ensures if e.ReadClock? then w.rounds != [] && e.t == w.rounds[0].now && After(w, s, e).rounds == w.rounds[1..]
            else After(w, s, e).rounds == w.rounds
  {
  }
}
