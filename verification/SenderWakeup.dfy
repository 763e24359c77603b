/** Whether a spilled file is always looked for again. */
module SenderWakeup {
  import opened Bytes
  import opened SenderProtocol

  /** Files on disk will be looked for: the mode says so, or a spill that will say so is going on. */
  predicate Watched(s: State) {
    || s.disk == map[]
    || s.mode == SendingFiles
    || SpillGoingOn(s)
  }

  predicate SpillGoingOn(s: State) {
    exists i :: 0 <= i < |s.producers| && s.producers[i].Saving?
  }

  predicate AlwaysWatched(s: State, es: seq<Event>)
    requires Legal(s, es)
    decreases |es|
  {
    Watched(Exec(s, es)) && (es != [] ==> AlwaysWatched(s, es[..|es| - 1]))
  }

  // ----- What a schedule says

  /** The names on disk that the present scan has not come to, those written meanwhile included. */
  function Remaining(s: State, es: seq<Event>): set<string>
    requires Legal(s, es)
    decreases |es|
  {
    if es == [] then {}
    else
      var before, e := es[..|es| - 1], es[|es| - 1];
      if e.OpenDirectory? then Exec(s, before).disk.Keys
      else if e.Unlinks() then Remaining(s, before) - {e.name}
      else if e.SpillSave? then Remaining(s, before) + {e.name}
      else Remaining(s, before)
  }

  /** The producers that have taken the queue over and have not set the state since. */
  function Spilling(es: seq<Event>): set<nat> {
    if es == [] then {}
    else
      var before, e := es[..|es| - 1], es[|es| - 1];
      if e.SpillPop? then Spilling(before) + {e.who}
      else if e.SpillFlag? then Spilling(before) - {e.who}
      else Spilling(before)
  }

  /** Whether files were asked for later than the last complete scan. */
  predicate Looking(mode: Mode, es: seq<Event>) {
    if es == [] then mode == SendingFiles
    else
      var before, e := es[..|es| - 1], es[|es| - 1];
      e.SpillFlag? || (!e.ScanEnd? && Looking(mode, before))
  }

  /**
   * Whenever a scan comes to its end it has come to every file, those written during the scan
   * included, or some producer is between its pop and its flag; and whenever run() saves a buffer
   * at its end, files are being asked for or some producer is there.
   */
  predicate NothingMissed(s: State, es: seq<Event>)
    requires Legal(s, es)
    decreases |es|
  {
    es == [] ||
    var before, e := es[..|es| - 1], es[|es| - 1];
    && NothingMissed(s, before)
    && (e.ScanEnd? ==> Remaining(s, before) == {} || Spilling(before) != {})
    && (e.FinalSave? ==> Looking(s.mode, before) || Spilling(before) != {})
  }

  lemma {:induction false} SpillingProducers(s: State, es: seq<Event>)
    requires Initial(s) && Legal(s, es)
    ensures |Exec(s, es).producers| == |s.producers|
    ensures forall i: nat :: i in Spilling(es) <==> i < |s.producers| && Exec(s, es).producers[i].Saving?
    decreases |es|
  {
    hide Apply;
    if es != [] {
      SpillingProducers(s, es[..|es| - 1]);
      StepSpilling(Exec(s, es[..|es| - 1]), es[|es| - 1]);
    }
  }

  lemma StepSpilling(s: State, e: Event)
    requires Enabled(s, e)
    ensures e.SpillPop? || e.SpillFlag? ==> e.who < |s.producers|
    ensures |Apply(s, e).producers| == |s.producers|
    ensures forall i: nat :: i < |s.producers| ==>
              (Apply(s, e).producers[i].Saving? <==>
               if e.SpillPop? && e.who == i then true
               else if e.SpillFlag? && e.who == i then false
               else s.producers[i].Saving?)
  {
  }

  lemma SomeoneSpilling(s: State, es: seq<Event>)
    requires Initial(s) && Legal(s, es)
    ensures Spilling(es) != {} <==> SpillGoingOn(Exec(s, es))
  {
    SpillingProducers(s, es);
    if SpillGoingOn(Exec(s, es)) {
      var i :| 0 <= i < |Exec(s, es).producers| && Exec(s, es).producers[i].Saving?;
      assert i in Spilling(es);
    }
  }

  lemma {:induction false} LookingIsMode(s: State, es: seq<Event>)
    requires Legal(s, es)
    ensures Looking(s.mode, es) <==> Exec(s, es).mode == SendingFiles
    decreases |es|
  {
    if es != [] {
      LookingIsMode(s, es[..|es| - 1]);
      StepMode(Exec(s, es[..|es| - 1]), es[|es| - 1]);
    }
  }

  lemma StepMode(s: State, e: Event)
    requires Enabled(s, e)
    ensures Apply(s, e).mode ==
            if e.SpillFlag? then SendingFiles else if e.ScanEnd? then SendingQueuedBuffers else s.mode
  {
  }

  /** During a scan the files on disk are exactly those that it has not come to. */
  lemma {:induction false} RemainingIsDisk(s: State, es: seq<Event>)
    requires s.pc == Top && Legal(s, es)
    ensures Exec(s, es).pc == Scanning ==> Exec(s, es).disk.Keys == Remaining(s, es)
    decreases |es|
  {
    hide Apply;
    if es != [] && Exec(s, es).pc == Scanning {
      RemainingIsDisk(s, es[..|es| - 1]);
      StepScanning(Exec(s, es[..|es| - 1]), es[|es| - 1]);
    }
  }

  lemma StepScanning(s: State, e: Event)
    requires Enabled(s, e) && Apply(s, e).pc == Scanning
    ensures e.OpenDirectory? || s.pc == Scanning
    ensures Apply(s, e).disk.Keys ==
            if e.Unlinks() then s.disk.Keys - {e.name}
            else if e.SpillSave? then s.disk.Keys + {e.name}
            else s.disk.Keys
  {
    StepDisk(s, e);
  }

  lemma StepWatched(s: State, e: Event)
    requires Enabled(s, e) && Watched(s)
    ensures Watched(Apply(s, e)) <==>
            && (e.ScanEnd? ==> s.disk == map[] || SpillGoingOn(s))
            && (e.FinalSave? ==> s.mode == SendingFiles || SpillGoingOn(s))
    ensures e.ScanEnd? ==> s.pc == Scanning
  {
    var t := Apply(s, e);
    if i :| 0 <= i < |s.producers| && s.producers[i].Saving? {
      assert e.SpillFlag? || t.producers[i].Saving?;
    }
    if e.SpillSave? {
      assert t.producers[e.who].Saving?;
    }
    if e.ScanEnd? || e.FinalSave? {
      assert t.producers == s.producers;
    }
    if e.FinalSave? {
      assert e.name in t.disk;
    }
  }

  /**
   * In every run, files on disk are announced at every moment if and only if no scan that comes to
   * its end, and no save at the end of run(), misses one.
   */
  lemma {:induction false} WatchedIffNothingMissed(s: State, es: seq<Event>)
    requires Initial(s) && Watched(s) && Legal(s, es)
    ensures AlwaysWatched(s, es) <==> NothingMissed(s, es)
    decreases |es|
  {
    hide Apply, Watched, SpillGoingOn, Enabled, Spilling, Remaining, Looking;
    if es != [] {
      var before, e := es[..|es| - 1], es[|es| - 1];
      WatchedIffNothingMissed(s, before);
      if AlwaysWatched(s, before) {
        NowWatched(s, before);
        StepWatched(Exec(s, before), e);
        SomeoneSpilling(s, before);
        LookingIsMode(s, before);
        RemainingIsDisk(s, before);
        assert Exec(s, before).disk == map[] <==> Exec(s, before).disk.Keys == {};
      }
    }
  }

  lemma NowWatched(s: State, es: seq<Event>)
    requires Legal(s, es) && AlwaysWatched(s, es)
    ensures Watched(Exec(s, es))
  {
  }

  /** The names on disk when the present scan opened the directory that it has not come to yet. */
  function Unlisted(s: State, es: seq<Event>): set<string>
    requires Legal(s, es)
    decreases |es|
  {
    if es == [] then {}
    else
      var before, e := es[..|es| - 1], es[|es| - 1];
      if e.OpenDirectory? then Exec(s, before).disk.Keys
      else if e.Unlinks() then Unlisted(s, before) - {e.name}
      else Unlisted(s, before)
  }

  /**
   * readdir() lists every file there at opendir(), no producer writes a file meanwhile, and what
   * run() saves at its end is announced.
   */
  predicate ScansAlone(s: State, es: seq<Event>)
    requires Legal(s, es)
    decreases |es|
  {
    es == [] ||
    var before, e := es[..|es| - 1], es[|es| - 1];
    && ScansAlone(s, before)
    && (e.ScanEnd? ==> Unlisted(s, before) == {})
    && (e.SpillSave? ==> Exec(s, before).pc != Scanning)
    && (e.FinalSave? ==> Looking(s.mode, before) || Spilling(before) != {})
  }

  lemma {:induction false} RemainingWasThere(s: State, es: seq<Event>)
    requires s.pc == Top && Legal(s, es) && ScansAlone(s, es)
    ensures Exec(s, es).pc == Scanning ==> Remaining(s, es) <= Unlisted(s, es)
    decreases |es|
  {
    hide Apply;
    if es != [] && Exec(s, es).pc == Scanning {
      RemainingWasThere(s, es[..|es| - 1]);
      StepScanning(Exec(s, es[..|es| - 1]), es[|es| - 1]);
    }
  }

  lemma {:induction false} AloneMissesNothing(s: State, es: seq<Event>)
    requires s.pc == Top && Legal(s, es) && ScansAlone(s, es)
    ensures NothingMissed(s, es)
    decreases |es|
  {
    hide Apply;
    if es != [] {
      AloneMissesNothing(s, es[..|es| - 1]);
      RemainingWasThere(s, es[..|es| - 1]);
    }
  }

  /**
   * No file is ever forgotten as long as scans list what is there, no spill writes a file
   * meanwhile, and run() saves at its end only when files are being asked for anyway.
   */
  lemma {:induction false} NothingForgotten(s: State, es: seq<Event>)
    requires Initial(s) && Watched(s) && Legal(s, es) && ScansAlone(s, es)
    ensures AlwaysWatched(s, es)
  {
    AloneMissesNothing(s, es);
    WatchedIffNothingMissed(s, es);
  }

  /**
   * Otherwise a file can be: whenever a producer is about to write its last file while the sender
   * scans, the two can finish in an order that leaves the file on disk with the sender back at
   * the queue, and nobody left to send it there.
   */
  lemma SpillDuringScanForgotten(s: State, i: nat, p: Payload, name: string)
    requires s.pc == Scanning && i < |s.producers| && s.producers[i] == Saving([p]) && name !in s.disk
    requires forall j :: 0 <= j < |s.producers| && j != i ==> !s.producers[j].Saving?
    ensures var es := [SpillSave(i, name), SpillFlag(i), ScanEnd];
            Legal(s, es) && name in Exec(s, es).disk && !Watched(Exec(s, es))
  {
    hide Apply, Watched;
    var a, b, c := SpillSave(i, name), SpillFlag(i), ScanEnd;
    ForgottenStates(s, i, p, name);
    LegalAppend(s, [], a);
    assert [] + [a] == [a];
    LegalAppend(s, [a], b);
    assert [a] + [b] == [a, b];
    LegalAppend(s, [a, b], c);
    assert [a, b] + [c] == [a, b, c];
  }

  lemma ForgottenStates(s: State, i: nat, p: Payload, name: string)
    requires s.pc == Scanning && i < |s.producers| && s.producers[i] == Saving([p]) && name !in s.disk
    requires forall j :: 0 <= j < |s.producers| && j != i ==> !s.producers[j].Saving?
    ensures Enabled(s, SpillSave(i, name))
    ensures var s1 := Apply(s, SpillSave(i, name)); Enabled(s1, SpillFlag(i))
    ensures var s2 := Apply(Apply(s, SpillSave(i, name)), SpillFlag(i));
            Enabled(s2, ScanEnd) && name in Apply(s2, ScanEnd).disk && !Watched(Apply(s2, ScanEnd))
  {
    var s1 := Apply(s, SpillSave(i, name));
    assert [p][1..] == [];
    assert s1.producers == s.producers[i := Saving([])] && name in s1.disk;
    var s2 := Apply(s1, SpillFlag(i));
    assert s2.producers == s.producers[i := Idle] && name in s2.disk;
    NotWatched(Apply(s2, ScanEnd), name);
  }

  lemma NotWatched(s: State, name: string)
    requires name in s.disk && s.mode == SendingQueuedBuffers
    requires forall i :: 0 <= i < |s.producers| ==> !s.producers[i].Saving?
    ensures !Watched(s)
  {
  }

  // ----- Two runs in which a file is forgotten

  /** A new sender over an empty directory, with threads to send. */
  predicate Fresh(s: State, threads: nat) {
    && Initial(s) && s.mode == SendingFiles && s.disk == map[] && s.queue == []
    && |s.producers| == threads
  }

  /** The first round: a scan that finds nothing. */
  lemma FirstRound(s: State) returns (es: seq<Event>)
    requires Fresh(s, |s.producers|)
    ensures Legal(s, es)
    ensures var t := Exec(s, es);
      && t.pc == LoopEnd && t.mode == SendingQueuedBuffers && t.connected && !t.error
      && t.now == 0 && t.lastOp == 0 && t.disk == map[] && t.queue == [] && t.producers == s.producers
  {
    es := [];
    es := Then(s, es, ReadClock(0));
    es := Then(s, es, PassGate(true));
    es := Then(s, es, Choose);
    es := Then(s, es, OpenDirectory(true, true));
    es := Then(s, es, ScanEnd);
  }

  /**
   * The plain case: after the first scan a buffer is accepted and the sender is stopped.  The
   * buffer is saved, but the state does not ask for files.
   */
  lemma FinalSaveForgotten(s: State, p: Payload, name: string) returns (es: seq<Event>)
    requires Fresh(s, 1)
    ensures Legal(s, es) && Exec(s, es).pc == Done && Exec(s, es).disk == map[name := p] && !Watched(Exec(s, es))
  {
    hide Watched;
    es := FirstRound(s);
    es := Then(s, es, Accept(0, [p]));
    es := Then(s, es, Loop(false));
    es := Then(s, es, FinalPop);
    es := Then(s, es, FinalSave(name));
    NotWatched(Exec(s, es), name);
  }

  /** Two producers come over the limit; before either spills, the sender takes the queue. */
  lemma TwoOverLimit(s: State, p: Payload) returns (es: seq<Event>)
    requires Fresh(s, 3)
    ensures Legal(s, es)
    ensures var t := Exec(s, es);
      && t.pc == Walking && t.mode == SendingQueuedBuffers && !t.error && t.now == 0
      && t.disk == map[] && t.queue == [] && t.batch != [] && t.batch[0] == p
      && t.producers == [Overflowing, Overflowing, Idle]
  {
    var big := seq(MAX_QUEUED_BUFFERS + 1, _ => p);
    es := FirstRound(s);
    es := Then(s, es, Loop(true));
    es := Then(s, es, ReadClock(0));
    es := Then(s, es, PassGate(true));
    es := Then(s, es, Choose);
    es := Then(s, es, Accept(0, big));
    assert Exec(s, es).queue == big;
    es := OtherOverLimit(s, es, p);
  }

  lemma OtherOverLimit(s: State, upTo: seq<Event>, p: Payload) returns (es: seq<Event>)
    requires Legal(s, upTo)
    requires var t := Exec(s, upTo);
      && t.pc == Waiting && t.mode == SendingQueuedBuffers && !t.error && t.now == 0 && t.connected
      && t.disk == map[] && t.producers == [Overflowing, Idle, Idle]
      && |t.queue| > MAX_QUEUED_BUFFERS && t.queue[0] == p
    ensures Legal(s, es)
    ensures var t := Exec(s, es);
      && t.pc == Walking && t.mode == SendingQueuedBuffers && !t.error && t.now == 0
      && t.disk == map[] && t.queue == [] && t.batch != [] && t.batch[0] == p
      && t.producers == [Overflowing, Overflowing, Idle]
  {
    es := Then(s, upTo, Accept(1, [p]));
    es := Then(s, es, TakeBatch);
    es := Then(s, es, BatchConnect(true));
  }

  /** One of them then takes over a single buffer; the other one, having nothing to do, sets the state. */
  lemma OneLeft(s: State, p: Payload) returns (es: seq<Event>)
    requires Fresh(s, 3)
    ensures Legal(s, es)
    ensures var t := Exec(s, es);
      && t.pc == Walking && t.mode == SendingFiles && !t.error && t.now == 0
      && t.disk == map[] && t.batch != [] && t.batch[0] == p
      && t.producers == [Idle, Saving([p]), Idle]
  {
    es := TwoOverLimit(s, p);
    es := Then(s, es, Accept(2, [p]));
    assert Exec(s, es).queue == [p] && Exec(s, es).producers == [Overflowing, Overflowing, Idle];
    es := Then(s, es, SpillPop(1));
    assert Exec(s, es).queue == [] && Exec(s, es).producers == [Overflowing, Saving([p]), Idle];
    es := Then(s, es, SpillPop(0));
    assert Exec(s, es).producers == [Saving([]), Saving([p]), Idle];
    es := Then(s, es, SpillFlag(0));
    assert Exec(s, es).producers == [Idle, Saving([p]), Idle];
  }

  lemma FailedBesideSpill(s: State, p: Payload) returns (es: seq<Event>)
    requires Fresh(s, 3)
    ensures Legal(s, es)
    ensures var t := Exec(s, es);
      && t.pc == LoopEnd && t.mode == SendingFiles && t.error && t.now == 0 && t.lastOp == 0
      && t.disk == map[] && t.producers == [Idle, Saving([p]), Idle]
  {
    es := OneLeft(s, p);
    es := Then(s, es, SendNext(false, 0));
    es := Then(s, es, PushFront);
  }

  /** The sender fails, waits, connects and scans, while that buffer is still to be saved. */
  lemma ScanBesideSpill(s: State, p: Payload) returns (es: seq<Event>)
    requires Fresh(s, 3)
    ensures Legal(s, es)
    ensures var t := Exec(s, es);
      t.pc == Scanning && t.disk == map[] && t.producers == [Idle, Saving([p]), Idle]
  {
    es := FailedBesideSpill(s, p);
    es := Then(s, es, Loop(true));
    es := Then(s, es, ReadClock(RECONNECTION_TIME));
    es := Then(s, es, PassGate(true));
    es := Then(s, es, Choose);
    es := Then(s, es, OpenDirectory(true, true));
  }

  /** So the schedule of SpillDuringScanForgotten does occur, with three producers and a new sender. */
  lemma ForgottenFromStart(s: State, p: Payload, name: string) returns (es: seq<Event>)
    requires Fresh(s, 3)
    ensures Legal(s, es) && name in Exec(s, es).disk && !Watched(Exec(s, es))
  {
    hide Watched, Apply, Enabled;
    var upTo := ScanBesideSpill(s, p);
    var last := [SpillSave(1, name), SpillFlag(1), ScanEnd];
    SpillDuringScanForgotten(Exec(s, upTo), 1, p, name);
    LegalJoin(s, upTo, last);
    es := upTo + last;
  }
}
