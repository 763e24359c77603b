/** Conservation of payloads over every run, and what is left when run() has returned. */
module SenderCustody {
  import opened Bytes
  import opened SenderProtocol

  ghost function AnyName(disk: map<string, Payload>): string
    requires disk != map[]
  {
    var name :| name in disk; name
  }

  /** The payloads in the files of the directory. */
  ghost function Contents(disk: map<string, Payload>): multiset<Payload>
    decreases |disk|
  {
    if disk == map[] then multiset{}
    else multiset{disk[AnyName(disk)]} + Contents(disk - {AnyName(disk)})
  }

  /** The payloads producers have taken over from the queue and not written yet. */
  ghost function Held(producers: seq<Producer>): multiset<Payload> {
    if producers == [] then multiset{}
    else HeldBy(producers[0]) + Held(producers[1..])
  }

  ghost function HeldBy(p: Producer): multiset<Payload> {
    if p.Saving? then multiset(p.rest) else multiset{}
  }

  /** Every place a payload can be. */
  ghost function Custody(s: State): multiset<Payload> {
    multiset(s.sent) + multiset(s.batch) + multiset(s.queue) + Held(s.producers)
    + Contents(s.disk) + multiset(s.lost)
  }

  /** How often p is in each place, added up. */
  ghost function CustodyOf(s: State, p: Payload): nat {
    multiset(s.sent)[p] + multiset(s.batch)[p] + multiset(s.queue)[p] + Held(s.producers)[p]
    + Contents(s.disk)[p] + multiset(s.lost)[p]
  }

  lemma {:induction false} ContentsInsert(disk: map<string, Payload>, name: string, p: Payload)
    requires name !in disk
    ensures Contents(disk[name := p]) == Contents(disk) + multiset{p}
    decreases |disk|, 1
  {
    var bigger := disk[name := p];
    assert name in bigger;
    var first := AnyName(bigger);
    if first == name {
      assert bigger - {name} == disk;
    } else {
      assert bigger - {first} == (disk - {first})[name := p];
      ContentsInsert(disk - {first}, name, p);
      ContentsRemove(disk, first);
    }
  }

  lemma {:induction false} ContentsRemove(disk: map<string, Payload>, name: string)
    requires name in disk
    ensures Contents(disk) == Contents(disk - {name}) + multiset{disk[name]}
    decreases |disk|, 0
  {
    var smaller := disk - {name};
    assert smaller[name := disk[name]] == disk;
    ContentsInsert(smaller, name, disk[name]);
  }

  lemma {:induction false} HeldUpdate(producers: seq<Producer>, i: nat, q: Producer, p: Payload)
    requires i < |producers|
    ensures Held(producers[i := q])[p] + HeldBy(producers[i])[p] == Held(producers)[p] + HeldBy(q)[p]
  {
    if i == 0 {
      assert producers[0 := q][1..] == producers[1..];
    } else {
      assert producers[i := q][1..] == producers[1..][i - 1 := q];
      HeldUpdate(producers[1..], i - 1, q, p);
    }
  }

  lemma HeadTail<T>(s: seq<T>)
    requires s != []
    ensures multiset(s) == multiset{s[0]} + multiset(s[1..])
  {
    assert s == [s[0]] + s[1..];
  }

  /** A producer's event moves payloads from place to place; only Accept adds any. */
  lemma ProducerStepCustody(s: State, e: Event, p: Payload)
    requires e.FromProducer() && Enabled(s, e)
    ensures CustodyOf(Apply(s, e), p) == CustodyOf(s, p) + multiset(e.Arriving())[p]
  {
    hide Contents, Held;
    if e.SpillSave? {
      SpillSaveCustody(s, e.who, e.name, p);
    } else {
      HeldUpdate(s.producers, e.who, Apply(s, e).producers[e.who], p);
    }
  }

  lemma SpillSaveCustody(s: State, i: nat, name: string, p: Payload)
    requires Enabled(s, SpillSave(i, name))
    ensures CustodyOf(Apply(s, SpillSave(i, name)), p) == CustodyOf(s, p)
  {
    hide Contents, Held;
    var rest := s.producers[i].rest;
    HeldUpdate(s.producers, i, Saving(rest[1..]), p);
    HeadTail(rest);
    ContentsInsert(s.disk, name, rest[0]);
  }

  lemma SendNextCustody(s: State, ok: bool, k: nat, p: Payload)
    requires Enabled(s, SendNext(ok, k))
    ensures CustodyOf(Apply(s, SendNext(ok, k)), p) == CustodyOf(s, p)
  {
    hide Contents, Held;
    HeadTail(s.batch);
  }

  lemma ScanCustody(s: State, e: Event, p: Payload)
    requires e.Unlinks() && Enabled(s, e)
    ensures CustodyOf(Apply(s, e), p) == CustodyOf(s, p)
  {
    hide Contents, Held;
    ContentsRemove(s.disk, e.name);
  }

  lemma FinalSaveCustody(s: State, name: string, p: Payload)
    requires Enabled(s, FinalSave(name))
    ensures CustodyOf(Apply(s, FinalSave(name)), p) == CustodyOf(s, p)
  {
    hide Contents, Held;
    HeadTail(s.batch);
    ContentsInsert(s.disk, name, s.batch[0]);
  }

  lemma QueueMoveCustody(s: State, e: Event, p: Payload)
    requires e.TakeBatch? || e.PushFront? || e.FinalPop?
    requires Coherent(s) && Enabled(s, e)
    ensures CustodyOf(Apply(s, e), p) == CustodyOf(s, p)
  {
    hide Contents, Held;
    if e.PushFront? {
      assert multiset(s.batch + s.queue) == multiset(s.batch) + multiset(s.queue);
    }
  }

  /** So does an event of the sender thread, whatever the environment answers. */
  lemma SenderStepCustody(s: State, e: Event, p: Payload)
    requires !e.FromProducer() && Coherent(s) && Enabled(s, e)
    ensures CustodyOf(Apply(s, e), p) == CustodyOf(s, p)
  {
    hide Contents, Held, Apply, Enabled;
    match e
    case SendNext(ok, k) => SendNextCustody(s, ok, k, p);
    case ScanSent(name) => ScanCustody(s, e, p);
    case ScanSkipped(name, _) => ScanCustody(s, e, p);
    case FinalSave(name) => FinalSaveCustody(s, name, p);
    case TakeBatch => QueueMoveCustody(s, e, p);
    case PushFront => QueueMoveCustody(s, e, p);
    case FinalPop => QueueMoveCustody(s, e, p);
    case _ => NothingMoves(s, e);
  }

  lemma NothingMoves(s: State, e: Event)
    requires !e.FromProducer() && Enabled(s, e) && !e.Unlinks()
    requires !e.SendNext? && !e.TakeBatch? && !e.PushFront? && !e.FinalPop? && !e.FinalSave?
    ensures var t := Apply(s, e);
      && t.sent == s.sent && t.batch == s.batch && t.queue == s.queue && t.producers == s.producers
      && t.disk == s.disk && t.lost == s.lost
  {
  }

  lemma StepAccepted(s: State, e: Event)
    requires Enabled(s, e)
    ensures Apply(s, e).accepted == s.accepted + e.Arriving()
  {
  }

  lemma {:induction false} RunCustody(s: State, es: seq<Event>, p: Payload)
    requires Coherent(s) && Legal(s, es)
    ensures Coherent(Exec(s, es))
    ensures CustodyOf(Exec(s, es), p) - multiset(Exec(s, es).accepted)[p]
         == CustodyOf(s, p) - multiset(s.accepted)[p]
    decreases |es|
  {
    hide Apply;
    if es != [] {
      var before, e := es[..|es| - 1], es[|es| - 1];
      RunCustody(s, before, p);
      StepCoherent(Exec(s, before), e);
      StepAccepted(Exec(s, before), e);
      var m := Exec(s, before);
      if e.FromProducer() {
        ProducerStepCustody(m, e, p);
      } else {
        SenderStepCustody(m, e, p);
      }
    }
  }

  lemma {:induction false} HeldByNobody(producers: seq<Producer>)
    requires forall i :: 0 <= i < |producers| ==> !producers[i].Saving?
    ensures Held(producers) == multiset{}
  {
    if producers != [] {
      HeldByNobody(producers[1..]);
    }
  }

  /**
   * Conservation: at every moment of every run, under every interleaving, the files that were
   * there at the start and everything accepted are exactly what has been sent, what is in flight,
   * queued, being spilled or on disk, and the files removed because they could not be mapped.
   */
  lemma {:induction false} Conservation(s: State, es: seq<Event>)
    requires Initial(s) && Legal(s, es)
    ensures Contents(s.disk) + multiset(Exec(s, es).accepted) == Custody(Exec(s, es))
  {
    hide Apply, Enabled;
    HeldByNobody(s.producers);
    var t := Exec(s, es);
    forall p: Payload
      ensures (Contents(s.disk) + multiset(t.accepted))[p] == Custody(t)[p]
    {
      RunCustody(s, es, p);
    }
  }

  // ----- What gets lost

  predicate AllEmpty(ps: seq<Payload>) {
    forall i :: 0 <= i < |ps| ==> ps[i] == []
  }

  /** Some scan met a file with bytes in it that could not be opened or mapped. */
  predicate MetUnmappable(s: State, es: seq<Event>)
    requires Legal(s, es)
    decreases |es|
  {
    es != [] &&
    var before, e := es[..|es| - 1], es[|es| - 1];
    MetUnmappable(s, before) || (e.ScanSkipped? && !e.maps && Exec(s, before).disk[e.name] != [])
  }

  lemma StepLost(s: State, e: Event)
    requires Enabled(s, e)
    ensures Apply(s, e).lost == if e.ScanSkipped? then s.lost + [s.disk[e.name]] else s.lost
    ensures e.ScanSkipped? && e.maps ==> s.disk[e.name] == []
  {
  }

  lemma {:induction false} LostWhenUnmappable(s: State, es: seq<Event>)
    requires Initial(s) && Legal(s, es)
    ensures AllEmpty(Exec(s, es).lost) <==> !MetUnmappable(s, es)
    decreases |es|
  {
    hide Apply;
    if es != [] {
      var before, e := es[..|es| - 1], es[|es| - 1];
      LostWhenUnmappable(s, before);
      var lost := Exec(s, before).lost;
      StepLost(Exec(s, before), e);
      if e.ScanSkipped? {
        var p := Exec(s, before).disk[e.name];
        assert AllEmpty(lost + [p]) <==> AllEmpty(lost) && p == [] by {
          assert (lost + [p])[|lost|] == p;
          assert forall i :: 0 <= i < |lost| ==> (lost + [p])[i] == lost[i];
        }
      }
    }
  }

  /** Where a payload is that is not lost. */
  ghost function Kept(s: State): multiset<Payload> {
    multiset(s.sent) + multiset(s.batch) + multiset(s.queue) + Held(s.producers) + Contents(s.disk)
  }

  /** Every payload with bytes in it that was there at the start or was accepted is still somewhere. */
  ghost predicate Conserved(start: State, s: State) {
    forall p: Payload :: p != [] ==> (Contents(start.disk) + multiset(s.accepted))[p] == Kept(s)[p]
  }

  /** A run keeps every payload if and only if no scan of it met a file that could not be mapped. */
  lemma {:induction false} ConservedIffFilesMap(s: State, es: seq<Event>)
    requires Initial(s) && Legal(s, es)
    ensures Conserved(s, Exec(s, es)) <==> !MetUnmappable(s, es)
  {
    hide Apply, Enabled, Contents, Held, MetUnmappable;
    Conservation(s, es);
    LostWhenUnmappable(s, es);
    var t := Exec(s, es);
    assert forall p: Payload :: Custody(t)[p] == Kept(t)[p] + multiset(t.lost)[p];
    if AllEmpty(t.lost) {
      assert forall p :: p in multiset(t.lost) ==> p in t.lost;
    } else {
      var i :| 0 <= i < |t.lost| && t.lost[i] != [];
      assert t.lost[i] in multiset(t.lost);
    }
  }

  /** Every directory entry that the scans of a run come to, as far as it is a file then. */
  function Scans(es: seq<Event>): seq<Entry> {
    if es == [] then []
    else
      var e := es[|es| - 1];
      Scans(es[..|es| - 1]) + Reached(e)
  }

  function Reached(e: Event): seq<Entry> {
    if e.ScanSent? || e.ScanFailed? then [Entry(e.name, true)]
    else if e.ScanSkipped? then [Entry(e.name, e.maps)]
    else []
  }

  predicate AllMap(entries: seq<Entry>) {
    forall i :: 0 <= i < |entries| ==> entries[i].maps
  }

  /** When all files that scans come to can be mapped, none is met that cannot. */
  lemma {:induction false} AllMapMeetsNone(s: State, es: seq<Event>)
    requires Legal(s, es) && AllMap(Scans(es))
    ensures !MetUnmappable(s, es)
    decreases |es|
  {
    hide Apply, Enabled;
    if es != [] {
      var before, e := es[..|es| - 1], es[|es| - 1];
      assert forall i :: 0 <= i < |Scans(before)| ==> Scans(es)[i] == Scans(before)[i];
      AllMapMeetsNone(s, before);
      if e.ScanSkipped? {
        assert Scans(es)[|Scans(before)|] == Entry(e.name, e.maps);
      }
    }
  }

  /** A first scan that meets a file with bytes in it and cannot map it: the file is gone, unsent. */
  lemma UnmappableFileLost(s: State, name: string, now: int) returns (es: seq<Event>)
    requires Initial(s) && s.mode == SendingFiles && name in s.disk && s.disk[name] != []
    ensures Legal(s, es) && !Conserved(s, Exec(s, es))
    ensures name !in Exec(s, es).disk && Exec(s, es).sent == []
  {
    hide Conserved;
    es := [];
    es := Then(s, es, ReadClock(now));
    es := Then(s, es, PassGate(true));
    es := Then(s, es, Choose);
    es := Then(s, es, OpenDirectory(true, true));
    assert Exec(s, es) == Connect(s.(now := now), true).(pc := Scanning);
    ghost var before := es;
    es := Then(s, es, ScanSkipped(name, false));
    assert es[..|es| - 1] == before;
    ConservedIffFilesMap(s, es);
  }

  // ----- Files

  lemma StepFile(s: State, e: Event, name: string)
    requires Enabled(s, e) && name in s.disk && !(e.Unlinks() && e.name == name)
    ensures name in Apply(s, e).disk && Apply(s, e).disk[name] == s.disk[name]
  {
    hide Apply;
    StepDisk(s, e);
  }

  /**
   * A file is never overwritten: from the save that made it until the scan that removes it, it
   * holds the same bytes, so what is sent from it is what was saved.
   */
  lemma {:induction false} FileKept(s: State, es: seq<Event>, name: string)
    requires Legal(s, es) && name in s.disk
    requires forall i :: 0 <= i < |es| && es[i].Unlinks() ==> es[i].name != name
    ensures name in Exec(s, es).disk && Exec(s, es).disk[name] == s.disk[name]
    decreases |es|
  {
    hide Apply, Enabled;
    if es != [] {
      FileKept(s, es[..|es| - 1], name);
      StepFile(Exec(s, es[..|es| - 1]), es[|es| - 1], name);
    }
  }

  /**
   * Disk round trip: a file made by a spill and not removed meanwhile puts on the network exactly
   * the payload that its producer was to save.
   */
  lemma {:induction false} SavedThenSent(s: State, es: seq<Event>, who: nat, name: string, fs: seq<Event>)
    requires Legal(s, es + [SpillSave(who, name)] + fs + [ScanSent(name)])
    requires forall i :: 0 <= i < |fs| && fs[i].Unlinks() ==> fs[i].name != name
    ensures Legal(s, es) && who < |Exec(s, es).producers| && Exec(s, es).producers[who].Saving?
    ensures var rest := Exec(s, es).producers[who].rest;
            var before := Exec(s, es + [SpillSave(who, name)] + fs);
            && rest != []
            && Exec(s, es + [SpillSave(who, name)] + fs + [ScanSent(name)]).sent == before.sent + [rest[0]]
  {
    hide Apply, Enabled;
    var save, sent := SpillSave(who, name), ScanSent(name);
    var upTo := es + [save];
    assert (upTo + fs + [sent])[..|upTo + fs|] == upTo + fs;
    LegalSplit(s, upTo, fs);
    assert upTo[..|es|] == es;
    AfterSave(Exec(s, es), who, name);
    FileKept(Exec(s, upTo), fs, name);
    AfterSent(Exec(s, upTo + fs), name);
  }

  lemma AfterSave(s: State, who: nat, name: string)
    requires Enabled(s, SpillSave(who, name))
    ensures who < |s.producers| && s.producers[who].Saving? && s.producers[who].rest != []
    ensures var t := Apply(s, SpillSave(who, name)); name in t.disk && t.disk[name] == s.producers[who].rest[0]
  {
  }

  lemma AfterSent(s: State, name: string)
    requires Enabled(s, ScanSent(name))
    ensures name in s.disk && Apply(s, ScanSent(name)).sent == s.sent + [s.disk[name]]
  {
  }

  // ----- Stopping

  predicate NoAccept(es: seq<Event>) {
    forall i :: 0 <= i < |es| ==> !es[i].Accept?
  }

  /** The pcs from the last pop of the queue on. */
  predicate Finishing(s: State) {
    s.pc == Draining || s.pc == Done
  }

  lemma StepFinishing(s: State, e: Event)
    requires Enabled(s, e) && Finishing(s) && s.queue == [] && !e.Accept?
    requires s.pc == Done ==> s.batch == []
    ensures Finishing(Apply(s, e)) && Apply(s, e).queue == []
    ensures Apply(s, e).pc == Done ==> Apply(s, e).batch == []
  {
  }

  lemma {:induction false} NothingComesBack(s: State, es: seq<Event>)
    requires Legal(s, es) && NoAccept(es) && Finishing(s) && s.queue == []
    requires s.pc == Done ==> s.batch == []
    ensures Finishing(Exec(s, es)) && Exec(s, es).queue == []
    ensures Exec(s, es).pc == Done ==> Exec(s, es).batch == []
    decreases |es|
  {
    hide Apply;
    if es != [] {
      NothingComesBack(s, es[..|es| - 1]);
      StepFinishing(Exec(s, es[..|es| - 1]), es[|es| - 1]);
    }
  }

  lemma FinalPopEmpties(s: State, es: seq<Event>)
    requires Legal(s, es + [FinalPop])
    ensures var t := Exec(s, es + [FinalPop]);
            Finishing(t) && t.queue == [] && (t.pc == Done ==> t.batch == [])
  {
    assert (es + [FinalPop])[..|es|] == es;
  }

  /**
   * Drain on stop: once run() has returned, if no producer was still at work and none came after
   * the last pop, memory is empty: all that was ever accepted or found on disk has been sent, is
   * on disk, or was a file that could not be mapped.
   */
  lemma DrainOnStop(s: State, es: seq<Event>, fs: seq<Event>)
    requires Initial(s) && Legal(s, es + [FinalPop] + fs) && NoAccept(fs)
    requires Exec(s, es + [FinalPop] + fs).pc == Done
    requires forall q :: q in Exec(s, es + [FinalPop] + fs).producers ==> !q.Saving?
    ensures var t := Exec(s, es + [FinalPop] + fs);
            && t.queue == [] && t.batch == []
            && Contents(s.disk) + multiset(t.accepted)
               == multiset(t.sent) + Contents(t.disk) + multiset(t.lost)
  {
    hide Apply;
    var upTo := es + [FinalPop];
    LegalSplit(s, upTo, fs);
    FinalPopEmpties(s, es);
    NothingComesBack(Exec(s, upTo), fs);
    Conservation(s, upTo + fs);
    HeldByNobody(Exec(s, upTo + fs).producers);
  }
}
