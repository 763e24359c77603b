/** Payloads that go from the queue to the network keep the order in which they were accepted. */
module SenderOrder {
  import opened Bytes
  import opened SenderProtocol
  import SenderCustody

  /** The queue line: what was sent from memory, then what is in flight, then what is queued. */
  function Line(s: State): seq<Payload> {
    s.direct + s.batch + s.queue
  }

  lemma SendNextLine(s: State, ok: bool, k: nat)
    requires Enabled(s, SendNext(ok, k))
    ensures Line(Apply(s, SendNext(ok, k))) == Line(s)
  {
    if ok {
      assert s.batch == [s.batch[0]] + s.batch[1..];
    }
  }

  /** Only spills take anything out of the line; a failed batch goes back to where it was. */
  lemma StepLine(s: State, e: Event)
    requires Coherent(s) && Enabled(s, e) && !e.Spills()
    ensures Line(Apply(s, e)) == Line(s) + e.Arriving()
    ensures Apply(s, e).accepted == s.accepted + e.Arriving()
  {
    if e.SendNext? {
      SendNextLine(s, e.ok, e.k);
    } else if e.Accept? {
      assert Line(Apply(s, e)) == s.direct + s.batch + (s.queue + e.ps);
    }
  }

  lemma StepSpillLine(s: State, e: Event)
    requires Coherent(s) && Enabled(s, e) && e.Spills()
    requires Subsequence(Line(s), s.accepted)
    ensures Subsequence(Line(Apply(s, e)), Apply(s, e).accepted)
  {
    if e.SpillPop? {
      assert s.direct + s.batch + s.queue + [] == Line(s);
      SubsequenceCut(s.direct + s.batch, s.queue, [], s.accepted);
      assert Line(Apply(s, e)) == s.direct + s.batch + [];
    } else {
      var rest := s.batch[1..] + s.queue;
      assert s.direct + [s.batch[0]] + rest == Line(s);
      SubsequenceCut(s.direct, [s.batch[0]], rest, s.accepted);
      assert Line(Apply(s, e)) == s.direct + rest;
    }
  }

  /**
   * No run reorders: whatever fails, is queued again or is spilled, the payloads sent from memory,
   * those in flight and those queued appear in this order among the accepted ones.
   */
  lemma {:induction false} NeverReordered(s: State, es: seq<Event>)
    requires Initial(s) && Legal(s, es)
    ensures Subsequence(Line(Exec(s, es)), Exec(s, es).accepted)
    decreases |es|
  {
    hide Apply;
    if es == [] {
      assert Line(s) == s.accepted;
      SubsequenceRefl(s.accepted);
    } else {
      var before, e := es[..|es| - 1], es[|es| - 1];
      NeverReordered(s, before);
      AlwaysCoherent(s, before);
      var m := Exec(s, before);
      if e.Spills() {
        StepSpillLine(m, e);
      } else {
        StepLine(m, e);
        SubsequenceExtend(Line(m), m.accepted, e.Arriving());
      }
    }
  }

  predicate NoSpill(es: seq<Event>) {
    forall i :: 0 <= i < |es| ==> !es[i].Spills()
  }

  /** Nothing on disk, nobody writing, everything sent came from the queue. */
  predicate MemoryOnly(s: State) {
    && s.disk == map[] && s.sent == s.direct
    && (forall i :: 0 <= i < |s.producers| ==> !s.producers[i].Saving?)
  }

  lemma StepMemoryOnly(s: State, e: Event)
    requires MemoryOnly(s) && Enabled(s, e) && !e.Spills()
    ensures MemoryOnly(Apply(s, e))
  {
  }

  /**
   * FIFO under failure: as long as nothing is spilled, what was sent, then what is in flight,
   * then what is queued is exactly the accepted sequence, however often a batch failed half-way
   * and was put back while producers kept appending.
   */
  lemma {:induction false} FifoWithoutSpill(s: State, es: seq<Event>)
    requires Initial(s) && s.disk == map[] && Legal(s, es) && NoSpill(es)
    ensures var t := Exec(s, es); t.sent + t.batch + t.queue == t.accepted && MemoryOnly(t)
    decreases |es|
  {
    hide Apply;
    if es != [] {
      var before, e := es[..|es| - 1], es[|es| - 1];
      FifoWithoutSpill(s, before);
      AlwaysCoherent(s, before);
      StepLine(Exec(s, before), e);
      StepMemoryOnly(Exec(s, before), e);
    }
  }

  lemma {:induction false} SubsequenceWhole<T>(a: seq<T>, b: seq<T>)
    requires Subsequence(a, b)
    ensures |a| <= |b| && (|a| == |b| ==> a == b)
    decreases |b|
  {
    if a != [] {
      if Subsequence(a, b[..|b| - 1]) {
        SubsequenceWhole(a, b[..|b| - 1]);
      } else {
        SubsequenceWhole(a[..|a| - 1], b[..|b| - 1]);
      }
    }
  }

  /** What was sent from memory is part of what was sent. */
  lemma {:induction false} DirectIsSent(s: State, es: seq<Event>)
    requires Initial(s) && Legal(s, es)
    ensures |Exec(s, es).direct| <= |Exec(s, es).sent|
    decreases |es|
  {
    hide Apply, Enabled;
    if es != [] {
      DirectIsSent(s, es[..|es| - 1]);
      StepDirect(Exec(s, es[..|es| - 1]), es[|es| - 1]);
    }
  }

  lemma StepDirect(s: State, e: Event)
    requires Enabled(s, e)
    ensures |Apply(s, e).direct| - |s.direct| <= |Apply(s, e).sent| - |s.sent|
  {
  }

  /** Every payload there is has been sent from memory, is in flight, or is queued. */
  ghost predicate AllInLine(s: State) {
    && |s.sent| == |s.direct| && s.lost == [] && s.disk == map[] && SenderCustody.Held(s.producers) == multiset{}
  }

  /** From an empty directory: the line is the accepted sequence exactly when nothing is elsewhere. */
  lemma {:induction false} FifoIffAllInLine(s: State, es: seq<Event>)
    requires Initial(s) && s.disk == map[] && Legal(s, es)
    ensures Line(Exec(s, es)) == Exec(s, es).accepted <==> AllInLine(Exec(s, es))
  {
    hide Apply, Enabled, SenderCustody.Held;
    var t := Exec(s, es);
    SenderCustody.Conservation(s, es);
    NeverReordered(s, es);
    DirectIsSent(s, es);
    SubsequenceWhole(Line(t), t.accepted);
    assert |multiset(t.accepted)| == |SenderCustody.Custody(t)|;
    assert |t.accepted| == |t.sent| + |t.batch| + |t.queue| + |SenderCustody.Held(t.producers)|
                           + |SenderCustody.Contents(t.disk)| + |t.lost|;
  }
}
