/** How often run() may try to connect. */
module SenderTiming {
  import opened SenderProtocol

  /** What the clock was at each read. */
  function Clocks(es: seq<Event>): seq<int> {
    if es == [] then []
    else
      var e := es[|es| - 1];
      Clocks(es[..|es| - 1]) + if e.ReadClock? then [e.t] else []
  }

  /** The clock is never set back between two reads. */
  predicate Forward(clocks: seq<int>) {
    forall i :: 0 < i < |clocks| ==> clocks[i - 1] <= clocks[i]
  }

  /** Consecutive attempts are recorded at least the reconnection time apart. */
  predicate Spaced(attempts: seq<int>) {
    forall i :: 0 < i < |attempts| ==> attempts[i] - attempts[i - 1] >= RECONNECTION_TIME
  }

  /** An attempt made now would keep the distance. */
  predicate MayConnect(s: State) {
    s.attempts == [] || s.now - s.attempts[|s.attempts| - 1] >= RECONNECTION_TIME
  }

  /**
   * Whoever is disconnected without error_sending being set may connect at once; the one pc excepted
   * is where a send or an attempt has just failed and error_sending is about to be set.
   */
  predicate Timely(s: State) {
    && Spaced(s.attempts)
    && (s.attempts != [] ==> s.attempts[|s.attempts| - 1] <= s.lastOp <= s.now)
    && (!s.connected && !s.error && s.pc != Returning ==> MayConnect(s))
  }

  lemma ConnectTimely(s: State, e: Event)
    requires Timely(s) && Coherent(s) && Enabled(s, e)
    requires e.PassGate? || e.BatchConnect? || e.OpenDirectory?
    ensures Timely(Apply(s, e))
  {
  }

  lemma OtherTimely(s: State, e: Event)
    requires Timely(s) && Coherent(s) && Enabled(s, e)
    requires !e.PassGate? && !e.BatchConnect? && !e.OpenDirectory?
    requires e.ReadClock? && s.attempts != [] ==> s.now <= e.t
    ensures Timely(Apply(s, e))
  {
    assert Apply(s, e).attempts == s.attempts;
  }

  lemma StepTimely(s: State, e: Event)
    requires Timely(s) && Coherent(s) && Enabled(s, e)
    requires e.ReadClock? && s.attempts != [] ==> s.now <= e.t
    ensures Timely(Apply(s, e))
  {
    hide Apply, Enabled, Timely, Coherent;
    if e.PassGate? || e.BatchConnect? || e.OpenDirectory? {
      ConnectTimely(s, e);
    } else {
      OtherTimely(s, e);
    }
  }

  /** The clock as run() knows it is the last one read; before the first read nothing was tried. */
  predicate KnowsClock(s: State, clocks: seq<int>) {
    if clocks == [] then s.pc == Top && s.attempts == [] else s.now == clocks[|clocks| - 1]
  }

  lemma StepKnowsClock(s: State, clocks: seq<int>, e: Event)
    requires KnowsClock(s, clocks) && Enabled(s, e)
    ensures KnowsClock(Apply(s, e), clocks + if e.ReadClock? then [e.t] else [])
  {
  }

  /**
   * Reconnect spacing: in one run() with a clock that is never set back, any two consecutive real
   * connection attempts are recorded at least 30 seconds apart, whether the connection between
   * them ended by a failed send, by the peer, by the idle timeout, or never came to be.
   */
  lemma {:induction false} ReconnectSpacing(s: State, es: seq<Event>)
    requires Initial(s) && Legal(s, es) && Forward(Clocks(es))
    ensures Timely(Exec(s, es)) && KnowsClock(Exec(s, es), Clocks(es))
    ensures Spaced(Exec(s, es).attempts)
    decreases |es|
  {
    hide Apply;
    if es != [] {
      var before, e := es[..|es| - 1], es[|es| - 1];
      assert forall i :: 0 <= i < |Clocks(before)| ==> Clocks(es)[i] == Clocks(before)[i];
      ReconnectSpacing(s, before);
      AlwaysCoherent(s, before);
      StepKnowsClock(Exec(s, before), Clocks(before), e);
      if e.ReadClock? && Clocks(before) != [] {
        assert Clocks(es)[|Clocks(before)| - 1] <= Clocks(es)[|Clocks(before)|];
      }
      StepTimely(Exec(s, before), e);
    }
  }
}
