/** What each connection carries, over every run. */
module SenderWire {
  import opened Bytes
  import opened SenderProtocol

  /** Whole payloads, then at most one payload cut short. */
  ghost predicate Shaped(c: Connection) {
    exists tail: seq<byte> ::
      && c.bytes == Flatten(c.whole) + tail
      && match c.cut
         case None => tail == []
         case Some(p) => CutShort(tail, p)
  }

  /** A proper prefix; of an empty payload, the empty one. */
  predicate CutShort(tail: seq<byte>, p: Payload) {
    tail < p || (p == [] && tail == [])
  }

  /** All the payloads sent whole, connection by connection. */
  function Whole(cs: seq<Connection>): seq<Payload> {
    if cs == [] then [] else Whole(cs[..|cs| - 1]) + cs[|cs| - 1].whole
  }

  ghost predicate WireInvariant(s: State) {
    && (forall i :: 0 <= i < |s.conns| ==> Shaped(s.conns[i]))
    && (s.connected ==> s.conns != [] && s.conns[|s.conns| - 1].cut.None?)
    && Whole(s.conns) == s.sent
  }

  lemma WholeExtended(c: Connection, p: Payload)
    requires Shaped(c) && c.cut.None?
    ensures Shaped(Connection(c.bytes + p, c.whole + [p], None))
  {
    FlattenAppend(c.whole, p);
    var d := Connection(c.bytes + p, c.whole + [p], None);
    assert d.bytes == Flatten(d.whole) + [];
  }

  lemma CutOff(c: Connection, p: Payload, k: nat)
    requires Shaped(c) && c.cut.None? && CutAt(p, k)
    ensures Shaped(Connection(c.bytes + p[..k], c.whole + [], Some(p)))
  {
    assert c.whole + [] == c.whole;
    var d := Connection(c.bytes + p[..k], c.whole + [], Some(p));
    assert d.bytes == Flatten(d.whole) + p[..k] && CutShort(p[..k], p);
  }

  lemma OnWireWhole(cs: seq<Connection>, out: seq<byte>, whole: seq<Payload>, cut: Option<Payload>)
    requires cs != []
    ensures Whole(OnWire(cs, out, whole, cut)) == Whole(cs) + whole
  {
    var n := |cs| - 1;
    assert OnWire(cs, out, whole, cut)[..n] == cs[..n];
    assert Whole(cs[..n]) + (cs[n].whole + whole) == (Whole(cs[..n]) + cs[n].whole) + whole;
  }

  lemma SendWholeWire(s: State, p: Payload)
    requires WireInvariant(s) && s.connected
    ensures WireInvariant(SendWhole(s, p))
  {
    WholeExtended(s.conns[|s.conns| - 1], p);
    OnWireWhole(s.conns, p, [p], None);
  }

  lemma SendCutWire(s: State, p: Payload, k: nat)
    requires WireInvariant(s) && s.connected && CutAt(p, k)
    ensures WireInvariant(SendCut(s, p, k))
  {
    CutOff(s.conns[|s.conns| - 1], p, k);
    OnWireWhole(s.conns, p[..k], [], Some(p));
    assert s.sent + [] == s.sent;
  }

  lemma ConnectWire(s: State, ok: bool)
    requires WireInvariant(s)
    ensures WireInvariant(Connect(s, ok))
  {
    var c := Connection([], [], None);
    assert c.bytes == Flatten(c.whole) + [];
    assert (s.conns + [c])[..|s.conns|] == s.conns;
  }

  lemma SameWire(s: State, t: State)
    requires s.conns == t.conns && s.sent == t.sent && (t.connected ==> s.connected) && WireInvariant(s)
    ensures WireInvariant(t)
  {
  }

  lemma StepWire(s: State, e: Event)
    requires WireInvariant(s) && Coherent(s) && Enabled(s, e)
    ensures WireInvariant(Apply(s, e))
  {
    hide WireInvariant;
    match e
    case SendNext(ok, k) =>
      if ok {
        SendWholeWire(s, s.batch[0]);
        SameWire(SendWhole(s, s.batch[0]), Apply(s, e));
      } else {
        SendCutWire(s, s.batch[0], k);
        SameWire(SendCut(s, s.batch[0], k), Apply(s, e));
      }
    case ScanSent(name) =>
      SendWholeWire(s, s.disk[name]);
      SameWire(SendWhole(s, s.disk[name]), Apply(s, e));
    case ScanFailed(name, k) =>
      SendCutWire(s, s.disk[name], k);
      SameWire(SendCut(s, s.disk[name], k), Apply(s, e));
    case _ => StepConnectWire(s, e);
  }

  lemma StepConnectWire(s: State, e: Event)
    requires WireInvariant(s) && Enabled(s, e)
    requires !e.SendNext? && !e.ScanSent? && !e.ScanFailed?
    ensures WireInvariant(Apply(s, e))
  {
    hide WireInvariant;
    if e.PassGate? || e.BatchConnect? || e.OpenDirectory? {
      ConnectWire(s, e.ok);
      if Apply(s, e).conns == s.conns && !Apply(s, e).connected {
        SameWire(s, Apply(s, e));
      } else if s.connected {
        SameWire(s, Apply(s, e));
      } else {
        SameWire(Connect(s, e.ok), Apply(s, e));
      }
    } else {
      SameWire(s, Apply(s, e));
    }
  }

  /**
   * Byte-stream shape: in every run, the bytes of every connection are whole payloads one after
   * the other, followed by at most a proper prefix of one payload whose send failed; a connection
   * that carries such a prefix is closed.  The whole payloads of all connections, in order, are
   * exactly the payloads counted as sent.
   */
  lemma {:induction false} StreamShape(s: State, es: seq<Event>)
    requires Initial(s) && Legal(s, es)
    ensures WireInvariant(Exec(s, es))
    decreases |es|
  {
    hide Apply;
    if es != [] {
      StreamShape(s, es[..|es| - 1]);
      AlwaysCoherent(s, es[..|es| - 1]);
      StepWire(Exec(s, es[..|es| - 1]), es[|es| - 1]);
    }
  }

  /** The connections that can no longer be written to: all but the open one. */
  function Closed(s: State): nat {
    if s.connected && s.conns != [] then |s.conns| - 1 else |s.conns|
  }

  lemma StepClosed(s: State, e: Event)
    requires Coherent(s) && Enabled(s, e)
    ensures Closed(s) <= Closed(Apply(s, e)) && s.conns[..Closed(s)] == Apply(s, e).conns[..Closed(s)]
  {
    if !(e.SendNext? || e.ScanSent? || e.ScanFailed?) {
      assert s.conns <= Apply(s, e).conns;
    }
  }

  /** A closed connection is never written again: nothing recorded about it ever changes. */
  lemma {:induction false} ClosedForGood(s: State, es: seq<Event>)
    requires Coherent(s) && Legal(s, es)
    ensures Coherent(Exec(s, es)) && Closed(s) <= Closed(Exec(s, es))
    ensures s.conns[..Closed(s)] == Exec(s, es).conns[..Closed(s)]
    decreases |es|
  {
    hide Apply;
    if es != [] {
      var m := Exec(s, es[..|es| - 1]);
      ClosedForGood(s, es[..|es| - 1]);
      StepCoherent(m, es[|es| - 1]);
      StepClosed(m, es[|es| - 1]);
      assert m.conns[..Closed(m)][..Closed(s)] == m.conns[..Closed(s)];
      assert Exec(s, es).conns[..Closed(m)][..Closed(s)] == Exec(s, es).conns[..Closed(s)];
    }
  }
}
