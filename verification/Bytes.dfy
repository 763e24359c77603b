/** Bytes, payloads and the few facts about flattening and ordering that every other module uses. */
module Bytes {

  newtype byte = x: int | 0 <= x < 0x100

  newtype uint32 = x: int | 0 <= x < 0x1_0000_0000

  /** The content of one buffer, or of one file of the spill directory. */
  type Payload = seq<byte>

  datatype Option<+T> = None | Some(value: T)

  /** The bytes of a list of payloads, one after the other. */
  ghost function Flatten(ps: seq<Payload>): seq<byte> {
    if ps == [] then [] else Flatten(ps[..|ps| - 1]) + ps[|ps| - 1]
  }

  lemma FlattenAppend(ps: seq<Payload>, p: Payload)
    ensures Flatten(ps + [p]) == Flatten(ps) + p
  {
    assert (ps + [p])[..|ps|] == ps;
  }

  /** A failed send leaves a proper prefix; an empty payload has only the empty one. */
  predicate CutAt(p: Payload, k: nat) {
    k < |p| || (k == 0 && p == [])
  }

  /** The elements of a occur in b, in the same order, possibly with others between them. */
  ghost predicate Subsequence<T>(a: seq<T>, b: seq<T>)
    decreases |b|
  {
    || a == []
    || (b != [] && a[|a| - 1] == b[|b| - 1] && Subsequence(a[..|a| - 1], b[..|b| - 1]))
    || (b != [] && Subsequence(a, b[..|b| - 1]))
  }

  lemma {:induction false} SubsequenceRefl<T>(a: seq<T>)
    ensures Subsequence(a, a)
  {
    if a != [] {
      SubsequenceRefl(a[..|a| - 1]);
    }
  }

  lemma {:induction false} SubsequenceExtend<T>(a: seq<T>, b: seq<T>, c: seq<T>)
    requires Subsequence(a, b)
    ensures Subsequence(a + c, b + c)
  {
    if c == [] {
      assert a + c == a && b + c == b;
    } else {
      var d := c[..|c| - 1];
      SubsequenceExtend(a, b, d);
      assert (a + c)[..|a + c| - 1] == a + d && (b + c)[..|b + c| - 1] == b + d;
    }
  }

  lemma {:induction false} SubsequenceWiden<T>(a: seq<T>, b: seq<T>, c: seq<T>)
    requires Subsequence(a, b)
    ensures Subsequence(a, b + c)
  {
    if c == [] {
      assert b + c == b;
    } else {
      var d := c[..|c| - 1];
      SubsequenceWiden(a, b, d);
      assert (b + c)[..|b + c| - 1] == b + d;
    }
  }

  lemma {:induction false} SubsequenceJoin<T>(a: seq<T>, b: seq<T>, c: seq<T>, d: seq<T>)
    requires Subsequence(a, b) && Subsequence(c, d)
    ensures Subsequence(a + c, b + d)
    decreases |d|
  {
    if c == [] {
      assert a + c == a;
      SubsequenceWiden(a, b, d);
    } else {
      var e := d[..|d| - 1];
      assert (b + d)[..|b + d| - 1] == b + e;
      if Subsequence(c, e) {
        SubsequenceJoin(a, b, c, e);
      } else {
        SubsequenceJoin(a, b, c[..|c| - 1], e);
        assert (a + c)[..|a + c| - 1] == a + c[..|c| - 1];
      }
    }
  }

  lemma {:induction false} SubsequenceMembers<T>(a: seq<T>, b: seq<T>)
    requires Subsequence(a, b)
    ensures forall x :: x in a ==> x in b
    decreases |b|
  {
    if a != [] {
      if Subsequence(a, b[..|b| - 1]) {
        SubsequenceMembers(a, b[..|b| - 1]);
      } else {
        SubsequenceMembers(a[..|a| - 1], b[..|b| - 1]);
        assert a == a[..|a| - 1] + [a[|a| - 1]];
      }
    }
  }

  /** Taking away a run of consecutive elements leaves a subsequence. */
  lemma {:induction false} SubsequenceCut<T>(a: seq<T>, x: seq<T>, b: seq<T>, c: seq<T>)
    requires Subsequence(a + x + b, c)
    ensures Subsequence(a + b, c)
    decreases |c|, |x|
  {
    var s := a + x + b;
    if a + b == [] {
    } else if x == [] {
      assert s == a + b;
    } else {
      var c' := c[..|c| - 1];
      if Subsequence(s, c') {
        SubsequenceCut(a, x, b, c');
      } else if b == [] {
        var x' := x[..|x| - 1];
        assert s[..|s| - 1] == a + x' + b;
        SubsequenceCut(a, x', b, c');
        assert Subsequence(a + b, c');
      } else {
        var b' := b[..|b| - 1];
        assert s[..|s| - 1] == a + x + b';
        SubsequenceCut(a, x, b', c');
        assert (a + b)[..|a + b| - 1] == a + b';
      }
    }
  }
}
