/**
 * sender::save_buffers() (net/sender.cpp) as it is written, when saves can fail: the branch for a
 * failed save returns the buffer to the allocator, but neither advances to the next buffer nor
 * stops.
 */
module SpillFailure {
  import opened BufferNodes
  import opened BufferQueue

  datatype End =
    | Returned(ok: bool)
    | NullBuffer     // save_buffer() is called with a null buffer
    | GoingOn        // the answers have run out

  /** How the loop fares as long as saves succeed. */
  datatype Walk = Finished | Failed | Cut

  /** From these nodes next leads to one another or to null. */
  ghost predicate ClosedUnderNext(nodes: set<Buffer>)
    reads nodes
  {
    forall b :: b in nodes ==> b.next == null || b.next in nodes
  }

  lemma FreeClosed(allocator: Allocator, nodes: set<Buffer>)
    requires allocator.Valid() && nodes == set b | b in allocator.free
    ensures ClosedUnderNext(nodes)
  {
    hide Distinct;
    forall b | b in nodes
      ensures b.next == null || b.next in nodes
    {
      var i := Index(allocator.free, b);
      assert i < |allocator.free| - 1 ==> b.next == allocator.free[i + 1] && allocator.free[i + 1] in allocator.free;
    }
  }

  function Backwards(s: seq<Buffer>): seq<Buffer> {
    if s == [] then [] else [s[|s| - 1]] + Backwards(s[..|s| - 1])
  }

  lemma BackwardsMore(s: seq<Buffer>, x: Buffer)
    ensures Backwards(s + [x]) == [x] + Backwards(s)
  {
    assert (s + [x])[..|s|] == s;
  }

  lemma BackwardsSame(s: seq<Buffer>)
    ensures forall x :: x in Backwards(s) <==> x in s
  {
    if s != [] {
      BackwardsSame(s[..|s| - 1]);
      assert s == s[..|s| - 1] + [s[|s| - 1]];
    }
  }

  lemma FreeWithin(chain: seq<Buffer>, done: seq<Buffer>, free: seq<Buffer>)
    requires done <= chain
    ensures forall x :: x in Backwards(done) + free ==> x in chain || x in free
  {
    BackwardsSame(done);
    assert forall x :: x in done ==> x in chain;
  }

  /** The first n saves succeed. */
  predicate AllSaved(saves: seq<bool>, n: nat) {
    n <= |saves| && forall i :: 0 <= i < n ==> saves[i]
  }

  /** The first save to fail is that of the last of n buffers, and it succeeds when tried again. */
  predicate LastSavedLater(saves: seq<bool>, n: nat) {
    0 < n <= |saves| && AllSaved(saves, n - 1) && !saves[n - 1] && exists j :: n <= j < |saves| && saves[j]
  }

  ghost predicate Apart(a: seq<Buffer>, b: seq<Buffer>) {
    forall x :: x in a ==> x !in b
  }

  /** The buffers of rest are to be saved, from at on to last; none of them is free. */
  ghost predicate Ahead(allocator: Allocator, at: Buffer?, last: Buffer, rest: seq<Buffer>)
    reads allocator, allocator.free`next, rest`next
  {
    allocator.Valid() && Chain(at, last, rest) && Apart(rest, allocator.free)
  }

  lemma WhatIsAhead(allocator: Allocator, at: Buffer?, last: Buffer, rest: seq<Buffer>)
    requires Ahead(allocator, at, last, rest)
    ensures allocator.Valid() && rest != [] && at == rest[0] && last in rest && last !in allocator.free
  {
  }

  /** One save: the first node of the chain goes on top of the free list. */
  method PutSaved(allocator: Allocator, at: Buffer, last: Buffer, ghost rest: seq<Buffer>) returns (next: Buffer?)
    requires Ahead(allocator, at, last, rest)
    modifies allocator, at`next
    ensures allocator.Valid() && allocator.free == [at] + old(allocator.free) && allocator.first == at
    ensures at == last <==> |rest| == 1
    ensures at != last ==> Ahead(allocator, next, last, rest[1..])
  {
    next := at.next;
    assert |rest| > 1 ==> rest[0] != rest[|rest| - 1];
    allocator.Put(at);
  }

  lemma OneMore(chain: seq<Buffer>, n: nat)
    requires n < |chain|
    ensures Backwards(chain[..n + 1]) == [chain[n]] + Backwards(chain[..n])
    ensures chain[n..][1..] == chain[n + 1..] && chain[n..][0] == chain[n]
  {
    assert chain[..n + 1] == chain[..n] + [chain[n]];
    BackwardsMore(chain[..n], chain[n]);
  }

  lemma NoneYet(chain: seq<Buffer>)
    ensures Backwards(chain[..0]) == [] && chain[0..] == chain
  {
  }

  /** The loop up to the first save that fails; used is how many saves there were. */
  method UpToFailure(allocator: Allocator, first: Buffer, last: Buffer, saves: seq<bool>, ghost chain: seq<Buffer>)
    returns (at: Buffer, used: nat, walk: Walk)
    requires Ahead(allocator, first, last, chain)
    modifies allocator, chain
    ensures used <= |saves| && used <= |chain|
    ensures allocator.Valid() && allocator.free == Backwards(chain[..used]) + old(allocator.free)
    ensures match walk
            case Finished => AllSaved(saves, used) && used == |chain|
            case Failed => 0 < used && AllSaved(saves, used - 1) && !saves[used - 1]
            case Cut => AllSaved(saves, used) && used == |saves| < |chain|
    ensures walk.Failed? ==> at == chain[used - 1] && allocator.first == at
    ensures walk.Failed? ==> (at == last <==> used == |chain|) && (at != last ==> last !in allocator.free)
  {
    hide Ahead, NullTerminated, Chain, Apart, Linked, Distinct, Backwards;
    WhatIsAhead(allocator, first, last, chain);
    NoneYet(chain);
    at, used, walk := first, 0, Cut;
    while used < |saves|
      invariant used <= |saves| && used < |chain| && AllSaved(saves, used)
      invariant allocator.free == Backwards(chain[..used]) + old(allocator.free)
      invariant Ahead(allocator, at, last, chain[used..])
      decreases |saves| - used
    {
      WhatIsAhead(allocator, at, last, chain[used..]);
      OneMore(chain, used);
      var next := PutSaved(allocator, at, last, chain[used..]);
      used := used + 1;
      if at != last {
        WhatIsAhead(allocator, next, last, chain[used..]);
      }
      if !saves[used - 1] {
        return at, used, Failed;
      } else if at == last {
        return at, used, Finished;
      }
      at := next;
    }
    WhatIsAhead(allocator, at, last, chain[used..]);
  }

  /**
   * The walk over a popped chain; saves tells for each save_buffer() whether it succeeds.  It
   * returns true exactly when every save succeeds; then the allocator has each node of the chain,
   * once.  It returns false only when the save that fails first is that of the last buffer and a
   * later one succeeds; then the free list is a loop.  In all other cases it does not return.
   */
  method SaveBuffers(allocator: Allocator, first: Buffer, last: Buffer, saves: seq<bool>, ghost chain: seq<Buffer>)
    returns (end: End)
    requires Ahead(allocator, first, last, chain)
    modifies allocator, chain, allocator.free
    ensures end == Returned(true) <==> AllSaved(saves, |chain|)
    ensures end == Returned(false) <==> LastSavedLater(saves, |chain|)
    ensures end == Returned(true) ==> allocator.Valid() && allocator.free == Backwards(chain) + old(allocator.free)
    ensures end == Returned(false) ==> forall nodes :: !NullTerminated(allocator.first, nodes)
  {
    ghost var all := (set b | b in chain) + (set b | b in allocator.free);
    WhatIsAhead(allocator, first, last, chain);
    hide Ahead, Looping, NullTerminated, Chain, Apart;
    var at, used, walk := UpToFailure(allocator, first, last, saves, chain);
    match walk
    case Finished =>
      assert chain[..used] == chain;
      end := Returned(true);
    case Failed =>
      // `at` is free, and is still the next buffer to be saved
      FreeWithin(chain, chain[..used], old(allocator.free));
      ghost var nodes := set b | b in allocator.free;
      assert nodes <= all;
      assert at in chain[..used] && at == allocator.free[0];
      end := AfterFailure(allocator, at, last, saves, used, nodes);
    case Cut =>
      end := GoingOn;
  }

  /** The same loop once a save has failed. */
  method AfterFailure(allocator: Allocator, at: Buffer, last: Buffer, saves: seq<bool>, from: nat,
                      ghost nodes: set<Buffer>)
    returns (end: End)
    requires from <= |saves| && allocator.Valid() && nodes == set b | b in allocator.free
    requires allocator.first == at && at in allocator.free && (last in allocator.free ==> at == last)
    modifies allocator, nodes
    ensures end == Returned(false) <==> at == last && exists j :: from <= j < |saves| && saves[j]
    ensures end != Returned(true)
    ensures end == Returned(false) ==> forall nodes :: !NullTerminated(allocator.first, nodes)
  {
    if at == last {
      end := AfterLast(allocator, last, saves, from);
    } else {
      FreeClosed(allocator, nodes);
      end := AfterEarlier(allocator, at, last, saves, from, nodes);
    }
  }

  /** The same loop once the save of the last buffer has failed. */
  method AfterLast(allocator: Allocator, last: Buffer, saves: seq<bool>, from: nat) returns (end: End)
    requires from <= |saves| && allocator.Valid() && last in allocator.free
    modifies allocator, last
    ensures end == Returned(false) <==> exists j :: from <= j < |saves| && saves[j]
    ensures end == Returned(false) || end == GoingOn
    ensures end == Returned(false) ==> forall nodes :: !NullTerminated(allocator.first, nodes)
  {
    hide Looping, NullTerminated;
    var used := from;
    ghost var loop := [];
    while used < |saves|
      invariant from <= used <= |saves| && forall j :: from <= j < used ==> !saves[j]
      invariant if loop == [] then allocator.Valid() && last in allocator.free else Looping(allocator.first, loop)
    {
      loop := PutAgain(allocator, last, loop);
      if saves[used] {
        forall nodes ensures !NullTerminated(allocator.first, nodes) {
          LoopingIsNotTerminated(allocator.first, loop, nodes);
        }
        return Returned(false);
      }
      used := used + 1;
    }
    end := GoingOn;
  }

  /** The same loop once an earlier save has failed: it never comes to the last buffer. */
  method AfterEarlier(allocator: Allocator, first: Buffer, last: Buffer, saves: seq<bool>, from: nat,
                      ghost nodes: set<Buffer>)
    returns (end: End)
    requires from <= |saves| && first in nodes && last !in nodes
    requires allocator.first in nodes && ClosedUnderNext(nodes)
    modifies allocator, nodes
    ensures !end.Returned?
  {
    var at, used := first, from;
    while used < |saves|
      invariant from <= used <= |saves|
      invariant at in nodes && allocator.first in nodes && ClosedUnderNext(nodes)
    {
      assert at != last;
      var next := at.next;
      allocator.Put(at);
      if saves[used] {
        if next == null {
          return NullBuffer;
        }
        at := next;
      }
      used := used + 1;
    }
    end := GoingOn;
  }

  /** allocator::put() of a buffer that is free already, or on a list that loops already. */
  method PutAgain(allocator: Allocator, b: Buffer, ghost loop: seq<Buffer>) returns (ghost longer: seq<Buffer>)
    requires loop != [] ==> Looping(allocator.first, loop)
    requires loop == [] ==> allocator.Valid() && b in allocator.free
    modifies allocator, b`next
    ensures allocator.first == b && b.next == old(allocator.first)
    ensures longer != [] && Looping(allocator.first, longer)
  {
    allocator.Put(b);
    if loop != [] {
      var j := Index(loop, b);
      longer := [b] + loop[..j];
      assert forall i :: 0 <= i < j ==> loop[i] != b && longer[i + 1] == loop[i];
    } else {
      longer :| Looping(allocator.first, longer);
    }
  }

  /** One buffer whose save fails and then succeeds is all it takes. */
  method OneBufferFailsOnce(allocator: Allocator, buf: Buffer) returns (end: End)
    requires allocator.Valid() && buf !in allocator.free
    modifies allocator, buf, allocator.free
    ensures end == Returned(false) && forall nodes :: !NullTerminated(allocator.first, nodes)
  {
    assert LastSavedLater([false, true], 1) by {
      assert [false, true][1];
    }
    end := SaveBuffers(allocator, buf, buf, [false, true], [buf]);
  }
}
