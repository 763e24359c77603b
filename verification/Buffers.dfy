/** net/buffers.h and net/buffers.cpp: the queue, a ring of buffers around a sentinel. */
module BufferQueue {
  import opened BufferNodes

  /** From header, next visits nodes in order and comes back; header.prev is the last of them. */
  ghost predicate Ring(header: Buffer, nodes: seq<Buffer>)
    reads header`next, header`prev, nodes`next
  {
    && Distinct(nodes) && header !in nodes
    && header.next == (if nodes == [] then header else nodes[0])
    && header.prev == (if nodes == [] then header else nodes[|nodes| - 1])
    && Linked(nodes)
    && (nodes != [] ==> nodes[|nodes| - 1].next == header)
  }

  /** Following prev visits the same nodes backwards. */
  ghost predicate BackLinked(header: Buffer, nodes: seq<Buffer>)
    reads nodes`prev
  {
    && (nodes != [] ==> nodes[0].prev == header)
    && BackChain(nodes)
  }

  /** A detached list as callers hand it in or get it back: next leads from first to last. */
  predicate Chain(first: Buffer?, last: Buffer?, nodes: seq<Buffer>)
    reads nodes`next
  {
    && nodes != [] && Distinct(nodes)
    && first == nodes[0] && last == nodes[|nodes| - 1]
    && Linked(nodes)
  }

  ghost predicate BackChain(nodes: seq<Buffer>)
    reads nodes`prev
  {
    forall i :: 0 < i < |nodes| ==> nodes[i].prev == nodes[i - 1]
  }

  /** Two lists tied together, and around the sentinel, make a ring. */
  lemma RingJoin(header: Buffer, a: seq<Buffer>, b: seq<Buffer>)
    requires Distinct(a + b) && header !in a && header !in b
    requires Linked(a) && Linked(b) && (a != [] && b != [] ==> a[|a| - 1].next == b[0])
    requires header.next == (if a != [] then a[0] else if b != [] then b[0] else header)
    requires var c := if b != [] then b else a;
             header.prev == (if c == [] then header else c[|c| - 1]) && header.prev.next == header
    ensures Ring(header, a + b)
  {
  }

  lemma BackJoin(header: Buffer, a: seq<Buffer>, b: seq<Buffer>)
    requires BackChain(a) && BackChain(b)
    requires a != [] ==> a[0].prev == header
    requires b != [] ==> b[0].prev == if a != [] then a[|a| - 1] else header
    ensures BackLinked(header, a + b)
  {
  }

  /** In a concatenation without repetition the end nodes of either part occur only there. */
  lemma EndsApart<T>(a: seq<T>, b: seq<T>)
    requires Distinct(a + b)
    ensures a != [] ==> a[0] !in b && a[0] !in a[1..] && a[|a| - 1] !in b && a[|a| - 1] !in a[..|a| - 1]
    ensures b != [] ==> b[0] !in a && b[0] !in b[1..] && b[|b| - 1] !in a && b[|b| - 1] !in b[..|b| - 1]
  {
    var c := a + b;
    assert forall i :: 0 <= i < |a| ==> c[i] == a[i];
    assert forall j :: 0 <= j < |b| ==> c[|a| + j] == b[j];
  }

  /** One operation of another thread on the queue; a chain it pushes it has linked before. */
  datatype Use =
    | UsePushFront(buf: Buffer)
    | UsePushFrontChain(chain: seq<Buffer>)
    | UsePushBack(buf: Buffer)
    | UsePushBackChain(chain: seq<Buffer>)
    | UsePopFront
    | UsePop
  {
    /** What is pushed. */
    function Nodes(): seq<Buffer> {
      match this
      case UsePushFront(buf) => [buf]
      case UsePushFrontChain(chain) => chain
      case UsePushBack(buf) => [buf]
      case UsePushBackChain(chain) => chain
      case _ => []
    }
  }

  function AfterUse(q: seq<Buffer>, u: Use): seq<Buffer> {
    match u
    case UsePushFront(buf) => [buf] + q
    case UsePushFrontChain(chain) => chain + q
    case UsePushBack(buf) => q + [buf]
    case UsePushBackChain(chain) => q + chain
    case UsePopFront => if q == [] then q else q[1..]
    case UsePop => []
  }

  function AfterUses(q: seq<Buffer>, us: seq<Use>): seq<Buffer>
    decreases |us|
  {
    if us == [] then q else AfterUses(AfterUse(q, us[0]), us[1..])
  }

  /** Nobody pushes a buffer twice, or one that is queued already. */
  predicate Allowed(header: Buffer, q: seq<Buffer>, us: seq<Use>)
    decreases |us|
  {
    us != [] ==>
      && Distinct(us[0].Nodes() + q) && header !in us[0].Nodes()
      && (us[0].UsePushFrontChain? || us[0].UsePushBackChain? ==> us[0].chain != [])
      && Allowed(header, AfterUse(q, us[0]), us[1..])
  }

  function Pushed(us: seq<Use>): set<Buffer> {
    set u, b | u in us && b in u.Nodes() :: b
  }

  lemma {:induction false} AfterUsesWithin(q: seq<Buffer>, us: seq<Use>)
    ensures forall b :: b in AfterUses(q, us) ==> b in q || b in Pushed(us)
    decreases |us|
  {
    if us != [] {
      AfterUsesWithin(AfterUse(q, us[0]), us[1..]);
      assert us[0] in us;
      assert forall u :: u in us[1..] ==> u in us;
      assert forall b :: b in AfterUse(q, us[0]) ==> b in q || b in us[0].Nodes();
    }
  }

  function PushedIn(waits: seq<seq<Use>>): set<Buffer> {
    set us, u, b | us in waits && u in us && b in u.Nodes() :: b
  }

  lemma DistinctSwap<T>(a: seq<T>, b: seq<T>)
    requires Distinct(a + b)
    ensures Distinct(b + a)
  {
    var c := a + b;
    assert forall i :: 0 <= i < |a| ==> c[i] == a[i];
    assert forall j :: 0 <= j < |b| ==> c[|a| + j] == b[j];
  }

  lemma DistinctPart<T>(a: seq<T>, b: seq<T>)
    requires Distinct(a + b)
    ensures Distinct(a) && forall x :: x in a ==> x !in b
  {
    var c := a + b;
    assert forall i :: 0 <= i < |a| ==> c[i] == a[i];
    assert forall j :: 0 <= j < |b| ==> c[|a| + j] == b[j];
  }

  /** The queue is looked at after every wait: when it is not empty, waiting is over. */
  predicate AllowedWaits(header: Buffer, q: seq<Buffer>, waits: seq<seq<Use>>)
    decreases |waits|
  {
    q == [] && waits != [] ==>
      Allowed(header, q, waits[0]) && AllowedWaits(header, AfterUses(q, waits[0]), waits[1..])
  }

  /** The queue as it is when a timed pop decides what to return. */
  function Seen(q: seq<Buffer>, signalled: seq<seq<Use>>): seq<Buffer>
    decreases |signalled|
  {
    if q != [] || signalled == [] then q else Seen(AfterUses(q, signalled[0]), signalled[1..])
  }

  /** The waits from the i-th on, on a queue that is empty. */
  function WaitsFrom(signalled: seq<seq<Use>>, timedOut: seq<Use>, i: nat): seq<seq<Use>>
    requires i <= |signalled|
  {
    signalled[i..] + [timedOut]
  }

  /** One more wait: what others may do meanwhile, and what is left to wait for. */
  lemma NextWait(header: Buffer, signalled: seq<seq<Use>>, timedOut: seq<Use>, i: nat)
    requires i < |signalled| && AllowedWaits(header, [], WaitsFrom(signalled, timedOut, i))
    ensures Allowed(header, [], signalled[i])
    ensures AllowedWaits(header, AfterUses([], signalled[i]), WaitsFrom(signalled, timedOut, i + 1))
    ensures Seen([], signalled[i..]) == Seen(AfterUses([], signalled[i]), signalled[i + 1..])
    ensures Pushed(signalled[i]) <= PushedIn(signalled + [timedOut])
    ensures forall b :: b in AfterUses([], signalled[i]) ==> b in PushedIn(signalled + [timedOut])
  {
    var waits := WaitsFrom(signalled, timedOut, i);
    assert waits[0] == signalled[i] && waits[1..] == WaitsFrom(signalled, timedOut, i + 1);
    assert signalled[i..][1..] == signalled[i + 1..];
    assert signalled[i] in signalled + [timedOut];
    AfterUsesWithin([], signalled[i]);
  }

  /** The wait that times out. */
  lemma LastWait(header: Buffer, signalled: seq<seq<Use>>, timedOut: seq<Use>)
    requires AllowedWaits(header, [], WaitsFrom(signalled, timedOut, |signalled|))
    ensures Allowed(header, [], timedOut)
    ensures Seen([], signalled[|signalled|..]) == []
    ensures Pushed(timedOut) <= PushedIn(signalled + [timedOut])
  {
    assert WaitsFrom(signalled, timedOut, |signalled|) == [timedOut];
    assert timedOut in signalled + [timedOut];
  }

  lemma SeenAtOnce(q: seq<Buffer>, signalled: seq<seq<Use>>)
    ensures q != [] ==> Seen(q, signalled) == q
  {
  }

  class Buffers {
    const header: Buffer
    var count: nat
    ghost var nodes: seq<Buffer>

    ghost predicate Valid()
      reads this, header`next, header`prev, nodes`next
    {
      Ring(header, nodes) && count == |nodes|
    }

    ghost predicate TwoWay()
      reads this, nodes`prev
    {
      BackLinked(header, nodes)
    }

    constructor ()
      ensures Valid() && TwoWay() && nodes == [] && fresh(header)
    {
      var sentinel := new Buffer();
      header := sentinel;
      count := 0;
      nodes := [];
      new;
      header.prev := header;
      header.next := header;
    }

    /** buffers::distance(): the number of nodes from first to last. */
    static method Distance(first: Buffer, last: Buffer, ghost chain: seq<Buffer>) returns (n: nat)
      requires Chain(first, last, chain)
      ensures n == |chain|
    {
      n := 1;
      var at := first;
      while at != last
        invariant 1 <= n <= |chain| && at == chain[n - 1]
        decreases |chain| - n
      {
        at := at.next;
        n := n + 1;
      }
    }

    method PushFront(buf: Buffer) returns (n: nat)
      requires Valid() && buf !in nodes && buf != header
      modifies this, header`prev, header`next, nodes`prev, nodes`next, buf`prev, buf`next
      ensures Valid() && nodes == [buf] + old(nodes) && n == |nodes|
      ensures old(TwoWay()) ==> TwoWay()
    {
      buf.prev := header;
      buf.next := header.next;
      header.next.prev := buf;
      header.next := buf;
      count := count + 1;
      n := count;
      nodes := [buf] + nodes;
    }

    method PushFrontChain(first: Buffer, last: Buffer, ghost chain: seq<Buffer>) returns (n: nat)
      requires Valid() && Chain(first, last, chain)
      requires header !in chain && Distinct(chain + nodes)
      modifies this, header`prev, header`next, nodes`prev, nodes`next, first`prev, last`next
      ensures Valid() && nodes == chain + old(nodes) && n == |nodes|
      ensures old(TwoWay() && BackChain(chain)) ==> TwoWay()
    {
      n := Distance(first, last, chain);
      ghost var queued := nodes;
      EndsApart(chain, nodes);
      hide Distinct;
      nodes := chain + nodes;
      first.prev := header;
      last.next := header.next;
      header.next.prev := last;
      header.next := first;
      count := count + n;
      n := count;
      RingJoin(header, chain, queued);
      if old(TwoWay() && BackChain(chain)) {
        BackJoin(header, chain, queued);
      }
    }

    method PushBack(buf: Buffer) returns (n: nat)
      requires Valid() && buf !in nodes && buf != header
      modifies this, header`prev, header`next, nodes`prev, nodes`next, buf`prev, buf`next
      ensures Valid() && nodes == old(nodes) + [buf] && n == |nodes|
      ensures old(TwoWay()) ==> TwoWay()
    {
      buf.prev := header.prev;
      buf.next := header;
      header.prev.next := buf;
      header.prev := buf;
      count := count + 1;
      n := count;
      nodes := nodes + [buf];
    }

    method PushBackChain(first: Buffer, last: Buffer, ghost chain: seq<Buffer>) returns (n: nat)
      requires Valid() && Chain(first, last, chain)
      requires header !in chain && Distinct(nodes + chain)
      modifies this, header`prev, header`next, nodes`prev, nodes`next, first`prev, last`next
      ensures Valid() && nodes == old(nodes) + chain && n == |nodes|
      ensures old(TwoWay() && BackChain(chain)) ==> TwoWay()
    {
      n := Distance(first, last, chain);
      ghost var queued := nodes;
      EndsApart(nodes, chain);
      hide Distinct;
      nodes := nodes + chain;
      first.prev := header.prev;
      last.next := header;
      header.prev.next := first;
      header.prev := last;
      count := count + n;
      n := count;
      RingJoin(header, queued, chain);
      if old(TwoWay() && BackChain(chain)) {
        assert BackChain(queued) && BackChain(chain);
        BackJoin(header, queued, chain);
      }
    }

    method PopFront() returns (buf: Buffer?)
      requires Valid()
      modifies this, header`prev, header`next, nodes`prev, nodes`next
      ensures Valid()
      ensures old(nodes) == [] ==> buf == null && nodes == []
      ensures old(nodes) != [] ==> buf == old(nodes)[0] && nodes == old(nodes)[1..]
      ensures old(TwoWay()) ==> TwoWay()
    {
      buf := header.next;
      if buf != header {
        assert buf == nodes[0] && buf.next == if |nodes| > 1 then nodes[1] else header;
        buf.next.prev := header;
        header.next := buf.next;
        count := count - 1;
        nodes := nodes[1..];
      } else {
        buf := null;
      }
    }

    /** pop(): the whole ring is detached at once; the nodes themselves are not touched. */
    method Pop() returns (first: Buffer?, last: Buffer?, n: nat)
      requires Valid()
      modifies this, header`prev, header`next
      ensures Valid() && nodes == [] && n == |old(nodes)|
      ensures n > 0 ==> Chain(first, last, old(nodes))
      ensures n > 0 && old(TwoWay()) ==> BackChain(old(nodes))
      ensures n == 0 ==> first == null && last == null
      ensures TwoWay()
    {
      if header.next != header {
        first := header.next;
        last := header.prev;
        n := count;
        header.prev := header;
        header.next := header;
        count := 0;
        nodes := [];
      } else {
        first := null;
        last := null;
        n := 0;
      }
    }

    /** A thread ties buffers of its own together. */
    static method LinkUp(chain: seq<Buffer>)
      requires chain != [] && Distinct(chain)
      modifies chain`prev, chain`next
      ensures Chain(chain[0], chain[|chain| - 1], chain) && BackChain(chain)
    {
      forall i | 0 <= i < |chain| - 1 {
        chain[i].next := chain[i + 1];
      }
      forall i | 0 < i < |chain| {
        chain[i].prev := chain[i - 1];
      }
    }

    /** push_front() of buffers that a thread has just tied together. */
    method PushFrontLinked(chain: seq<Buffer>)
      requires Valid() && chain != [] && Distinct(chain + nodes) && header !in chain
      modifies this, header`prev, header`next, nodes`prev, nodes`next, chain`prev, chain`next
      ensures Valid() && nodes == chain + old(nodes)
      ensures old(TwoWay()) ==> TwoWay()
    {
      DistinctPart(chain, nodes);
      hide Ring, BackLinked, Distinct, Chain, BackChain;
      assert forall i :: 0 <= i < |chain| ==> chain[i] in chain;
      LinkUp(chain);
      var _ := PushFrontChain(chain[0], chain[|chain| - 1], chain);
    }

    /** push_back(), likewise. */
    method PushBackLinked(chain: seq<Buffer>)
      requires Valid() && chain != [] && Distinct(chain + nodes) && header !in chain
      modifies this, header`prev, header`next, nodes`prev, nodes`next, chain`prev, chain`next
      ensures Valid() && nodes == old(nodes) + chain
      ensures old(TwoWay()) ==> TwoWay()
    {
      DistinctPart(chain, nodes);
      DistinctSwap(chain, nodes);
      hide Ring, BackLinked, Distinct, Chain, BackChain;
      assert forall i :: 0 <= i < |chain| ==> chain[i] in chain;
      LinkUp(chain);
      var _ := PushBackChain(chain[0], chain[|chain| - 1], chain);
    }

    /** One operation of another thread. */
    method OtherThread(u: Use)
      requires Valid() && Allowed(header, nodes, [u])
      modifies this, header`prev, header`next, nodes`prev, nodes`next, u.Nodes()`prev, u.Nodes()`next
      ensures Valid() && nodes == AfterUse(old(nodes), u)
      ensures old(TwoWay()) ==> TwoWay()
    {
      DistinctPart(u.Nodes(), nodes);
      hide Ring, BackLinked, Distinct;
      match u {
        case UsePushFront(buf) =>
          assert buf in u.Nodes();
          var _ := PushFront(buf);
        case UsePushFrontChain(chain) => PushFrontLinked(chain);
        case UsePushBack(buf) =>
          assert buf in u.Nodes();
          var _ := PushBack(buf);
        case UsePushBackChain(chain) => PushBackLinked(chain);
        case UsePopFront => var _ := PopFront();
        case UsePop => var _, _, _ := Pop();
      }
    }

    /** What other threads do to the queue while pthread_cond_timedwait() has released the mutex. */
    method OtherThreads(uses: seq<Use>)
      requires Valid() && Allowed(header, nodes, uses)
      modifies this, header`prev, header`next, nodes`prev, nodes`next, Pushed(uses)`prev, Pushed(uses)`next
      ensures Valid() && nodes == AfterUses(old(nodes), uses)
      ensures old(TwoWay()) ==> TwoWay()
    {
      hide Ring, BackLinked, Distinct, Pushed, AfterUse;
      if uses != [] {
        PushedFirst(nodes, uses);
        OtherThread(uses[0]);
        OtherThreads(uses[1..]);
      }
    }

    lemma PushedFirst(q: seq<Buffer>, uses: seq<Use>)
      requires uses != []
      ensures forall i :: 0 <= i < |uses[0].Nodes()| ==> uses[0].Nodes()[i] in Pushed(uses)
      ensures Pushed(uses[1..]) <= Pushed(uses)
      ensures forall b :: b in AfterUse(q, uses[0]) ==> b in q || b in Pushed(uses)
    {
      assert forall b :: b in uses[0].Nodes() ==> b in Pushed(uses);
      assert forall b :: b in AfterUse(q, uses[0]) ==> b in q || b in uses[0].Nodes();
    }

    /** What the test for an empty queue looks at. */
    lemma EmptyOrNot()
      requires Valid()
      ensures header.next == header <==> nodes == []
    {
    }

    /** pop_front(timeout): the waits that are signalled, then the one that times out. */
    method PopFrontTimed(signalled: seq<seq<Use>>, timedOut: seq<Use>) returns (buf: Buffer?)
      requires Valid() && AllowedWaits(header, nodes, WaitsFrom(signalled, timedOut, 0))
      modifies this, header`prev, header`next, nodes`prev, nodes`next
      modifies PushedIn(signalled + [timedOut])`prev, PushedIn(signalled + [timedOut])`next
      ensures Valid() && (old(TwoWay()) ==> TwoWay())
      ensures var seen := Seen(old(nodes), signalled);
              if seen != [] then buf == seen[0] && nodes == seen[1..]
              else buf == null && nodes == AfterUses([], timedOut)
    {
      hide Ring, BackLinked, Seen, AllowedWaits, Allowed, AfterUses, Pushed, PushedIn, WaitsFrom;
      EmptyOrNot();
      SeenAtOnce(nodes, signalled);
      if header.next != header {
        buf := PopFront();
        return;
      }
      assert signalled[0..] == signalled;
      var i := 0;
      while i < |signalled|
        invariant 0 <= i <= |signalled| && Valid() && (old(TwoWay()) ==> TwoWay())
        invariant nodes == [] && Seen(old(nodes), signalled) == Seen([], signalled[i..])
        invariant AllowedWaits(header, [], WaitsFrom(signalled, timedOut, i))
      {
        NextWait(header, signalled, timedOut, i);
        OtherThreads(signalled[i]);
        EmptyOrNot();
        SeenAtOnce(nodes, signalled[i + 1..]);
        if header.next != header {
          buf := PopFront();
          return;
        }
        i := i + 1;
      }
      LastWait(header, signalled, timedOut);
      OtherThreads(timedOut);
      buf := null;
    }

    /** pop(first, last, timeout), likewise. */
    method PopTimed(signalled: seq<seq<Use>>, timedOut: seq<Use>)
      returns (first: Buffer?, last: Buffer?, n: nat)
      requires Valid() && AllowedWaits(header, nodes, WaitsFrom(signalled, timedOut, 0))
      modifies this, header`prev, header`next
      modifies PushedIn(signalled + [timedOut])`prev, PushedIn(signalled + [timedOut])`next
      ensures Valid() && (old(TwoWay()) ==> TwoWay())
      ensures var seen := Seen(old(nodes), signalled);
              && n == |seen|
              && (if n > 0 then Chain(first, last, seen) && nodes == []
                  else first == null && last == null && nodes == AfterUses([], timedOut))
    {
      hide Ring, BackLinked, Seen, AllowedWaits, Allowed, AfterUses, Pushed, PushedIn, WaitsFrom;
      EmptyOrNot();
      SeenAtOnce(nodes, signalled);
      if header.next != header {
        first, last, n := Pop();
        return;
      }
      assert signalled[0..] == signalled;
      var i := 0;
      while i < |signalled|
        invariant 0 <= i <= |signalled| && Valid() && (old(TwoWay()) ==> TwoWay())
        invariant nodes == [] && Seen(old(nodes), signalled) == Seen([], signalled[i..])
        invariant AllowedWaits(header, [], WaitsFrom(signalled, timedOut, i))
      {
        NextWait(header, signalled, timedOut, i);
        OtherThreads(signalled[i]);
        EmptyOrNot();
        SeenAtOnce(nodes, signalled[i + 1..]);
        if header.next != header {
          first, last, n := Pop();
          return;
        }
        i := i + 1;
      }
      LastWait(header, signalled, timedOut);
      OtherThreads(timedOut);
      first, last, n := null, null, 0;
    }

    /** The destructor: every queued buffer is deleted, each exactly once. */
    method Destroy() returns (deleted: seq<Buffer>)
      requires Valid()
      modifies nodes
      ensures deleted == old(nodes)
    {
      deleted := [];
      var buf := header.next;
      while buf != header
        invariant deleted <= nodes
        invariant buf == if |deleted| == |nodes| then header else nodes[|deleted|]
        invariant forall i :: |deleted| <= i < |nodes| ==> nodes[i].next == old(nodes[i].next)
        decreases |nodes| - |deleted|
      {
        var next := buf.next;
        buf.next := *;    // the node is gone: nothing can be read from it any more
        deleted := deleted + [buf];
        buf := next;
      }
    }
  }
}
