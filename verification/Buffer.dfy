/** net/buffer.h and net/buffer.cpp: the buffer node and the allocator's free list. */
module BufferNodes {
  import opened Bytes

  /** A buffer is at the same time the node of every list it can be in. */
  class Buffer {
    var data: Payload
    var prev: Buffer?
    var next: Buffer?

    constructor ()
      ensures data == []
    {
      data := [];
      prev := null;
      next := null;
    }

    /** buffer::init(); memory says whether realloc() could provide len bytes. */
    method Init(content: Payload, memory: bool) returns (ok: bool)
      modifies this`data
      ensures ok == memory
      ensures data == if ok then content else old(data)
    {
      if memory {
        data := content;
      }
      ok := memory;
    }
  }

  predicate Distinct<T(==)>(s: seq<T>) {
    forall i, j :: 0 <= i < j < |s| ==> s[i] != s[j]
  }

  /** Each node leads to the one after it. */
  predicate Linked(nodes: seq<Buffer>)
    reads nodes`next
  {
    forall i :: 0 <= i < |nodes| - 1 ==> nodes[i].next == nodes[i + 1]
  }

  /** The nodes reached from first by next, in order, up to null. */
  ghost predicate NullTerminated(first: Buffer?, nodes: seq<Buffer>)
    reads nodes`next
  {
    && Distinct(nodes)
    && first == (if nodes == [] then null else nodes[0])
    && Linked(nodes)
    && (nodes != [] ==> nodes[|nodes| - 1].next == null)
  }

  lemma FirstIsNull(first: Buffer?, nodes: seq<Buffer>)
    requires NullTerminated(first, nodes)
    ensures first == null <==> nodes == []
  {
  }

  /**
   * The nodes reached from first by next run into a node already passed: there is no end, so
   * no list of nodes is what first leads to.
   */
  ghost predicate Looping(first: Buffer?, nodes: seq<Buffer>)
    reads nodes`next
  {
    && nodes != []
    && first == nodes[0]
    && Linked(nodes)
    && nodes[|nodes| - 1].next in nodes
  }

  /** Along a loop, following next never gets out. */
  lemma {:induction false} LoopCatches(first: Buffer?, loop: seq<Buffer>, nodes: seq<Buffer>, k: nat)
    requires Looping(first, loop) && NullTerminated(first, nodes)
    requires k < |nodes|
    ensures nodes[k] in loop && nodes[k].next in loop
  {
    if k > 0 {
      LoopCatches(first, loop, nodes, k - 1);
    }
    var i :| 0 <= i < |loop| && loop[i] == nodes[k];
    if i < |loop| - 1 {
      assert loop[i].next == loop[i + 1];
    }
  }

  /** What loops does not end. */
  lemma LoopingIsNotTerminated(first: Buffer?, loop: seq<Buffer>, nodes: seq<Buffer>)
    requires Looping(first, loop)
    ensures !NullTerminated(first, nodes)
  {
    if NullTerminated(first, nodes) {
      LoopCatches(first, loop, nodes, |nodes| - 1);
    }
  }

  /** Where x first occurs. */
  ghost function Index<T>(s: seq<T>, x: T): (i: nat)
    ensures i <= |s| && x !in s[..i]
    ensures if x in s then i < |s| && s[i] == x else i == |s|
  {
    if s == [] || s[0] == x then 0 else 1 + Index(s[1..], x)
  }

  /** buffer::allocator. */
  class Allocator {
    const ALLOCATION: nat := 10000

    var first: Buffer?

    /** The free nodes, first one first. */
    ghost var free: seq<Buffer>

    ghost predicate Valid()
      reads this, free`next
    {
      NullTerminated(first, free)
    }

    constructor ()
      ensures Valid() && free == []
    {
      first := null;
      free := [];
    }

    /** One round of the allocation loop: a new buffer goes to the front of the list. */
    method PutNew() returns (buf: Buffer)
      requires Valid()
      modifies this
      ensures fresh(buf) && Valid() && free == [buf] + old(free)
    {
      buf := new Buffer();
      buf.next := first;
      first := buf;
      free := [buf] + free;
    }

    /** allocator::allocate(); memory is how many more buffers `new` can make. */
    method Allocate(memory: nat) returns (ok: bool, ghost made: seq<Buffer>)
      requires Valid()
      modifies this
      ensures Valid() && ok == (free != []) && free == made + old(free)
      ensures |made| == (if memory < ALLOCATION then memory else ALLOCATION)
      ensures fresh(made)
    {
      hide NullTerminated;
      made := [];
      var i := ALLOCATION;
      var left := memory;
      while i > 0 && left > 0
        invariant i == ALLOCATION - |made| && left == memory - |made|
        invariant Valid() && free == made + old(free)
        invariant fresh(made)
      {
        var buf := PutNew();
        made := [buf] + made;
        left := left - 1;
        i := i - 1;
      }
      FirstIsNull(first, free);
      ok := first != null;
    }

    /** allocator::get(). */
    method Get(memory: nat) returns (buf: Buffer?, ghost made: seq<Buffer>)
      requires Valid()
      modifies this
      ensures Valid()
      ensures old(free) != [] ==> made == []
      ensures old(free) == [] ==> |made| == (if memory < ALLOCATION then memory else ALLOCATION)
      ensures fresh(made)
      ensures buf == null <==> old(free) == [] && memory == 0
      ensures made + old(free) == if buf == null then free else [buf] + free
      ensures buf !in free
    {
      made := [];
      if first == null {
        var ok;
        ok, made := Allocate(memory);
        if !ok {
          return null, made;
        }
      }
      buf := first;
      first := first.next;
      free := free[1..];
    }

    /**
     * allocator::put().  Putting back a buffer that is in use keeps the free list a list; putting
     * back one that is already free ties the list into a loop.
     */
    method Put(buf: Buffer)
      modifies this, buf`next
      ensures first == buf && buf.next == old(first) && free == [buf] + old(free)
      ensures old(Valid()) && buf !in old(free) ==> Valid()
      ensures old(Valid()) && buf in old(free) ==> exists loop :: Looping(first, loop)
    {
      ghost var loop := [buf] + free[..Index(free, buf)];
      buf.next := first;
      first := buf;
      free := [buf] + free;
      assert old(Valid()) && buf in old(free) ==> Looping(first, loop);
    }

    /** The destructor: every free buffer is deleted, each exactly once. */
    method Destroy() returns (deleted: seq<Buffer>)
      requires Valid()
      modifies this, free
      ensures deleted == old(free)
    {
      deleted := [];
      var buf := first;
      while buf != null
        invariant deleted <= free == old(free)
        invariant buf == if |deleted| == |free| then null else free[|deleted|]
        invariant forall i :: |deleted| <= i < |free| ==> free[i].next == old(free[i].next)
        decreases |free| - |deleted|
      {
        var next := buf.next;
        buf.next := *;    // the node is gone: nothing can be read from it any more
        deleted := deleted + [buf];
        buf := next;
      }
    }
  }
}
