// Ref<T>, a move-only owning pointer.  The C++ heap is an Allocator whose
// `live` set holds the addresses allocated and not yet deleted; a pointer
// is an address, 0 standing for nullptr.  A live address that no Ref holds
// any more can never be deleted: it has leaked.
module Memory {

  type Pointer = nat

  const NULL: Pointer := 0

  class Allocator {
    var live: set<Pointer>

    /** nullptr is never an allocated address. */
    ghost predicate Valid()
      reads this
    {
      NULL !in live
    }

    constructor (live: set<Pointer>)
      requires NULL !in live
      ensures Valid() && this.live == live
    {
      this.live := live;
    }
  }

  class Ref {
    var ptr: Pointer

    /** An empty Ref. */
    constructor Empty()
      ensures ptr == NULL
    {
      ptr := NULL;
    }

    /** Takes ownership of `p`. */
    constructor Own(p: Pointer)
      ensures ptr == p
    {
      ptr := p;
    }

    /** Move construction: the new Ref takes the pointer and `other` is left empty. */
    constructor Move(other: Ref)
      modifies other
      ensures ptr == old(other.ptr) && other.ptr == NULL
    {
      ptr := other.ptr;
      other.ptr := NULL;
    }

    /**
     * Move assignment as written: takes `other`'s pointer without deleting
     * the one it held.  Assigning a Ref to itself changes nothing.
     */
    method MoveAssignAsWritten(other: Ref)
      modifies this, other
      ensures this == other ==> ptr == old(ptr)
      ensures this != other ==> ptr == old(other.ptr) && other.ptr == NULL
    {
      if this != other {
        ptr := other.ptr;
        other.ptr := NULL;
      }
    }

    /**
     * Move assignment that releases what it held before taking `other`'s
     * pointer.  Assigning a Ref to itself changes nothing.
     */
    method MoveAssign(other: Ref, heap: Allocator)
      requires heap.Valid() && (ptr == NULL || ptr in heap.live)
      modifies this, other, heap
      ensures heap.Valid()
      ensures this == other ==> ptr == old(ptr) && heap.live == old(heap.live)
      ensures this != other ==> && ptr == old(other.ptr) && other.ptr == NULL
                                && heap.live == old(heap.live) - {old(ptr)}
    {
      if this != other {
        if ptr != NULL {
          heap.live := heap.live - {ptr};
        }
        ptr := other.ptr;
        other.ptr := NULL;
      }
    }

    /** The destructor deletes the held pointer; deleting nullptr does nothing. */
    method Destroy(heap: Allocator)
      requires heap.Valid() && (ptr == NULL || ptr in heap.live)
      modifies heap
      ensures heap.Valid()
      ensures heap.live == old(heap.live) - {ptr}
    {
      if ptr != NULL {
        heap.live := heap.live - {ptr};
      }
    }

    /** `Get()` and `operator*`: the object the Ref holds; dereferencing an empty Ref is undefined. */
    function Get(heap: Allocator): (p: Pointer)
      requires heap.Valid() && ptr in heap.live
      reads this, heap
      ensures p == ptr && p != NULL && p in heap.live
    {
      ptr
    }

    /** `operator->`: the raw pointer, null included. */
    function Arrow(): (p: Pointer)
      reads this
      ensures p == ptr
      ensures p == NULL <==> ptr == NULL
    {
      ptr
    }
  }

  /** The live addresses that neither of two Refs holds. */
  function Unowned(live: set<Pointer>, a: Ref, b: Ref): (orphans: set<Pointer>)
    reads a, b
    ensures orphans <= live
    ensures a.ptr !in orphans && b.ptr !in orphans
    ensures forall p :: p in live && p != a.ptr && p != b.ptr ==> p in orphans
  {
    live - {a.ptr, b.ptr}
  }

  /**
   * The leak: when two distinct Refs own distinct live objects, moving one
   * into the other as written orphans the object the target held, while
   * the releasing assignment deletes it.
   */
  method MoveAssignLeaks() returns (leakedAsWritten: set<Pointer>, leakedReleasing: set<Pointer>)
    ensures leakedAsWritten == {1}
    ensures leakedReleasing == {}
  {
    var heap := new Allocator({1, 2});
    var target := new Ref.Own(1);
    var source := new Ref.Own(2);
    target.MoveAssignAsWritten(source);
    leakedAsWritten := Unowned(heap.live, target, source);

    heap := new Allocator({1, 2});
    target := new Ref.Own(1);
    source := new Ref.Own(2);
    target.MoveAssign(source, heap);
    leakedReleasing := Unowned(heap.live, target, source);
  }

  /**
   * The releasing assignment never orphans anything: whatever the two Refs
   * leave unowned afterwards was already unowned before.
   */
  method MoveAssignKeepsOwnership(target: Ref, source: Ref, heap: Allocator)
    requires target != source && heap.Valid()
    requires target.ptr == NULL || target.ptr in heap.live
    modifies target, source, heap
    ensures Unowned(heap.live, target, source) <= old(Unowned(heap.live, target, source))
  {
    target.MoveAssign(source, heap);
  }

  /**
   * As written, moving into a Ref that owns a live object, from a Ref that
   * owns a different one, orphans the target's object.
   */
  method MoveAssignAsWrittenOrphans(target: Ref, source: Ref, heap: Allocator)
    requires target != source && target.ptr != NULL && target.ptr in heap.live
    requires target.ptr != source.ptr
    modifies target, source
    ensures old(target.ptr) in Unowned(heap.live, target, source)
  {
    target.MoveAssignAsWritten(source);
  }
}
