/** The two hand-written owning pointers, `unique_ptr` and `non0_ptr`, over an
    abstract heap whose objects are ids. Each pointer object is a one-field
    state machine: its `ptr` is null or the address it owns. */
module SmartPointers {

  /** A raw pointer `T*`: null, or the address of a heap object, named by its id. */
  datatype Ptr = Null | Addr(id: nat)

  /** The ids that `delete p` hands back to the allocator: none for a null pointer. */
  function Deleted(p: Ptr): (ids: seq<nat>)
    ensures p.Null? <==> ids == []
    ensures p.Addr? ==> ids == [p.id]
  {
    if p.Addr? then [p.id] else []
  }

  /** Outcome of an operation guarded by a runtime `assert`: `AssertFailed`
      means the assertion fires and the program aborts. */
  datatype Checked<T> = Ok(value: T) | AssertFailed

  /** The free store: `new` hands out the next id, `delete` appends the id it
      frees to `freeLog`. A repeated id in `freeLog` is a double free. */
  class Heap {
    var next: nat
    var freeLog: seq<nat>

    /** Only ids already handed out have been freed. */
    ghost predicate Valid()
      reads this
    {
      forall k :: k in freeLog ==> k < next
    }

    constructor ()
      ensures Valid() && next == 0 && freeLog == []
    {
      next := 0;
      freeLog := [];
    }

    /** `new T(...)`: a fresh address. */
    method New() returns (p: Ptr)
      modifies this
      ensures p == Addr(old(next)) && next == old(next) + 1
      ensures freeLog == old(freeLog)
      ensures old(Valid()) ==> Valid()
    {
      p := Addr(next);
      next := next + 1;
    }

    /** `delete p`: a no-op on null. */
    method Delete(p: Ptr)
      modifies this
      ensures next == old(next)
      ensures freeLog == old(freeLog) + Deleted(p)
      ensures old(Valid()) && (p.Addr? ==> p.id < next) ==> Valid()
    {
      freeLog := freeLog + Deleted(p);
    }
  }

  /** `cpplab::unique_ptr<T>`. Copy construction and copy assignment are
      deleted in the source, so there is no member that duplicates `ptr`. */
  class UniquePtr {
    var ptr: Ptr
    /** Set by the destructor; every other member may only be used before it. */
    ghost var destroyed: bool

    /** `unique_ptr(T* p)`: holds exactly `p`. */
    constructor (p: Ptr)
      ensures ptr == p && !destroyed
    {
      ptr := p;
      destroyed := false;
    }

    /** `unique_ptr()`: the default argument, null. */
    constructor Default()
      ensures ptr == Null && !destroyed
    {
      ptr := Null;
      destroyed := false;
    }

    /** Move constructor: takes `other`'s pointer and nulls `other`; frees nothing
        (the heap is outside its frame). */
    constructor MoveFrom(other: UniquePtr)
      requires !other.destroyed
      modifies other`ptr
      ensures ptr == old(other.ptr) && !destroyed
      ensures other.ptr == Null
    {
      ptr := other.ptr;
      destroyed := false;
      other.ptr := Null;
    }

    /** Destructor: deletes the held pointer (nothing for null); the object is gone. */
    method Destroy(heap: Heap)
      requires !destroyed
      modifies heap, this`destroyed
      ensures destroyed
      ensures heap.next == old(heap.next)
      ensures heap.freeLog == old(heap.freeLog) + Deleted(ptr)
    {
      heap.Delete(ptr);
      destroyed := true;
    }

    /** Move assignment: from another object, frees the old pointee, takes
        `other`'s pointer and nulls `other`; self-assignment changes nothing. */
    method MoveAssign(other: UniquePtr, heap: Heap)
      requires !destroyed && !other.destroyed
      modifies this`ptr, other`ptr, heap
      ensures heap.next == old(heap.next)
      ensures this == other ==> ptr == old(ptr) && heap.freeLog == old(heap.freeLog)
      ensures this != other ==> ptr == old(other.ptr) && other.ptr == Null
      ensures this != other ==> heap.freeLog == old(heap.freeLog) + Deleted(old(ptr))
    {
      if this != other {
        heap.Delete(ptr);
        ptr := other.ptr;
        other.ptr := Null;
      }
    }

    /** `operator*`: the pointee. Dereferencing null or a deleted pointee is
        undefined behaviour, so a live pointee is the caller's obligation. */
    method Deref(heap: Heap) returns (x: nat)
      requires !destroyed && ptr.Addr? && ptr.id !in heap.freeLog
      ensures Addr(x) == ptr
    {
      x := ptr.id;
    }

    /** `get` (and `operator->`, which returns the same pointer). */
    method Get() returns (p: Ptr)
      requires !destroyed
      ensures p == ptr
    {
      p := ptr;
    }

    /** `release`: hands the pointer out and forgets it; frees nothing. */
    method Release() returns (p: Ptr)
      requires !destroyed
      modifies this`ptr
      ensures p == old(ptr) && ptr == Null
    {
      p := ptr;
      ptr := Null;
    }

    /** `reset(p)`: deletes the held pointer first, then holds `p`. */
    method Reset(p: Ptr, heap: Heap)
      requires !destroyed
      modifies this`ptr, heap
      ensures ptr == p
      ensures heap.next == old(heap.next)
      ensures heap.freeLog == old(heap.freeLog) + Deleted(old(ptr))
    {
      heap.Delete(ptr);
      ptr := p;
    }
  }

  /** `cpplab::non0_ptr<T>`: like `unique_ptr`, but construction, `reset`,
      move assignment and dereference assert non-null pointers. A moved-from
      object holds null all the same. */
  class NonNullPtr {
    var ptr: Ptr
    /** Set by the destructor; every other member may only be used before it. */
    ghost var destroyed: bool

    /** `non0_ptr(T* p)` once its assertion has passed. */
    constructor (p: Ptr)
      requires p.Addr?
      ensures ptr == p && !destroyed
    {
      ptr := p;
      destroyed := false;
    }

    /** `non0_ptr(T* p)` with its runtime check: null aborts, and no object exists. */
    static method Make(p: Ptr) returns (r: Checked<NonNullPtr>)
      ensures r.AssertFailed? <==> p.Null?
      ensures r.Ok? ==> fresh(r.value) && r.value.ptr == p && !r.value.destroyed
    {
      if p.Null? {
        return AssertFailed;
      }
      var q := new NonNullPtr(p);
      r := Ok(q);
    }

    /** Move constructor: no check; `other` becomes null. */
    constructor MoveFrom(other: NonNullPtr)
      requires !other.destroyed
      modifies other`ptr
      ensures ptr == old(other.ptr) && !destroyed
      ensures other.ptr == Null
    {
      ptr := other.ptr;
      destroyed := false;
      other.ptr := Null;
    }

    /** Destructor: deletes the held pointer; the object is gone. */
    method Destroy(heap: Heap)
      requires !destroyed
      modifies heap, this`destroyed
      ensures destroyed
      ensures heap.next == old(heap.next)
      ensures heap.freeLog == old(heap.freeLog) + Deleted(ptr)
    {
      heap.Delete(ptr);
      destroyed := true;
    }

    /** Move assignment: asserts `other` is non-null; from another object,
        takes its pointer and nulls it WITHOUT deleting the old pointee (the
        heap is outside its frame). `ok` is false when the assertion fires. */
    method MoveAssign(other: NonNullPtr) returns (ok: bool)
      requires !destroyed && !other.destroyed
      modifies this`ptr, other`ptr
      ensures ok <==> old(other.ptr).Addr?
      ensures !ok || this == other ==> ptr == old(ptr) && other.ptr == old(other.ptr)
      ensures ok && this != other ==> ptr == old(other.ptr) && other.ptr == Null
    {
      if other.ptr.Null? {
        return false;
      }
      ok := true;
      if this != other {
        ptr := other.ptr;
        other.ptr := Null;
      }
    }

    /** `operator*`: asserts non-null and yields the pointee; a deleted
        pointee is undefined behaviour, the caller's obligation. */
    method Deref(heap: Heap) returns (r: Checked<nat>)
      requires !destroyed && (ptr.Addr? ==> ptr.id !in heap.freeLog)
      ensures r.Ok? <==> ptr.Addr?
      ensures r.Ok? ==> Addr(r.value) == ptr
    {
      if ptr.Null? {
        return AssertFailed;
      }
      r := Ok(ptr.id);
    }

    /** `operator->`: asserts non-null and returns the pointer itself, without
        dereferencing it. */
    method Arrow() returns (r: Checked<Ptr>)
      requires !destroyed
      ensures r.Ok? <==> ptr.Addr?
      ensures r.Ok? ==> r.value == ptr
    {
      if ptr.Null? {
        return AssertFailed;
      }
      r := Ok(ptr);
    }

    /** `get`: no check. */
    method Get() returns (p: Ptr)
      requires !destroyed
      ensures p == ptr
    {
      p := ptr;
    }

    /** `reset(p)`: asserts `p` is non-null, deletes the held pointer, holds `p`. */
    method Reset(p: Ptr, heap: Heap) returns (ok: bool)
      requires !destroyed
      modifies this`ptr, heap
      ensures ok <==> p.Addr?
      ensures heap.next == old(heap.next)
      ensures !ok ==> ptr == old(ptr) && heap.freeLog == old(heap.freeLog)
      ensures ok ==> ptr == p && heap.freeLog == old(heap.freeLog) + Deleted(old(ptr))
    {
      if p.Null? {
        return false;
      }
      heap.Delete(ptr);
      ptr := p;
      ok := true;
    }
  }

  /** First scope of the source's test driver: construction and access; the
      destructor at the closing brace deletes the one object. */
  method ScopeAccess(heap: Heap)
    requires heap.Valid()
    modifies heap
    ensures heap.Valid()
    ensures heap.next == old(heap.next) + 1
    ensures heap.freeLog == old(heap.freeLog) + [old(heap.next)]
  {
    var a := heap.New();
    var up := new UniquePtr(a);
    var x := up.Deref(heap);
    assert Addr(x) == a;
    up.Destroy(heap);
  }

  /** Second scope: the move constructor leaves the source null, so of the two
      destructors (`up2`, then `up1`) only the first deletes anything. */
  method ScopeMoveConstruct(heap: Heap)
    requires heap.Valid()
    modifies heap
    ensures heap.Valid()
    ensures heap.next == old(heap.next) + 1
    ensures heap.freeLog == old(heap.freeLog) + [old(heap.next)]
  {
    var b := heap.New();
    var up1 := new UniquePtr(b);
    var up2 := new UniquePtr.MoveFrom(up1);
    var g := up1.Get();
    assert g == Null;
    var x := up2.Deref(heap);
    assert Addr(x) == b;
    up2.Destroy(heap);
    up1.Destroy(heap);
  }

  /** Third scope: move assignment into a null pointer deletes nothing; the
      destructors (`up2`, then the moved-from `up1`) delete the object once. */
  method ScopeMoveAssign(heap: Heap)
    requires heap.Valid()
    modifies heap
    ensures heap.Valid()
    ensures heap.next == old(heap.next) + 1
    ensures heap.freeLog == old(heap.freeLog) + [old(heap.next)]
  {
    var c := heap.New();
    var up1 := new UniquePtr(c);
    var up2 := new UniquePtr.Default();
    up2.MoveAssign(up1, heap);
    var g := up1.Get();
    assert g == Null;
    var x := up2.Deref(heap);
    assert Addr(x) == c;
    up2.Destroy(heap);
    up1.Destroy(heap);
  }

  /** Fourth scope: `release` hands the first object out, `reset` on the now
      null pointer deletes nothing, the explicit `delete` frees the released
      object and the destructor the second one. */
  method ScopeReleaseReset(heap: Heap)
    requires heap.Valid()
    modifies heap
    ensures heap.Valid()
    ensures heap.next == old(heap.next) + 2
    ensures heap.freeLog == old(heap.freeLog) + [old(heap.next), old(heap.next) + 1]
  {
    var d := heap.New();
    var up := new UniquePtr(d);
    var raw := up.Release();
    var g := up.Get();
    assert g == Null && raw == d;
    var e := heap.New();
    up.Reset(e, heap);
    var x := up.Deref(heap);
    assert Addr(x) == e;
    heap.Delete(raw);
    up.Destroy(heap);
  }

  /** The source's test driver, scope after scope, then the null `non0_ptr`:
      it allocates five objects and deletes each exactly once, in allocation
      order, and the `non0_ptr` construction is refused by its runtime check. */
  method DriverScenarios() returns (allocations: nat, freed: seq<nat>, refused: bool)
    ensures allocations == 5 && freed == [0, 1, 2, 3, 4]
    ensures refused
  {
    var heap := new Heap();
    ScopeAccess(heap);
    ScopeMoveConstruct(heap);
    ScopeMoveAssign(heap);
    ScopeReleaseReset(heap);
    var nn := NonNullPtr.Make(Null);
    allocations, freed, refused := heap.next, heap.freeLog, nn.AssertFailed?;
  }
}
