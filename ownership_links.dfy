/** The objects of SmartPointers as the `World` values of Ownership. A
    program's live `unique_ptr` objects, listed in order of construction, give
    the owners of a world; each method below performs one class operation on
    such a list and states that the world afterwards is the Ownership function
    of the world before, so the ownership lemmas hold of the objects.
    `unique_ptr` and `non0_ptr` objects are listed separately. */
module OwnershipLinks {
  import opened SmartPointers
  import Ownership

  /** Pairwise distinct objects, none of them destroyed. */
  ghost predicate LiveUniques(os: seq<UniquePtr>)
    reads os
  {
    && (forall i, j :: 0 <= i < j < |os| ==> os[i] != os[j])
    && (forall i :: 0 <= i < |os| ==> !os[i].destroyed)
  }

  /** The `ptr` field of each object, position by position. */
  function UniquePtrs(os: seq<UniquePtr>): (ps: seq<Ptr>)
    reads os
    ensures |ps| == |os|
    ensures forall i :: 0 <= i < |os| ==> ps[i] == os[i].ptr
  {
    if os == [] then [] else UniquePtrs(os[..|os| - 1]) + [os[|os| - 1].ptr]
  }

  ghost function UniqueWorld(os: seq<UniquePtr>, heap: Heap): Ownership.World
    reads os, heap
  {
    Ownership.World(UniquePtrs(os), heap.next, heap.freeLog)
  }

  /** `new T`, next to the owners. */
  method LinkNew(os: seq<UniquePtr>, heap: Heap) returns (p: Ptr)
    modifies heap
    ensures UniqueWorld(os, heap) == Ownership.Allocate(old(UniqueWorld(os, heap))).0
    ensures p == Addr(Ownership.Allocate(old(UniqueWorld(os, heap))).1)
  {
    p := heap.New();
  }

  /** `unique_ptr(p)` (and `unique_ptr()` with `p` null) as `Adopt`. */
  method LinkAdopt(os: seq<UniquePtr>, p: Ptr, heap: Heap) returns (os': seq<UniquePtr>)
    requires LiveUniques(os)
    ensures LiveUniques(os') && |os'| == |os| + 1 && os'[..|os|] == os && fresh(os'[|os|])
    ensures UniqueWorld(os', heap) == Ownership.Adopt(old(UniqueWorld(os, heap)), p)
  {
    var o := new UniquePtr(p);
    os' := os + [o];
  }

  /** The move constructor from owner `s` as `MoveConstruct`. */
  method LinkMoveConstruct(os: seq<UniquePtr>, s: nat, heap: Heap) returns (os': seq<UniquePtr>)
    requires LiveUniques(os) && s < |os|
    modifies os[s]
    ensures LiveUniques(os') && |os'| == |os| + 1 && os'[..|os|] == os && fresh(os'[|os|])
    ensures UniqueWorld(os', heap) == Ownership.MoveConstruct(old(UniqueWorld(os, heap)), s)
  {
    var o := new UniquePtr.MoveFrom(os[s]);
    os' := os + [o];
  }

  /** Move assignment of owner `s` into owner `d` as `MoveAssign`. */
  method LinkMoveAssign(os: seq<UniquePtr>, d: nat, s: nat, heap: Heap)
    requires LiveUniques(os) && d < |os| && s < |os|
    modifies os[d], os[s], heap
    ensures LiveUniques(os)
    ensures UniqueWorld(os, heap) == Ownership.MoveAssign(old(UniqueWorld(os, heap)), d, s)
  {
    os[d].MoveAssign(os[s], heap);
  }

  /** `release` on owner `i` as `Release`. */
  method LinkRelease(os: seq<UniquePtr>, i: nat, heap: Heap) returns (p: Ptr)
    requires LiveUniques(os) && i < |os|
    modifies os[i]
    ensures LiveUniques(os)
    ensures (UniqueWorld(os, heap), p) == Ownership.Release(old(UniqueWorld(os, heap)), i)
  {
    p := os[i].Release();
    assert UniquePtrs(os) == old(UniquePtrs(os))[i := Null];
  }

  /** `reset(p)` on owner `i` as `Reset`. */
  method LinkReset(os: seq<UniquePtr>, i: nat, p: Ptr, heap: Heap)
    requires LiveUniques(os) && i < |os|
    modifies os[i], heap
    ensures LiveUniques(os)
    ensures UniqueWorld(os, heap) == Ownership.Reset(old(UniqueWorld(os, heap)), i, p)
  {
    os[i].Reset(p, heap);
  }

  /** The destructor of owner `i` as `Destroy`: the object leaves the list, so
      no later operation of the world can use it or destroy it again. */
  method LinkDestroy(os: seq<UniquePtr>, i: nat, heap: Heap) returns (os': seq<UniquePtr>)
    requires LiveUniques(os) && i < |os|
    modifies os[i], heap
    ensures os[i].destroyed && os' == os[..i] + os[i + 1..] && LiveUniques(os')
    ensures UniqueWorld(os', heap) == Ownership.Destroy(old(UniqueWorld(os, heap)), i)
  {
    os[i].Destroy(heap);
    os' := os[..i] + os[i + 1..];
    assert forall k :: 0 <= k < |os'| ==> os'[k] == if k < i then os[k] else os[k + 1];
  }

  /** `delete raw` as `DeleteRaw`. */
  method LinkDeleteRaw(os: seq<UniquePtr>, x: nat, heap: Heap)
    modifies heap
    ensures UniqueWorld(os, heap) == Ownership.DeleteRaw(old(UniqueWorld(os, heap)), x)
  {
    heap.Delete(Addr(x));
  }

  /** Pairwise distinct objects, none of them destroyed. */
  ghost predicate LiveNonNulls(ns: seq<NonNullPtr>)
    reads ns
  {
    && (forall i, j :: 0 <= i < j < |ns| ==> ns[i] != ns[j])
    && (forall i :: 0 <= i < |ns| ==> !ns[i].destroyed)
  }

  /** The `ptr` field of each object, position by position. */
  function NonNullPtrs(ns: seq<NonNullPtr>): (ps: seq<Ptr>)
    reads ns
    ensures |ps| == |ns|
    ensures forall i :: 0 <= i < |ns| ==> ps[i] == ns[i].ptr
  {
    if ns == [] then [] else NonNullPtrs(ns[..|ns| - 1]) + [ns[|ns| - 1].ptr]
  }

  ghost function NonNullWorld(ns: seq<NonNullPtr>, heap: Heap): Ownership.World
    reads ns, heap
  {
    Ownership.World(NonNullPtrs(ns), heap.next, heap.freeLog)
  }

  /** `non0_ptr(p)` as `Adopt` once its assertion passes; a null `p` aborts
      and no object joins the world. */
  method LinkNonNullMake(ns: seq<NonNullPtr>, p: Ptr, heap: Heap) returns (ns': seq<NonNullPtr>, ok: bool)
    requires LiveNonNulls(ns)
    ensures ok <==> p.Addr?
    ensures LiveNonNulls(ns')
    ensures !ok ==> ns' == ns
    ensures ok ==> |ns'| == |ns| + 1 && ns'[..|ns|] == ns && fresh(ns'[|ns|])
    ensures ok ==> NonNullWorld(ns', heap) == Ownership.Adopt(old(NonNullWorld(ns, heap)), p)
  {
    var r := NonNullPtr.Make(p);
    if r.AssertFailed? {
      return ns, false;
    }
    ns' := ns + [r.value];
    ok := true;
  }

  /** The move constructor from owner `s` as `MoveConstruct`. */
  method LinkNonNullMoveConstruct(ns: seq<NonNullPtr>, s: nat, heap: Heap) returns (ns': seq<NonNullPtr>)
    requires LiveNonNulls(ns) && s < |ns|
    modifies ns[s]
    ensures LiveNonNulls(ns') && |ns'| == |ns| + 1 && ns'[..|ns|] == ns && fresh(ns'[|ns|])
    ensures NonNullWorld(ns', heap) == Ownership.MoveConstruct(old(NonNullWorld(ns, heap)), s)
  {
    var o := new NonNullPtr.MoveFrom(ns[s]);
    ns' := ns + [o];
  }

  /** Move assignment of owner `s` into owner `d` as `NonNullMoveAssign` once
      its assertion passes; when it fires nothing changes. */
  method LinkNonNullMoveAssign(ns: seq<NonNullPtr>, d: nat, s: nat, heap: Heap) returns (ok: bool)
    requires LiveNonNulls(ns) && d < |ns| && s < |ns|
    modifies ns[d], ns[s]
    ensures LiveNonNulls(ns)
    ensures ok <==> old(ns[s].ptr).Addr?
    ensures ok ==> NonNullWorld(ns, heap) == Ownership.NonNullMoveAssign(old(NonNullWorld(ns, heap)), d, s)
    ensures !ok ==> NonNullWorld(ns, heap) == old(NonNullWorld(ns, heap))
  {
    ok := ns[d].MoveAssign(ns[s]);
  }

  /** `reset(p)` on owner `i` as `Reset` once its assertion passes; when it
      fires nothing changes. */
  method LinkNonNullReset(ns: seq<NonNullPtr>, i: nat, p: Ptr, heap: Heap) returns (ok: bool)
    requires LiveNonNulls(ns) && i < |ns|
    modifies ns[i], heap
    ensures LiveNonNulls(ns)
    ensures ok <==> p.Addr?
    ensures ok ==> NonNullWorld(ns, heap) == Ownership.Reset(old(NonNullWorld(ns, heap)), i, p)
    ensures !ok ==> NonNullWorld(ns, heap) == old(NonNullWorld(ns, heap))
  {
    ok := ns[i].Reset(p, heap);
  }

  /** The destructor of owner `i` as `Destroy`. */
  method LinkNonNullDestroy(ns: seq<NonNullPtr>, i: nat, heap: Heap) returns (ns': seq<NonNullPtr>)
    requires LiveNonNulls(ns) && i < |ns|
    modifies ns[i], heap
    ensures ns[i].destroyed && ns' == ns[..i] + ns[i + 1..] && LiveNonNulls(ns')
    ensures NonNullWorld(ns', heap) == Ownership.Destroy(old(NonNullWorld(ns, heap)), i)
  {
    ns[i].Destroy(heap);
    ns' := ns[..i] + ns[i + 1..];
    assert forall k :: 0 <= k < |ns'| ==> ns'[k] == if k < i then ns[k] else ns[k + 1];
  }
}
