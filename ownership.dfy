/** Linear ownership across all the owning-pointer objects of a program.
    A `World` lists the `ptr` field of every live `unique_ptr`/`non0_ptr`
    object by position, together with the free store; each function below is
    one operation of SmartPointers on that value, and the lemmas say which
    operations keep the ownership discipline and which break it. */
module Ownership {
  import opened SmartPointers

  datatype World = World(owners: seq<Ptr>, next: nat, freeLog: seq<nat>)

  predicate NoRepeats(s: seq<nat>)
  {
    forall i, j :: 0 <= i < j < |s| ==> s[i] != s[j]
  }

  /** Allocated by `new` and not yet deleted. */
  predicate Live(w: World, x: nat)
  {
    x < w.next && x !in w.freeLog
  }

  /** Live and held by no pointer object: a raw pointer, fresh from `new`
      or handed out by `release`. */
  predicate Unowned(w: World, x: nat)
  {
    Live(w, x) && forall i :: 0 <= i < |w.owners| ==> w.owners[i] != Addr(x)
  }

  /** The ownership discipline: at most one owner per object, owners hold
      only live objects, and nothing is deleted twice or before allocation. */
  predicate Sound(w: World)
  {
    && (forall i, j :: 0 <= i < j < |w.owners| && w.owners[i].Addr? ==> w.owners[i] != w.owners[j])
    && (forall i :: 0 <= i < |w.owners| && w.owners[i].Addr? ==> Live(w, w.owners[i].id))
    && NoRepeats(w.freeLog)
    && (forall k :: 0 <= k < |w.freeLog| ==> w.freeLog[k] < w.next)
  }

  /** `new T`: the next id. */
  function Allocate(w: World): (World, nat)
  {
    (w.(next := w.next + 1), w.next)
  }

  /** `unique_ptr(p)` / `non0_ptr(p)`: a new owner of `p`. */
  function Adopt(w: World, p: Ptr): World
  {
    w.(owners := w.owners + [p])
  }

  /** Move constructor from owner `s`. */
  function MoveConstruct(w: World, s: nat): World
    requires s < |w.owners|
  {
    w.(owners := w.owners[s := Null] + [w.owners[s]])
  }

  /** `unique_ptr` move assignment of owner `s` into owner `d`. */
  function MoveAssign(w: World, d: nat, s: nat): World
    requires d < |w.owners| && s < |w.owners|
  {
    if d == s then w
    else World(w.owners[d := w.owners[s]][s := Null], w.next, w.freeLog + Deleted(w.owners[d]))
  }

  /** `non0_ptr` move assignment once its assertion has passed: no delete. */
  function NonNullMoveAssign(w: World, d: nat, s: nat): World
    requires d < |w.owners| && s < |w.owners|
  {
    if d == s then w
    else w.(owners := w.owners[d := w.owners[s]][s := Null])
  }

  /** `release` on owner `i`. */
  function Release(w: World, i: nat): (World, Ptr)
    requires i < |w.owners|
  {
    (w.(owners := w.owners[i := Null]), w.owners[i])
  }

  /** `reset(p)` on owner `i`: delete first, then store. */
  function Reset(w: World, i: nat, p: Ptr): World
    requires i < |w.owners|
  {
    World(w.owners[i := p], w.next, w.freeLog + Deleted(w.owners[i]))
  }

  /** The destructor of owner `i`: its pointee is deleted and the object is gone. */
  function Destroy(w: World, i: nat): World
    requires i < |w.owners|
  {
    World(w.owners[..i] + w.owners[i + 1..], w.next, w.freeLog + Deleted(w.owners[i]))
  }

  /** `delete raw` on a raw pointer the program holds. */
  function DeleteRaw(w: World, x: nat): World
  {
    w.(freeLog := w.freeLog + [x])
  }

  /** Scope exit: owners are destroyed in reverse order of construction. */
  function DestroyAll(w: World): World
    decreases |w.owners|
  {
    if |w.owners| == 0 then w else DestroyAll(Destroy(w, |w.owners| - 1))
  }

  /** The ids held by `owners`, last owner first. */
  function HeldIds(owners: seq<Ptr>): seq<nat>
  {
    if owners == [] then [] else Deleted(owners[|owners| - 1]) + HeldIds(owners[..|owners| - 1])
  }

  lemma AllocateIsUnowned(w: World)
    requires Sound(w)
    ensures Sound(Allocate(w).0)
    ensures Unowned(Allocate(w).0, Allocate(w).1)
    ensures Allocate(w).0.owners == w.owners && Allocate(w).0.freeLog == w.freeLog
  {
  }

  lemma AdoptKeepsSound(w: World, p: Ptr)
    requires Sound(w)
    requires p.Addr? ==> Unowned(w, p.id)
    ensures Sound(Adopt(w, p))
    ensures Adopt(w, p).owners[|w.owners|] == p && Adopt(w, p).freeLog == w.freeLog
  {
  }

  /** Copy construction, which the source deletes, would put one object under
      two owners: the discipline forbids it. */
  lemma CopyBreaksSound(w: World, i: nat)
    requires Sound(w) && i < |w.owners| && w.owners[i].Addr?
    ensures !Sound(Adopt(w, w.owners[i]))
  {
    var w' := Adopt(w, w.owners[i]);
    assert w'.owners[i] == w'.owners[|w.owners|];
  }

  lemma MoveConstructTransfers(w: World, s: nat)
    requires Sound(w) && s < |w.owners|
    ensures Sound(MoveConstruct(w, s))
    ensures MoveConstruct(w, s).owners[s] == Null
    ensures MoveConstruct(w, s).owners[|w.owners|] == w.owners[s]
    ensures MoveConstruct(w, s).freeLog == w.freeLog
  {
  }

  lemma MoveAssignTransfers(w: World, d: nat, s: nat)
    requires Sound(w) && d < |w.owners| && s < |w.owners|
    ensures Sound(MoveAssign(w, d, s))
    ensures d == s ==> MoveAssign(w, d, s) == w
    ensures d != s ==> MoveAssign(w, d, s).owners[d] == w.owners[s]
    ensures d != s ==> MoveAssign(w, d, s).owners[s] == Null
    ensures d != s ==> MoveAssign(w, d, s).freeLog == w.freeLog + Deleted(w.owners[d])
  {
  }

  /** `non0_ptr` move assignment, into a null or non-null owner, keeps at most
      one owner per object and frees nothing. */
  lemma NonNullMoveAssignKeepsSound(w: World, d: nat, s: nat)
    requires Sound(w) && d < |w.owners| && s < |w.owners|
    ensures Sound(NonNullMoveAssign(w, d, s))
    ensures d == s ==> NonNullMoveAssign(w, d, s) == w
    ensures d != s ==> NonNullMoveAssign(w, d, s).owners[d] == w.owners[s]
    ensures d != s ==> NonNullMoveAssign(w, d, s).owners[s] == Null
    ensures NonNullMoveAssign(w, d, s).freeLog == w.freeLog
  {
  }

  /** `non0_ptr` move assignment never deletes the old pointee: afterwards it
      is still live but owned by nobody, so no destructor will delete it. */
  lemma NonNullMoveAssignLeaks(w: World, d: nat, s: nat, x: nat)
    requires Sound(w) && d < |w.owners| && s < |w.owners| && d != s
    requires w.owners[s].Addr? && w.owners[d] == Addr(x)
    ensures Sound(NonNullMoveAssign(w, d, s))
    ensures Unowned(NonNullMoveAssign(w, d, s), x)
    ensures NonNullMoveAssign(w, d, s).freeLog == w.freeLog
  {
  }

  /** `release` on any owner, null or not, keeps the discipline and frees nothing. */
  lemma ReleaseKeepsSound(w: World, i: nat)
    requires Sound(w) && i < |w.owners|
    ensures Sound(Release(w, i).0)
    ensures Release(w, i).1 == w.owners[i] && Release(w, i).0.owners[i] == Null
    ensures Release(w, i).0.freeLog == w.freeLog
  {
  }

  lemma ReleaseHandsOut(w: World, i: nat, x: nat)
    requires Sound(w) && i < |w.owners| && w.owners[i] == Addr(x)
    ensures Release(w, i).1 == Addr(x)
    ensures Sound(Release(w, i).0)
    ensures Unowned(Release(w, i).0, x)
    ensures Release(w, i).0.freeLog == w.freeLog
  {
  }

  /** Deleting a released pointer by hand keeps the discipline. */
  lemma DeleteRawKeepsSound(w: World, x: nat)
    requires Sound(w) && Unowned(w, x)
    ensures Sound(DeleteRaw(w, x))
    ensures !Live(DeleteRaw(w, x), x)
  {
  }

  /** `reset` with a pointer no one owns deletes the old pointee and keeps the discipline. */
  lemma ResetReplaces(w: World, i: nat, p: Ptr)
    requires Sound(w) && i < |w.owners|
    requires p.Addr? ==> Unowned(w, p.id)
    ensures Sound(Reset(w, i, p))
    ensures Reset(w, i, p).owners[i] == p
    ensures Reset(w, i, p).freeLog == w.freeLog + Deleted(w.owners[i])
  {
  }

  /** `reset(get())`: deleting before storing leaves the object owning a
      deleted pointee, which breaks the discipline. */
  lemma ResetToHeldDangles(w: World, i: nat, x: nat)
    requires Sound(w) && i < |w.owners| && w.owners[i] == Addr(x)
    ensures Reset(w, i, w.owners[i]).owners[i] == Addr(x)
    ensures x in Reset(w, i, w.owners[i]).freeLog
    ensures !Sound(Reset(w, i, w.owners[i]))
  {
  }

  lemma DestroyKeepsSound(w: World, i: nat)
    requires Sound(w) && i < |w.owners|
    ensures Sound(Destroy(w, i))
    ensures Destroy(w, i).freeLog == w.freeLog + Deleted(w.owners[i])
    ensures |Destroy(w, i).owners| == |w.owners| - 1
  {
  }

  /** Every id some owner holds is among the ids its destruction frees. */
  lemma {:induction false} HeldIdsCover(owners: seq<Ptr>, i: nat)
    requires i < |owners| && owners[i].Addr?
    ensures owners[i].id in HeldIds(owners)
    decreases |owners|
  {
    var n := |owners| - 1;
    if i < n {
      HeldIdsCover(owners[..n], i);
    }
  }

  /** Leaving the scope of every owner deletes each held object exactly once. */
  lemma {:induction false} DestroyAllFreesEachOnce(w: World)
    requires Sound(w)
    ensures DestroyAll(w) == World([], w.next, w.freeLog + HeldIds(w.owners))
    ensures Sound(DestroyAll(w))
    ensures NoRepeats(DestroyAll(w).freeLog)
    ensures forall i :: 0 <= i < |w.owners| && w.owners[i].Addr? ==> w.owners[i].id in DestroyAll(w).freeLog
    decreases |w.owners|
  {
    if |w.owners| > 0 {
      var n := |w.owners| - 1;
      var w1 := Destroy(w, n);
      DestroyKeepsSound(w, n);
      assert w1.owners == w.owners[..n];
      DestroyAllFreesEachOnce(w1);
      assert w.freeLog + HeldIds(w.owners) == w1.freeLog + HeldIds(w1.owners);
    }
    forall i | 0 <= i < |w.owners| && w.owners[i].Addr?
      ensures w.owners[i].id in DestroyAll(w).freeLog
    {
      HeldIdsCover(w.owners, i);
    }
  }
}
