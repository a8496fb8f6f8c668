/** `generateThreadId`: a persistent `unsigned int` counter, starting at 1,
    that returns its value and then increments it. The mutex around it only
    serialises calls, so calls are modelled one after another. */
module ThreadIdentification {
  import opened NativeTypes

  /** `n + 1` on an `unsigned int`: wraps to 0 past the largest value. */
  function Successor(n: uint32): (m: uint32)
    ensures m as int == (n as int + 1) % UINT32_LIMIT
  {
    if n as int == UINT32_LIMIT - 1 then 0 else n + 1
  }

  /** The ids returned by `calls` successive calls when the counter holds `start`. */
  function Issued(start: uint32, calls: nat): (ids: seq<uint32>)
    ensures |ids| == calls
    decreases calls
  {
    if calls == 0 then [] else [start] + Issued(Successor(start), calls - 1)
  }

  /** The i-th call returns `start + i`, modulo 2^32. */
  lemma {:induction false} IssuedAt(start: uint32, calls: nat, i: nat)
    requires i < calls
    ensures Issued(start, calls)[i] as int == (start as int + i) % UINT32_LIMIT
    decreases calls
  {
    if i > 0 {
      IssuedAt(Successor(start), calls - 1, i - 1);
      if start as int == UINT32_LIMIT - 1 {
        assert (start as int + i) % UINT32_LIMIT == (i - 1) % UINT32_LIMIT by {
          assert start as int + i == (i - 1) + UINT32_LIMIT;
        }
      }
    }
  }

  /** Below the wrap-around bound, successive calls return strictly
      increasing, hence distinct, ids. */
  lemma IssuedIncreasing(start: uint32, calls: nat)
    requires start as int + calls <= UINT32_LIMIT
    ensures forall i, j :: 0 <= i < j < calls ==> Issued(start, calls)[i] < Issued(start, calls)[j]
  {
    forall i, j | 0 <= i < j < calls
      ensures Issued(start, calls)[i] < Issued(start, calls)[j]
    {
      IssuedAt(start, calls, i);
      IssuedAt(start, calls, j);
    }
  }

  /** From the initial counter, the k-th call (counting from 0) returns k + 1. */
  lemma IssuedFromOne(calls: nat, i: nat)
    requires i < calls < UINT32_LIMIT
    ensures Issued(1, calls)[i] as int == i + 1
  {
    IssuedAt(1, calls, i);
  }

  /** Past the bound the counter wraps: call number 2^32 - 1 returns 0, and the
      next call returns 1 again, the id the very first call returned. */
  lemma IssuedWraps(calls: nat)
    requires calls > UINT32_LIMIT
    ensures Issued(1, calls)[UINT32_LIMIT - 1] == 0
    ensures Issued(1, calls)[UINT32_LIMIT] == Issued(1, calls)[0] == 1
  {
    IssuedAt(1, calls, UINT32_LIMIT - 1);
    IssuedAt(1, calls, UINT32_LIMIT);
    IssuedAt(1, calls, 0);
  }

  /** One more call appends the counter's current value to what was issued. */
  lemma IssuedExtends(start: uint32, calls: nat)
    ensures Issued(start, calls + 1) == Issued(start, calls) + [((start as int + calls) % UINT32_LIMIT) as uint32]
  {
    var longer := Issued(start, calls + 1);
    var shorter := Issued(start, calls);
    forall i | 0 <= i < calls + 1
      ensures longer[i] == (shorter + [((start as int + calls) % UINT32_LIMIT) as uint32])[i]
    {
      IssuedAt(start, calls + 1, i);
      if i < calls {
        IssuedAt(start, calls, i);
      }
    }
  }

  /** The static counter of `generateThreadId`, with the ghost history of
      the ids it has returned. */
  class IdGenerator {
    var nextId: uint32
    ghost var issued: seq<uint32>

    ghost predicate Valid()
      reads this
    {
      issued == Issued(1, |issued|) && nextId as int == (1 + |issued|) % UINT32_LIMIT
    }

    /** `static unsigned int nextId = 1`. */
    constructor ()
      ensures Valid() && issued == [] && nextId == 1
    {
      nextId := 1;
      issued := [];
    }

    /** `return nextId++`: the old value, and the counter moves on by one. */
    method GenerateThreadId() returns (id: uint32)
      requires Valid()
      modifies this
      ensures Valid()
      ensures id == old(nextId) && nextId == Successor(old(nextId))
      ensures issued == old(issued) + [id]
      ensures |old(issued)| < UINT32_LIMIT - 1 ==> forall k :: k in old(issued) ==> k < id
    {
      id := nextId;
      nextId := Successor(nextId);
      IssuedExtends(1, |issued|);
      issued := issued + [id];
      if |old(issued)| < UINT32_LIMIT - 1 {
        forall k | k in old(issued) ensures k < id {
          var i :| 0 <= i < |old(issued)| && old(issued)[i] == k;
          IssuedAt(1, |old(issued)|, i);
        }
      }
    }
  }

  /** The source's driver: two calls from the initial counter yield 1, then 2. */
  method FirstTwoIds() returns (first: uint32, second: uint32)
    ensures first == 1 && second == 2
  {
    var gen := new IdGenerator();
    first := gen.GenerateThreadId();
    second := gen.GenerateThreadId();
  }
}
