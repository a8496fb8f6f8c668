/** Fuel tanks and the round-robin choice of tank an engine draws from.
    Threads, sleeping, logging and locking are not modelled: one engine
    runs its selection step against tanks nobody else touches meanwhile. */
module FuelConsumption {
  import opened NativeTypes

  /** What one `refuel(amount)` on a tank holding `fuel` hands out and leaves. */
  datatype Drawn = Drawn(taken: uint32, left: uint32)

  /** `fuel_tank::refuel` on values: all or nothing, never below zero. */
  function Withdraw(fuel: uint32, amount: uint32): (d: Drawn)
    ensures d.taken as int + d.left as int == fuel as int
    ensures d.taken == 0 || d.taken == amount
    ensures d.left <= fuel
    ensures fuel >= amount ==> d.taken == amount
    ensures fuel < amount ==> d.taken == 0 && d.left == fuel
  {
    if fuel >= amount then Drawn(amount, fuel - amount) else Drawn(0, fuel)
  }

  /** `fuel_tank`. */
  class FuelTank {
    var fuel: uint32

    constructor (initialFuel: uint32)
      ensures fuel == initialFuel
    {
      fuel := initialFuel;
    }

    method Refuel(amount: uint32) returns (r: uint32)
      modifies this
      ensures Withdraw(old(fuel), amount) == Drawn(r, fuel)
    {
      if fuel >= amount {
        fuel := fuel - amount;
        return amount;
      }
      return 0;
    }

    method CurrentFuel() returns (f: uint32)
      ensures f == fuel
    {
      f := fuel;
    }
  }

  /** The fuel of each tank in `ts`, position by position. */
  function FuelsOf(ts: seq<FuelTank>): (fs: seq<uint32>)
    reads ts
    ensures |fs| == |ts|
    ensures forall i :: 0 <= i < |ts| ==> fs[i] == ts[i].fuel
  {
    if ts == [] then [] else FuelsOf(ts[..|ts| - 1]) + [ts[|ts| - 1].fuel]
  }

  /** One pass of the body of the inner loop of `engine::run`. */
  datatype Attempt =
    | Stopped                        // no tanks: the engine stops
    | Took(tank: nat)                // the tank supplied the fuel; the cursor stays
    | Missed(tank: nat, next: nat)   // the tank could not; the cursor moves on

  /** The decision of one pass, from the tanks' fuel, the cursor and the amount. */
  function Try(fuels: seq<uint32>, cursor: nat, amount: uint32): (a: Attempt)
    ensures a.Stopped? <==> fuels == []
    ensures !a.Stopped? ==> a.tank < |fuels| && a.tank == (if cursor < |fuels| then cursor else 0)
    ensures a.Took? <==> fuels != [] && 0 < amount <= fuels[a.tank]
    ensures a.Missed? ==> a.next == (a.tank + 1) % |fuels|
  {
    if fuels == [] then Stopped
    else
      var k := if cursor >= |fuels| then 0 else cursor;
      if Withdraw(fuels[k], amount).taken > 0 then Took(k) else Missed(k, (k + 1) % |fuels|)
  }

  /** Up to `budget` passes while they miss; the fuels do not change on a miss. */
  function Scan(fuels: seq<uint32>, cursor: nat, amount: uint32, budget: nat): Attempt
    requires budget > 0
    decreases budget
  {
    var a := Try(fuels, cursor, amount);
    if a.Missed? && budget > 1 then Scan(fuels, a.next, amount, budget - 1) else a
  }

  /** Cyclic distance from tank `k` forward to tank `j`. */
  function Gap(k: nat, j: nat, n: nat): nat
    requires k < n && j < n
  {
    if k <= j then j - k else j + n - k
  }

  lemma {:induction false} ScanReaches(fuels: seq<uint32>, cursor: nat, amount: uint32, budget: nat, j: nat)
    requires j < |fuels| && 0 < amount <= fuels[j]
    requires budget > Gap(if cursor < |fuels| then cursor else 0, j, |fuels|)
    ensures Scan(fuels, cursor, amount, budget).Took?
    decreases budget
  {
    var a := Try(fuels, cursor, amount);
    if a.Missed? {
      var n := |fuels|;
      var k := a.tank;
      assert k != j;
      assert Gap(a.next, j, n) == Gap(k, j, n) - 1;
      ScanReaches(fuels, a.next, amount, budget - 1, j);
    }
  }

  /** If some tank can supply `amount`, a pass of `|fuels|` attempts takes it
      from a tank that can; no more than one round of the tanks is needed. */
  lemma ScanFinds(fuels: seq<uint32>, cursor: nat, amount: uint32, budget: nat)
    requires 0 < amount && budget >= |fuels|
    requires exists j :: 0 <= j < |fuels| && amount <= fuels[j]
    ensures budget > 0
    ensures Scan(fuels, cursor, amount, budget).Took?
    ensures Scan(fuels, cursor, amount, budget).tank < |fuels|
    ensures amount <= fuels[Scan(fuels, cursor, amount, budget).tank]
  {
    var j :| 0 <= j < |fuels| && amount <= fuels[j];
    ScanReaches(fuels, cursor, amount, budget, j);
    ScanChoosesSupplier(fuels, cursor, amount, budget);
  }

  /** Whatever a pass takes, it takes from a tank that can supply it. */
  lemma {:induction false} ScanChoosesSupplier(fuels: seq<uint32>, cursor: nat, amount: uint32, budget: nat)
    requires budget > 0
    ensures Scan(fuels, cursor, amount, budget).Took? ==>
              Scan(fuels, cursor, amount, budget).tank < |fuels| &&
              0 < amount <= fuels[Scan(fuels, cursor, amount, budget).tank]
    ensures Scan(fuels, cursor, amount, budget).Missed? ==>
              Scan(fuels, cursor, amount, budget).next < |fuels|
    decreases budget
  {
    var a := Try(fuels, cursor, amount);
    if a.Missed? && budget > 1 {
      ScanChoosesSupplier(fuels, a.next, amount, budget - 1);
    }
  }

  /** A zero amount is never "taken" (`refuel` returns 0), so the engine keeps missing. */
  lemma {:induction false} ZeroAmountNeverTakes(fuels: seq<uint32>, cursor: nat, budget: nat)
    requires budget > 0
    ensures !Scan(fuels, cursor, 0, budget).Took?
    decreases budget
  {
    var a := Try(fuels, cursor, 0);
    if a.Missed? && budget > 1 {
      ZeroAmountNeverTakes(fuels, a.next, budget - 1);
    }
  }

  /** `engine`: its tank list, the `running` flag and the cursor of `run`
      (`current_tank_index`, which persists across passes). */
  class Engine {
    const id: int32
    const fuelAmount: int32
    var tanks: seq<FuelTank>
    var running: bool
    var cursor: nat

    constructor (id: int32, fuelAmount: int32)
      ensures this.id == id && this.fuelAmount == fuelAmount
      ensures tanks == [] && running && cursor == 0
    {
      this.id := id;
      this.fuelAmount := fuelAmount;
      tanks := [];
      running := true;
      cursor := 0;
    }

    /** The `int` amount as `refuel`'s `unsigned int` parameter sees it. */
    function Amount(): uint32
    {
      ToUnsigned(fuelAmount)
    }

    /** `connect_tank`: appends one tank, leaving the others in place. */
    method ConnectTank(t: FuelTank)
      modifies this`tanks
      ensures tanks == old(tanks) + [t]
    {
      tanks := tanks + [t];
    }

    /** One pass of the inner loop body of `run`. Only the chosen tank's fuel
        changes, and only on a successful take. */
    method Attempt() returns (a: Attempt)
      modifies this`running, this`cursor, tanks
      ensures a == Try(old(FuelsOf(tanks)), old(cursor), Amount())
      ensures a.Stopped? ==> !running && cursor == old(cursor)
      ensures !a.Stopped? ==> running == old(running)
      ensures a.Took? ==> cursor == a.tank && tanks[a.tank].fuel as int == old(tanks[a.tank].fuel) as int - Amount() as int
      ensures a.Missed? ==> cursor == a.next
      ensures forall t :: t in tanks && !(a.Took? && t == tanks[a.tank]) ==> t.fuel == old(t.fuel)
    {
      ghost var fs := FuelsOf(tanks);
      if |tanks| == 0 {
        running := false;
        return Stopped;
      }
      if cursor >= |tanks| {
        cursor := 0;
      }
      var got := tanks[cursor].Refuel(Amount());
      if got > 0 {
        a := Took(cursor);
      } else {
        a := Missed(cursor, (cursor + 1) % |tanks|);
        cursor := (cursor + 1) % |tanks|;
      }
      assert Withdraw(fs[a.tank], Amount()).taken == got;
    }

    /** The inner loop of `run`, cut off after `maxAttempts` passes: it
        behaves as `Scan` of the fuels it starts from, and when some tank can
        supply a non-zero amount, one round of the tanks suffices. */
    method TakeFuel(maxAttempts: nat) returns (taken: bool)
      requires maxAttempts > 0
      modifies this`running, this`cursor, tanks
      ensures tanks == old(tanks)
      ensures taken ==> cursor < |tanks|
      ensures !old(running) ==> !taken && !running && cursor == old(cursor)
      ensures old(running) ==>
        var s := Scan(old(FuelsOf(tanks)), old(cursor), Amount(), maxAttempts);
        && (taken <==> s.Took?)
        && (running <==> !s.Stopped?)
        && (s.Took? ==> cursor == s.tank && tanks[cursor].fuel as int == old(FuelsOf(tanks))[cursor] as int - Amount() as int)
        && (s.Missed? ==> cursor == s.next)
      ensures forall t :: t in tanks && !(taken && t == tanks[cursor]) ==> t.fuel == old(t.fuel)
      ensures (old(running) && maxAttempts >= |tanks| && Amount() > 0 &&
               exists j :: 0 <= j < |tanks| && Amount() <= old(tanks[j].fuel)) ==> taken
    {
      ghost var f0 := FuelsOf(tanks);
      ghost var s := Scan(f0, cursor, Amount(), maxAttempts);
      taken := false;
      if !running {
        return;
      }
      var attempts := 0;
      while !taken && running && attempts < maxAttempts
        invariant 0 <= attempts <= maxAttempts
        invariant tanks == old(tanks)
        invariant !taken ==> forall t :: t in tanks ==> t.fuel == old(t.fuel)
        invariant !taken && running && attempts < maxAttempts ==> s == Scan(f0, cursor, Amount(), maxAttempts - attempts)
        invariant !taken && running && attempts == maxAttempts ==> s.Missed? && cursor == s.next
        invariant taken ==> running && s == Took(cursor) && cursor < |tanks|
        invariant taken ==> tanks[cursor].fuel as int == f0[cursor] as int - Amount() as int
        invariant taken ==> forall t :: t in tanks && t != tanks[cursor] ==> t.fuel == old(t.fuel)
        invariant !running ==> s == Stopped && !taken
        decreases maxAttempts - attempts, if taken then 0 else 1
      {
        ghost var b := maxAttempts - attempts;
        ghost var c := cursor;
        assert FuelsOf(tanks) == f0;
        var a := Attempt();
        attempts := attempts + 1;
        if a.Took? {
          taken := true;
        } else if a.Missed? && b > 1 {
          assert Scan(f0, c, Amount(), b) == Scan(f0, cursor, Amount(), b - 1);
        }
      }
      if maxAttempts >= |tanks| && Amount() > 0 && exists j :: 0 <= j < |tanks| && Amount() <= old(tanks[j].fuel) {
        ScanFinds(f0, old(cursor), Amount(), maxAttempts);
      }
    }
  }
}
