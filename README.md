# Owning pointers, fuel tanks and thread ids — a verified Dafny model

This project models three small, independent sequential components of a C++
exercise repository, and proves properties of the model.

- **SmartPointers** (`smart_pointers.dfy`): the hand-written `cpplab::unique_ptr`
  and `cpplab::non0_ptr`. Each is a class with one mutable field, `ptr`, which
  is `Null` or `Addr(id)`. The heap is abstract. `Heap.New` hands out fresh ids.
  `Heap.Delete` appends the freed id to `freeLog`, so a repeated id in that log
  is a double free. The runtime `assert`s of `non0_ptr` are modelled as an
  explicit outcome: `Checked.AssertFailed`, or `ok == false` with nothing changed.
  Each object carries a ghost `destroyed` flag, set by its destructor; every
  other member requires it to be clear, so an object cannot be used, or
  destroyed a second time, after its destructor ran. `DriverScenarios` replays
  the source's test driver scope by scope, including the destructors that run
  at each closing brace, and shows that every object it allocates is freed
  exactly once.
- **Ownership** (`ownership.dfy`): the same operations on a value, `World`.
  A `World` holds the `ptr` field of every live pointer object (by position),
  the allocation counter and the free log. `Sound` is the ownership discipline:
  - at most one owner per object;
  - owners hold only live objects;
  - nothing is freed twice.

  The lemmas show that construction from an unowned pointer, moves, `release`,
  `reset` with an unowned pointer, destruction, and deleting a released pointer
  keep `Sound`. When every owner goes out of scope, each held object is freed
  exactly once. Two quirks of the source are proved as well:
  - `reset(get())` frees first and then stores, so the object owns a freed pointee;
  - `non0_ptr`'s move assignment never frees the old pointee, which leaks it.
- **OwnershipLinks** (`ownership_links.dfy`): ties the classes to the values.
  A sequence of distinct, undestroyed `UniquePtr` objects gives the owners of a
  `World`, and so does a sequence of `NonNullPtr` objects. For each class
  operation a link method performs it on one or two objects of the sequence,
  and its contract states that the `World` afterwards is exactly the Ownership
  function applied to the `World` before. A destroyed object leaves the
  sequence. So the Ownership lemmas hold of the objects themselves.
- **FuelConsumption** (`fuel_consumption.dfy`): `fuel_tank` as a class over a
  32-bit unsigned `fuel`, with `Withdraw` as the value-level meaning of
  `refuel`. The `engine` is a class holding its tank list, its `running` flag
  and the cursor (`current_tank_index`) of `run`.
  - `Engine.Attempt` is one pass of the inner loop body of `run`.
  - `Engine.TakeFuel` is that loop cut off after a given number of passes.
  - Both are proved against the pure `Try`/`Scan`.

  If some tank can supply a non-zero amount, one round of the tanks always takes
  it from such a tank. The `int` fuel amount reaches `refuel` through the
  implicit conversion to `unsigned int` (`NativeTypes.ToUnsigned`). A zero amount
  is never counted as taken, because `refuel` then returns 0 and the engine
  treats that as a miss.
- **ThreadIdentification** (`thread_identification.dfy`): `generateThreadId`'s
  static counter is a class, `IdGenerator`. Its post-increment wraps modulo 2^32,
  as an `unsigned int` does. A ghost history of the ids it returned shows:
  - below 2^32 - 1 calls, every id is larger than all earlier ones;
  - the k-th call (counting from 1) returns k;
  - the wrap-around is written out, and it reissues id 1 after 2^32 calls.

## Model

| member | source | states |
|---|---|---|
| SmartPointers.UniquePtr.constructor | SmartPointers/Smart_Pointers.cpp:13 | `unique_ptr(p)` holds exactly `p` |
| SmartPointers.UniquePtr.Default | SmartPointers/Smart_Pointers.cpp:13 | the default-constructed pointer holds null |
| SmartPointers.UniquePtr.MoveFrom | SmartPointers/Smart_Pointers.cpp:19-22 | the new object holds the source's former pointer and the source holds null; the heap is outside its frame, so nothing is freed |
| SmartPointers.UniquePtr.Destroy | SmartPointers/Smart_Pointers.cpp:16 | the destructor frees the held pointee, and nothing when it is null; afterwards the object is destroyed and no member may be called on it, so it cannot free its pointee twice |
| SmartPointers.UniquePtr.MoveAssign | SmartPointers/Smart_Pointers.cpp:25-34 | from another object: frees the old pointee, takes the other's pointer, nulls the other; self-assignment changes nothing |
| SmartPointers.UniquePtr.Deref | SmartPointers/Smart_Pointers.cpp:41 | `operator*` on a non-null pointer whose pointee is not yet freed yields exactly the held pointee |
| SmartPointers.UniquePtr.Get | SmartPointers/Smart_Pointers.cpp:42-45 | `get` and `operator->` return the held pointer and change nothing |
| SmartPointers.UniquePtr.Release | SmartPointers/Smart_Pointers.cpp:46-51 | returns the held pointer, leaves the object null, frees nothing |
| SmartPointers.UniquePtr.Reset | SmartPointers/Smart_Pointers.cpp:52-56 | frees the old pointee (the log grows by exactly it), then holds `p` |
| SmartPointers.NonNullPtr.constructor | SmartPointers/Smart_Pointers.cpp:67-70 | once its assertion passes, the object holds exactly the non-null `p` |
| SmartPointers.NonNullPtr.Make | SmartPointers/Smart_Pointers.cpp:67-70 | construction fails its runtime check exactly when `p` is null; otherwise a fresh object holds `p` |
| SmartPointers.NonNullPtr.MoveFrom | SmartPointers/Smart_Pointers.cpp:76-79 | move construction has no check: the new object takes the pointer and the source becomes null |
| SmartPointers.NonNullPtr.Destroy | SmartPointers/Smart_Pointers.cpp:73 | the destructor frees the held pointee; afterwards the object is destroyed and no member may be called on it |
| SmartPointers.NonNullPtr.MoveAssign | SmartPointers/Smart_Pointers.cpp:82-91 | the check fails exactly when the other object is null; otherwise, from another object, it takes the pointer and nulls the other without freeing anything |
| SmartPointers.NonNullPtr.Deref | SmartPointers/Smart_Pointers.cpp:98-102 | `operator*` fails its check exactly when the pointer is null, and otherwise yields the held pointee (which must not be freed yet) |
| SmartPointers.NonNullPtr.Arrow | SmartPointers/Smart_Pointers.cpp:103-107 | `operator->` fails its check exactly when the pointer is null, and otherwise returns the held pointer itself, with no requirement that the pointee be live |
| SmartPointers.ScopeAccess | SmartPointers/Smart_Pointers.cpp:128-132 | test 1: the dereference yields the new object, and the destructor at the closing brace frees it once |
| SmartPointers.ScopeMoveConstruct | SmartPointers/Smart_Pointers.cpp:135-142 | test 2: after the move the source is null and the target yields the object; of the two destructors only the target's frees anything, so the object is freed once |
| SmartPointers.ScopeMoveAssign | SmartPointers/Smart_Pointers.cpp:145-153 | test 3: move assignment into a null pointer frees nothing; the destructors free the object once |
| SmartPointers.ScopeReleaseReset | SmartPointers/Smart_Pointers.cpp:156-167 | tests 4 and 5: `release` hands out the first object, `reset` on the null pointer frees nothing, the explicit `delete` frees the first object and the destructor the second, each once |
| SmartPointers.DriverScenarios | SmartPointers/Smart_Pointers.cpp:124-174 | the whole driver allocates exactly five objects and frees each exactly once, in allocation order; the null `non0_ptr` construction is reported as refused by its check |
| SmartPointers.NonNullPtr.Get | SmartPointers/Smart_Pointers.cpp:110 | `get` returns the held pointer unchecked |
| SmartPointers.NonNullPtr.Reset | SmartPointers/Smart_Pointers.cpp:111-116 | the check fails exactly when `p` is null; otherwise frees the old pointee, then holds `p` |
| Ownership.AllocateIsUnowned | SmartPointers/Smart_Pointers.cpp:129 | a pointer fresh from `new` is live and owned by nobody, and the discipline still holds |
| Ownership.AdoptKeepsSound | SmartPointers/Smart_Pointers.cpp:13 | constructing an owner of an unowned (or null) pointer keeps at most one owner per object |
| Ownership.CopyBreaksSound | SmartPointers/Smart_Pointers.cpp:36-38 | a copy, which the class deletes, would give one object two owners |
| Ownership.MoveConstructTransfers | SmartPointers/Smart_Pointers.cpp:19-22 | a move construction transfers ownership, frees nothing and keeps the discipline |
| Ownership.MoveAssignTransfers | SmartPointers/Smart_Pointers.cpp:25-34 | move assignment transfers ownership, frees exactly the old target pointee once, and is the identity on self-assignment |
| Ownership.NonNullMoveAssignKeepsSound | SmartPointers/Smart_Pointers.cpp:82-91 | a `non0_ptr` move assignment that passes its check, into a null or non-null target, keeps at most one owner per object, transfers the pointer, nulls the source and frees nothing; self-assignment is the identity |
| Ownership.NonNullMoveAssignLeaks | SmartPointers/Smart_Pointers.cpp:82-91 | after a `non0_ptr` move assignment the old pointee is live, not freed and owned by nobody: a leak |
| Ownership.ReleaseKeepsSound | SmartPointers/Smart_Pointers.cpp:46-51 | `release` on any owner, null or not, returns its pointer, leaves it null, frees nothing and keeps the discipline |
| Ownership.ReleaseHandsOut | SmartPointers/Smart_Pointers.cpp:46-51 | after `release` the returned object is live and owned by nobody, and nothing is freed |
| Ownership.DeleteRawKeepsSound | SmartPointers/Smart_Pointers.cpp:166 | deleting a released pointer by hand frees it once and keeps the discipline |
| Ownership.ResetReplaces | SmartPointers/Smart_Pointers.cpp:52-56 | `reset` with an unowned pointer frees the old pointee once and keeps the discipline |
| Ownership.ResetToHeldDangles | SmartPointers/Smart_Pointers.cpp:52-56 | `reset(get())` leaves the object owning a pointee that is already freed, which breaks the discipline |
| Ownership.DestroyKeepsSound | SmartPointers/Smart_Pointers.cpp:16 | destroying one owner frees its pointee once and keeps the discipline |
| Ownership.DestroyAllFreesEachOnce | SmartPointers/Smart_Pointers.cpp:16 | when every owner leaves scope, each held object is freed, and no object is freed twice |
| OwnershipLinks.LinkNew | SmartPointers/Smart_Pointers.cpp:129 | `new` on the heap is `Allocate` on the world of the objects |
| OwnershipLinks.LinkAdopt | SmartPointers/Smart_Pointers.cpp:13 | constructing a `unique_ptr` is `Adopt`: one fresh object joins the sequence |
| OwnershipLinks.LinkMoveConstruct | SmartPointers/Smart_Pointers.cpp:19-22 | the move constructor on the objects is `MoveConstruct` on their world |
| OwnershipLinks.LinkMoveAssign | SmartPointers/Smart_Pointers.cpp:25-34 | `UniquePtr.MoveAssign` on two objects of the sequence, distinct or the same, is `MoveAssign` on their world |
| OwnershipLinks.LinkRelease | SmartPointers/Smart_Pointers.cpp:46-51 | `release` on the objects is `Release` on their world, with the same returned pointer |
| OwnershipLinks.LinkReset | SmartPointers/Smart_Pointers.cpp:52-56 | `reset` on the objects is `Reset` on their world |
| OwnershipLinks.LinkDestroy | SmartPointers/Smart_Pointers.cpp:16 | the destructor is `Destroy`: the object is marked destroyed and leaves the sequence |
| OwnershipLinks.LinkDeleteRaw | SmartPointers/Smart_Pointers.cpp:166 | `delete` on a raw pointer is `DeleteRaw` |
| OwnershipLinks.LinkNonNullMake | SmartPointers/Smart_Pointers.cpp:67-70 | constructing a `non0_ptr` is `Adopt` when its check passes, and adds nothing when `p` is null |
| OwnershipLinks.LinkNonNullMoveConstruct | SmartPointers/Smart_Pointers.cpp:76-79 | the unchecked move constructor is `MoveConstruct` |
| OwnershipLinks.LinkNonNullMoveAssign | SmartPointers/Smart_Pointers.cpp:82-91 | `NonNullPtr.MoveAssign` is `NonNullMoveAssign` (no free) when its check passes, and changes nothing when it fails |
| OwnershipLinks.LinkNonNullReset | SmartPointers/Smart_Pointers.cpp:111-116 | `NonNullPtr.Reset` is `Reset` when its check passes, and changes nothing when it fails |
| OwnershipLinks.LinkNonNullDestroy | SmartPointers/Smart_Pointers.cpp:73 | the destructor is `Destroy`: the object is marked destroyed and leaves the sequence |
| FuelConsumption.FuelTank.constructor | FuelConsumption/Fuel_consumption.cpp:16 | the tank starts with `initial_fuel` |
| FuelConsumption.Withdraw | FuelConsumption/Fuel_consumption.cpp:19-28 | `refuel` is all or nothing: it hands out `amount` when the tank has enough, otherwise 0 and leaves the fuel as it was; fuel taken plus fuel left equals fuel before, so it never underflows or grows |
| FuelConsumption.FuelTank.Refuel | FuelConsumption/Fuel_consumption.cpp:19-28 | the returned amount and the new fuel are those of `Withdraw` on the old fuel |
| FuelConsumption.FuelTank.CurrentFuel | FuelConsumption/Fuel_consumption.cpp:31-35 | returns the stored fuel and changes nothing |
| FuelConsumption.Engine.constructor | FuelConsumption/Fuel_consumption.cpp:90-93 | a new engine has no tanks and is running; its cursor is 0, the value `run` gives `current_tank_index` at line 50 when the constructor's thread starts it |
| FuelConsumption.Engine.ConnectTank | FuelConsumption/Fuel_consumption.cpp:103-107 | appends exactly one tank at the end and keeps the others |
| NativeTypes.ToUnsigned | FuelConsumption/Fuel_consumption.cpp:72 | the `int` amount passed to `refuel` becomes the `unsigned int` congruent to it modulo 2^32, equal to it when non-negative |
| FuelConsumption.Try | FuelConsumption/Fuel_consumption.cpp:61-83 | no tanks means stop; otherwise the cursor wraps to 0 when at or past the end, so the tank used is in range; a take happens exactly when that tank holds at least a non-zero amount, and a miss moves the cursor to the next tank modulo the count |
| FuelConsumption.Engine.Attempt | FuelConsumption/Fuel_consumption.cpp:59-83 | one pass decides as `Try`; with no tanks it clears `running`; on a take only the chosen tank loses exactly the amount and the cursor stays on it; on a miss the cursor advances and no fuel changes |
| FuelConsumption.Engine.TakeFuel | FuelConsumption/Fuel_consumption.cpp:57-84 | the inner loop, bounded, behaves as `Scan` of the starting fuels; with at least one round of attempts it takes fuel whenever some tank can supply a non-zero amount |
| FuelConsumption.ScanReaches | FuelConsumption/Fuel_consumption.cpp:72-83 | a tank holding enough is reached before the budget runs out if the budget exceeds its cyclic distance from the cursor |
| FuelConsumption.ScanFinds | FuelConsumption/Fuel_consumption.cpp:57-84 | if some tank can supply a non-zero amount, `size` attempts take it, from a tank that can supply it |
| FuelConsumption.ScanChoosesSupplier | FuelConsumption/Fuel_consumption.cpp:72-80 | whatever a pass takes is taken from an in-range tank that holds at least the amount |
| FuelConsumption.ZeroAmountNeverTakes | FuelConsumption/Fuel_consumption.cpp:72-83 | with a zero amount no attempt ever counts as a take |
| ThreadIdentification.Successor | ThreadIdentification/Thread_Identification.cpp:15 | the post-increment of the `unsigned int` counter, modulo 2^32 |
| ThreadIdentification.IssuedAt | ThreadIdentification/Thread_Identification.cpp:10-15 | the i-th call returns the starting counter plus i, modulo 2^32 |
| ThreadIdentification.IssuedIncreasing | ThreadIdentification/Thread_Identification.cpp:10-15 | below the overflow bound, successive calls return strictly increasing, hence distinct, ids |
| ThreadIdentification.IssuedFromOne | ThreadIdentification/Thread_Identification.cpp:11-15 | from the initial counter, the call at index i (counting from 0) returns i + 1, so the first call returns 1 |
| ThreadIdentification.IssuedWraps | ThreadIdentification/Thread_Identification.cpp:11-15 | past the bound the counter wraps: it returns 0, then reissues 1 |
| ThreadIdentification.IssuedExtends | ThreadIdentification/Thread_Identification.cpp:15 | one more call appends the counter's current value to the ids issued so far |
| ThreadIdentification.IdGenerator.constructor | ThreadIdentification/Thread_Identification.cpp:11 | the counter starts at 1 with nothing issued |
| ThreadIdentification.IdGenerator.GenerateThreadId | ThreadIdentification/Thread_Identification.cpp:7-17 | returns the counter's value before the increment, advances it by exactly one (mod 2^32), touches nothing else, and below the bound returns an id larger than every earlier one |
| ThreadIdentification.FirstTwoIds | ThreadIdentification/Thread_Identification.cpp:34-47 | the driver's two calls on a fresh counter return 1 and then 2 |

## Left out

- The thread pool (ThreadPool/ThreadPool.cpp) is not part of this model. Its logic is the coordination of threads, a condition variable and joins. Its results are floating-point averages.
- AsyncFunctions/Async_Functions.cpp is not part of this model. It only demonstrates launch policies and printing.
- Threads, mutexes, `sleep_for`, console output and the engine's destructor and `join` are not modelled. In particular, the unsynchronised `running` flag, and other engines drawing from shared tanks between two passes, are not modelled.
- The engine's `interval` only feeds `sleep_for`, so it is left out. `engine_id` is stored but only printed.
- `std::shared_ptr` reference counting is not modelled. Tanks are shared object references, and one tank may appear more than once in a list.
- `whichthread`'s printing and the `std::async`/`std::future` calls are not modelled. `FirstTwoIds` replays only the two ids the driver obtains.
- Pointee values and the template parameter `T` are not modelled. An object is its id, and `new`/`delete` are `Heap.New`/`Heap.Delete`.
- SmartPointers.UniquePtr.Deref: requires a non-null pointer whose pointee is not yet freed, because dereferencing null or a freed object (as after `reset(get())`) is undefined behaviour in the source rather than a handled case. `NonNullPtr.Deref` (`operator*`) requires the same of a non-null pointer; `NonNullPtr.Arrow` (`operator->`) only returns the pointer and requires nothing of the pointee.
- SmartPointers.UniquePtr.Get: also stands for `operator->`, which returns the same pointer.
- SmartPointers.NonNullPtr.constructor: requires a non-null pointer. The failing path of the runtime assertion is modelled by `NonNullPtr.Make`. Builds with `NDEBUG`, where the assertions vanish, are not modelled.
- SmartPointers.NonNullPtr.MoveAssign: a failed assertion aborts the program. The model reports `ok == false` with the state unchanged, and does not model the abort itself. `Reset` and `Deref` of `NonNullPtr` do the same.
- OwnershipLinks: `unique_ptr` and `non0_ptr` objects form two separate worlds, so a program that mixes both kinds is covered one kind at a time. Raw pointers a program holds are not part of a world; the lemmas' preconditions (an unowned pointer for construction and `reset`) are what a caller must establish about them.
- The ghost `destroyed` flag turns use after destruction into a precondition violation. C++ does not check this; it is undefined behaviour there.
- FuelConsumption.Engine.TakeFuel: it runs at most `maxAttempts` passes. The source loop has no bound, and it spins for as long as no tank can supply the amount and `running` stays true. That loop's termination is not claimed.
- ThreadIdentification.IdGenerator.constructor: an instance stands for the single function-local static counter of `generateThreadId`. Nothing stops a program from building a second instance, which would issue 1, 2, … again; the model assumes exactly one instance, as the source has one static.
- ThreadIdentification.IdGenerator.GenerateThreadId: it promises increasing ids only below 2^32 - 1 calls. The wrap-around beyond that is modelled and exhibited by `IssuedWraps`, but nothing more is promised about it.
