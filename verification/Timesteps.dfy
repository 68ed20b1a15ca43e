/** The double-buffered timestep state and its batches (src/gpu/timesteps.rs). */
module Timesteps {
  import opened Grids
  import opened Errors
  import opened Shape
  import opened Stencil
  import opened Schedules
  import opened Limits
  import opened Runtime
  import opened Sessions

  /** Every step of a batch submits one launch, and the batch ends with the first that fails. */
  datatype BatchFate = BatchFate(binds: bool, launches: nat) {
    predicate Succeeds(steps: nat) { binds && steps <= launches }
  }

  /** Nothing of a batch remains once the state is gone. */
  lemma OnlyGridsGone<V>(before: State<V>, after: State<V>)
    requires OnlyGrids(before, after)
    ensures var gone := {before.current, before.next, before.rhs};
            after.mem - gone == before.mem - gone && {after.current, after.next, after.rhs} == gone
  {
    assert {after.current, after.next, after.rhs} == {after.current, after.next} + {after.rhs};
  }

  lemma ThreeReturned(guards: set<Reservation>, first: Reservation, second: Reservation, third: Reservation)
    requires {first, second, third} !! guards
    ensures guards + {first} + {second} + {third} - {first, second, third} == guards
  {
  }

  class DoubleGrid<V> {
    const session: Session<V>
    const ops: Arith<V>
    var current: Buffer<V>
    var next: Buffer<V>
    const rhs: Buffer<V>
    var completed: nat
    ghost const initial: seq<V>
    ghost const home: (Alloc, Alloc)
    ghost var history: seq<JacobiParams<V>>

    /** Two copies of the initial grid, and a right-hand side. */
    constructor (session: Session<V>, ops: Arith<V>, current: Buffer<V>, next: Buffer<V>, rhs: Buffer<V>,
                 ghost initial: seq<V>)
      requires session.Valid() && session.Owns(current) && session.Owns(next) && session.Owns(rhs)
      requires current.haloed && next.haloed && !rhs.haloed && current != next
      requires current.shape == next.shape == rhs.shape
      requires {current.tensor.alloc, next.tensor.alloc} <= session.device.mem.Keys
      requires session.device.mem[current.tensor.alloc] == session.device.mem[next.tensor.alloc] == initial
      ensures this.session == session && this.ops == ops && this.initial == initial
      ensures this.current == current && this.next == next && this.rhs == rhs
      ensures Valid() && completed == 0 && history == []
    {
      this.session := session;
      this.ops := ops;
      this.current := current;
      this.next := next;
      this.rhs := rhs;
      this.initial := initial;
      completed := 0;
      home := (current.tensor.alloc, next.tensor.alloc);
      history := [];
      assert session.Stored(current.tensor.alloc, current);
      assert session.Stored(next.tensor.alloc, next);
      assert session.Stored(rhs.tensor.alloc, rhs);
    }

    /** The three buffers are live, distinct and of one shape. */
    ghost predicate Live()
      reads this`current, this`next, session`owners
    {
      && session.Owns(current) && session.Owns(next) && session.Owns(rhs)
      && current.haloed && next.haloed && !rhs.haloed && current != next
      && current.shape == rhs.shape && next.shape == rhs.shape
    }

    ghost function Now(): State<V>
      reads this`current, this`next, this`completed, session.device
    {
      State(session.device.mem, current.tensor.alloc, next.tensor.alloc, rhs.tensor.alloc, completed)
    }

    /** Between public calls; the counter has not overflowed. */
    ghost predicate Valid()
      reads this, session, session.device, session.budget
    {
      && session.Valid() && Live()
      && Holds(ops, rhs.shape, Now(), home, initial, history)
      && completed <= session.budget.word.UsizeMax()
    }

    lemma LiveIsReady()
      requires session.Storage() && Live()
      ensures Now().Ready(rhs.shape)
    {
      assert session.Stored(current.tensor.alloc, current);
      assert session.Stored(next.tensor.alloc, next);
      assert session.Stored(rhs.tensor.alloc, rhs);
    }

    /** The launches of a batch, each followed by the exchange of the two grids. */
    method RunBatch(steps: nat, p: JacobiParams<V>, launches: nat) returns (r: Result<()>)
      requires session.Storage() && Live() && Now().Ready(rhs.shape)
      modifies this`current, this`next, this`completed, session.device
      ensures session.Storage() && Live()
      ensures r.Ok? <==> steps <= launches
      ensures r.Ok? ==> Now() == Runtime.Advance(ops, rhs.shape, p, old(Now()), steps)
      ensures r.Err? ==> r.error.Backend?
      ensures OnlyGrids(old(Now()), Now())
    {
      ghost var start := Now();
      for i := 0 to steps
        invariant session.Storage() && Live() && Now().Ready(rhs.shape) && i <= launches
        invariant OnlyGrids(start, Now())
        invariant Now() == Runtime.Advance(ops, rhs.shape, p, start, i)
      {
        ghost var before := Now();
        r := StepOnce(p, i < launches);
        LiveIsReady();
        OnlyGridsChain(start, before, Now());
        if r.Err? { return; }
      }
      return Ok(());
    }

    /** One blocking launch of the timestep kernel, then the exchange of roles. */
    method StepOnce(p: JacobiParams<V>, completes: bool) returns (r: Result<()>)
      requires session.Storage() && Live() && Now().Ready(rhs.shape)
      modifies this`current, this`next, this`completed, session.device
      ensures session.Storage() && Live() && (r.Ok? <==> completes) && (r.Err? ==> r.error.Backend?)
      ensures r.Ok? ==> Now() == Advanced(ops, rhs.shape, p, old(Now()))
      ensures OnlyGrids(old(Now()), Now())
    {
      r := Launch(p, completes);
      if r.Err? { return; }
      LiveIsReady();
      SwapCompleted();
    }

    /** The launch: next is overwritten from current and rhs. */
    method Launch(p: JacobiParams<V>, completes: bool) returns (r: Result<()>)
      requires session.Storage() && Live() && Now().Ready(rhs.shape)
      modifies session.device
      ensures session.Storage() && (r.Ok? <==> completes) && (r.Err? ==> r.error.Backend?)
      ensures next.tensor.alloc in session.device.mem
      ensures session.device.mem == old(session.device.mem)[next.tensor.alloc := session.device.mem[next.tensor.alloc]]
      ensures completes ==>
                session.device.mem == LaunchOf(ops, rhs.shape, p, old(Now())).Completed(old(session.device.mem))
    {
      var s := rhs.shape;
      var l := Schedules.Launch(ops, s, Timestep(p, rhs.tensor.alloc), current.tensor.alloc, next.tensor.alloc);
      if completes {
        session.device.Launch(l);
        r := Ok(());
      } else {
        session.device.Fail(l);
        r := Err(Backend(Stage.Execute));
      }
      session.StorageKept(next.tensor.alloc);
    }

    method SwapCompleted()
      modifies this`current, this`next, this`completed
      ensures current == old(next) && next == old(current) && completed == old(completed) + 1
    {
      current, next := next, current;
      completed := completed + 1;
    }

    /** Dropping the owner: its three buffers and their charges go, nothing else does. */
    method Discard()
      requires session.Valid() && Live()
      modifies session, session.device, session.budget
      ensures session.Valid()
      ensures session.owners == old(session.owners) - {current.tensor.alloc, next.tensor.alloc, rhs.tensor.alloc}
      ensures session.device.mem ==
                old(session.device.mem) - {current.tensor.alloc, next.tensor.alloc, rhs.tensor.alloc}
      ensures old(session.budget.usage) == session.budget.usage.Plus(GridCharge(rhs.shape))
    {
      assert session.Stored(current.tensor.alloc, current) &&
        current.reservation.Charge() == OneBuffer(rhs.shape.haloedBytes);
      assert session.Stored(next.tensor.alloc, next) && next.reservation.Charge() == OneBuffer(rhs.shape.haloedBytes);
      assert session.Stored(rhs.tensor.alloc, rhs) && rhs.reservation.Charge() == OneBuffer(rhs.shape.interiorBytes);
      session.FreeThree(current, next, rhs);
    }

    /** A batch under its one operation. */
    method Admitted(steps: nat, p: JacobiParams<V>, fate: BatchFate) returns (r: Result<()>)
      requires session.Valid() && Live() && Now().Ready(rhs.shape)
      modifies this`current, this`next, this`completed, session.device, session.budget
      ensures session.Valid() && Live() && session.budget.usage == old(session.budget.usage)
      ensures r.Ok? <==> old(session.budget.usage.operations) < session.budget.limits.operations && fate.Succeeds(steps)
      ensures r.Ok? ==> Now() == Runtime.Advance(ops, rhs.shape, p, old(Now()), steps)
      ensures r.Err? && r.error.ResourceLimit? ==>
                old(session.budget.usage.operations) >= session.budget.limits.operations
      ensures OnlyGrids(old(Now()), Now())
    {
      var operation := session.budget.Operation();
      if operation.Err? { return Err(operation.error); }
      Returned(old(session.budget.outstanding), old(session.budget.usage), operation.value);
      if fate.binds {
        r := RunBatch(steps, p, fate.launches);
      } else {
        r := Err(Backend(Stage.Bind));
      }
      session.budget.Release(operation.value);
    }

    /** A batch that succeeds extends the history; one that fails leaves only its own grids uncertain. */
    method Batch(steps: nat, p: JacobiParams<V>, fate: BatchFate) returns (r: Result<()>)
      requires Valid() && completed + steps <= session.budget.word.UsizeMax()
      modifies this, session.device, session.budget
      ensures session.Valid() && Live() && session.budget.usage == old(session.budget.usage)
      ensures r.Ok? <==> old(session.budget.usage.operations) < session.budget.limits.operations && fate.Succeeds(steps)
      ensures r.Ok? ==> Valid() && history == old(history) + Repeat(p, steps)
      ensures r.Ok? ==> Now() == Runtime.Advance(ops, rhs.shape, p, old(Now()), steps)
      ensures r.Err? && r.error.ResourceLimit? ==>
                old(session.budget.usage.operations) >= session.budget.limits.operations
      ensures OnlyGrids(old(Now()), Now())
    {
      r := Admitted(steps, p, fate);
      if r.Err? { return; }
      ghost var longer := history + Repeat(p, steps);
      assert Holds(ops, rhs.shape, Now(), home, initial, longer) by {
        HistoryAdvances(ops, rhs.shape, p, old(Now()), steps, home, initial, history);
      }
      history := longer;
    }

    /** The state was consumed: its storage and exactly its charge are gone, all else is as it was. */
    twostate predicate Consumed()
      reads session, session.device, session.budget
    {
      var gone := {old(current).tensor.alloc, old(next).tensor.alloc, rhs.tensor.alloc};
      && session.owners == old(session.owners) - gone
      && session.device.mem == old(session.device.mem) - gone
      && old(session.budget.usage) == session.budget.usage.Plus(GridCharge(rhs.shape))
    }

    /**
     * advance: the next ready state is steps iterations of the oracle, or the whole state is
     * consumed. One operation covers the batch, and none remains charged.
     */
    method Advance(steps: nat, p: JacobiParams<V>, fate: BatchFate) returns (r: Result<()>)
      requires Valid()
      modifies this, session, session.device, session.budget
      ensures session.Valid()
      ensures r.Ok? <==>
              && old(completed) + steps <= session.budget.word.UsizeMax()
              && old(session.budget.usage.operations) < session.budget.limits.operations
              && fate.Succeeds(steps)
      ensures r.Ok? ==>
                && Valid() && history == old(history) + Repeat(p, steps)
                && Now() == Runtime.Advance(ops, rhs.shape, p, old(Now()), steps)
                && session.owners == old(session.owners) && session.budget.usage == old(session.budget.usage)
      ensures r.Err? ==> Consumed()
      ensures r.Err? && r.error.ResourceLimit? ==>
                old(session.budget.usage.operations) >= session.budget.limits.operations
    {
      if completed + steps > session.budget.word.UsizeMax() {
        Discard();
        return Err(Backend(StepCount));
      }
      r := Batch(steps, p, fate);
      if r.Err? {
        OnlyGridsGone(old(Now()), Now());
        Discard();
      }
    }

    /** advance_async up to its return: the future will own the state and this operation, and nothing has run. */
    method AdvanceAsync(steps: nat) returns (r: Result<Reservation>)
      requires Valid()
      modifies session, session.device, session.budget
      ensures session.Valid()
      ensures r.Ok? <==>
              && completed + steps <= session.budget.word.UsizeMax()
              && old(session.budget.usage.operations) < session.budget.limits.operations
      ensures r.Ok? ==>
                && Valid() && Now() == old(Now()) && session.owners == old(session.owners)
                && r.value in session.budget.outstanding && !r.value.buffer
                && session.budget.usage == old(session.budget.usage).Plus(OneOperation())
      ensures r.Err? ==> Consumed()
    {
      if completed + steps > session.budget.word.UsizeMax() {
        Discard();
        return Err(Backend(StepCount));
      }
      r := session.budget.Operation();
      if r.Err? { Discard(); }
    }

    /** observe: the snapshot is the oracle's grid, and the state goes on as if it had not been taken. */
    method Observe(fate: CallFate) returns (r: Result<seq<V>>)
      requires Valid()
      modifies session, session.device, session.budget
      ensures session.Valid()
      ensures r.Ok? <==> old(session.budget.usage.operations) < session.budget.limits.operations && fate.Succeeds()
      ensures r.Ok? ==>
                && Valid() && Now() == old(Now())
                && session.owners == old(session.owners) && session.budget.usage == old(session.budget.usage)
                && r.value == Evolve(Problem(ops, rhs.shape, Now().mem[rhs.tensor.alloc]), initial, history)
      ensures r.Err? ==> Consumed()
      ensures r.Err? && r.error.ResourceLimit? ==>
                old(session.budget.usage.operations) >= session.budget.limits.operations
    {
      r := session.Readback(current, Snapshot, fate);
      if r.Err? { Discard(); }
    }
  }

  /** Both reservations of haloed storage and that of the right-hand side, or none of them. */
  method Reserve(budget: Budget, s: Shape2D) returns (r: Result<(Reservation, Reservation, Reservation)>)
    requires budget.Valid() && s.Valid()
    modifies budget
    ensures budget.Valid()
    ensures r.Ok? <==> GridRoom(budget.limits, old(budget.usage), s)
    ensures r.Ok? ==>
              && r.value.0.bytes == r.value.1.bytes == s.haloedBytes && r.value.2.bytes == s.interiorBytes
              && r.value.0.buffer && r.value.1.buffer && r.value.2.buffer
              && r.value.0 !in old(budget.outstanding) && r.value.1 !in old(budget.outstanding)
              && r.value.2 !in old(budget.outstanding)
              && r.value.0 != r.value.1 && r.value.0 != r.value.2 && r.value.1 != r.value.2
              && budget.outstanding == old(budget.outstanding) + {r.value.0} + {r.value.1} + {r.value.2}
              && budget.usage == old(budget.usage).Plus(GridCharge(s))
    ensures r.Err? ==> budget.outstanding == old(budget.outstanding) && budget.usage == old(budget.usage)
    ensures r.Err? ==> r.error.ResourceLimit? && r.error.resource != Operations
  {
    HaloedDominates(s.height, s.width);
    var first := budget.Buffer(s.haloedBytes);
    if first.Err? { return Err(first.error); }
    ghost var one, used := budget.outstanding, budget.usage;
    Returned(old(budget.outstanding), old(budget.usage), first.value);
    var second := budget.Buffer(s.haloedBytes);
    if second.Err? {
      budget.Release(first.value);
      return Err(second.error);
    }
    Returned(one, used, second.value);
    var forcing := budget.Buffer(s.interiorBytes);
    if forcing.Err? {
      budget.Release(second.value);
      budget.Release(first.value);
      return Err(forcing.error);
    }
    return Ok((first.value, second.value, forcing.value));
  }

  /** Room for two haloed grids and one interior field. */
  ghost predicate GridRoom(limits: ResourceLimits, u: Usage, s: Shape2D) {
    && s.haloedBytes <= limits.bufferBytes
    && u.bytes + 2 * s.haloedBytes + s.interiorBytes <= limits.totalBytes
    && u.buffers + 3 <= limits.buffers
  }

  /** A fresh buffer of a state being built. */
  ghost predicate Uploaded<V>(b: Buffer<V>, s: Shape2D, haloed: bool, alloc: Alloc)
    reads b.completion
  {
    b.shape == s && b.haloed == haloed && b.tensor.alloc == alloc && !b.completion.uncertain
  }

  /** The last two uploads: a failure of either gives back both reservations. */
  method UploadRest<V>(session: Session<V>, s: Shape2D, initial: seq<V>, rhs: seq<V>, second: Reservation,
                       forcing: Reservation,
                       nextFate: UploadFate, rhsFate: UploadFate) returns (r: Result<(Buffer<V>, Buffer<V>)>)
    requires session.Valid() && s.Valid() && |initial| == s.haloedLen && |rhs| == s.interiorLen
    requires session.Unheld(second, 4 * |initial|) && session.Unheld(forcing, 4 * |rhs|) && second != forcing
    requires {nextFate.alloc, rhsFate.alloc} !! session.device.mem.Keys && nextFate.alloc != rhsFate.alloc
    modifies session, session.device, session.budget
    ensures session.Valid()
    ensures r.Ok? <==>
              old(session.budget.usage.operations) < session.budget.limits.operations && nextFate.Succeeds() &&
                rhsFate.Succeeds()
    ensures r.Err? && r.error.ResourceLimit? ==>
              old(session.budget.usage.operations) >= session.budget.limits.operations
    ensures r.Ok? ==>
              && Uploaded(r.value.0, s, true, nextFate.alloc) && Uploaded(r.value.1, s, false, rhsFate.alloc)
              && session.owners == old(session.owners)[nextFate.alloc := r.value.0][rhsFate.alloc := r.value.1]
              && session.device.mem == old(session.device.mem)[nextFate.alloc := initial][rhsFate.alloc := rhs]
              && session.budget.usage == old(session.budget.usage)
    ensures r.Err? ==>
              && session.owners == old(session.owners) && session.device.mem == old(session.device.mem)
              && session.budget.outstanding == old(session.budget.outstanding) - {second, forcing}
  {
    var next := session.UploadReserved(s, initial, true, second, nextFate);
    if next.Err? {
      session.budget.Release(forcing);
      return Err(next.error);
    }
    ghost var owners, mem := session.owners, session.device.mem;
    assert owners - {nextFate.alloc} == old(session.owners) by {
      Overwritten(old(session.owners), nextFate.alloc, next.value, next.value);
    }
    assert mem - {nextFate.alloc} == old(session.device.mem) by {
      Overwritten(old(session.device.mem), nextFate.alloc, initial, initial);
    }
    var field := session.UploadReserved(s, rhs, false, forcing, rhsFate);
    if field.Err? {
      session.Free(next.value);
      return Err(field.error);
    }
    return Ok((next.value, field.value));
  }

  method ReleaseBoth(budget: Budget, first: Reservation, second: Reservation)
    requires budget.Valid() && {first, second} <= budget.outstanding && first != second
    modifies budget
    ensures budget.Valid() && budget.outstanding == old(budget.outstanding) - {first, second}
  {
    budget.Release(first);
    budget.Release(second);
  }

  /** The three uploads of a double grid: the grid, its copy and the right-hand side. */
  method UploadGrid<V>(session: Session<V>, s: Shape2D, initial: seq<V>, rhs: seq<V>,
                       first: Reservation, second: Reservation, forcing: Reservation, fate: GridFate)
    returns (r: Result<(Buffer<V>, Buffer<V>, Buffer<V>)>)
    requires session.Valid() && s.Valid() && |initial| == s.haloedLen && |rhs| == s.interiorLen
    requires session.Unheld(first, 4 * |initial|) && session.Unheld(second, 4 * |initial|)
    requires session.Unheld(forcing, 4 * |rhs|)
    requires first != second && first != forcing && second != forcing
    requires fate.FreshIn(session.device.mem)
    modifies session, session.device, session.budget
    ensures session.Valid()
    ensures r.Ok? <==> old(session.budget.usage.operations) < session.budget.limits.operations && fate.Succeeds()
    ensures r.Err? && r.error.ResourceLimit? ==>
              old(session.budget.usage.operations) >= session.budget.limits.operations
    ensures r.Ok? ==>
              && Uploaded(r.value.0, s, true, fate.current.alloc)
              && Uploaded(r.value.1, s, true, fate.next.alloc)
              && Uploaded(r.value.2, s, false, fate.rhs.alloc)
              && session.owners == fate.Extend(old(session.owners), r.value.0, r.value.1, r.value.2)
              && session.device.mem == fate.Extend(old(session.device.mem), initial, initial, rhs)
              && session.budget.usage == old(session.budget.usage)
    ensures r.Err? ==>
              && session.owners == old(session.owners) && session.device.mem == old(session.device.mem)
              && session.budget.outstanding == old(session.budget.outstanding) - {first, second, forcing}
  {
    var current := session.UploadReserved(s, initial, true, first, fate.current);
    if current.Err? {
      ReleaseBoth(session.budget, second, forcing);
      return Err(current.error);
    }
    ghost var owners, mem := session.owners, session.device.mem;
    assert owners - {fate.current.alloc} == old(session.owners) by {
      Overwritten(old(session.owners), fate.current.alloc, current.value, current.value);
    }
    assert mem - {fate.current.alloc} == old(session.device.mem) by {
      Overwritten(old(session.device.mem), fate.current.alloc, initial, initial);
    }
    var rest := FinishGrid(session, s, initial, rhs, current.value, second, forcing, fate);
    if rest.Err? { return Err(rest.error); }
    return Ok((current.value, rest.value.0, rest.value.1));
  }

  /** The uploads after the first: if one fails, the first buffer is dropped too. */
  method FinishGrid<V>(session: Session<V>, s: Shape2D, initial: seq<V>, rhs: seq<V>, current: Buffer<V>,
                       second: Reservation, forcing: Reservation, fate: GridFate)
    returns (r: Result<(Buffer<V>, Buffer<V>)>)
    requires session.Valid() && s.Valid() && |initial| == s.haloedLen && |rhs| == s.interiorLen
    requires session.Owns(current) && session.Unheld(second, 4 * |initial|) && session.Unheld(forcing, 4 * |rhs|)
    requires second != forcing
    requires {fate.next.alloc, fate.rhs.alloc} !! session.device.mem.Keys && fate.next.alloc != fate.rhs.alloc
    modifies session, session.device, session.budget
    ensures session.Valid()
    ensures r.Ok? <==>
              old(session.budget.usage.operations) < session.budget.limits.operations && fate.next.Succeeds() &&
                fate.rhs.Succeeds()
    ensures r.Err? && r.error.ResourceLimit? ==>
              old(session.budget.usage.operations) >= session.budget.limits.operations
    ensures r.Ok? ==>
              && Uploaded(r.value.0, s, true, fate.next.alloc) && Uploaded(r.value.1, s, false, fate.rhs.alloc)
              && session.owners == old(session.owners)[fate.next.alloc := r.value.0][fate.rhs.alloc := r.value.1]
              && session.device.mem == old(session.device.mem)[fate.next.alloc := initial][fate.rhs.alloc := rhs]
              && session.budget.usage == old(session.budget.usage)
    ensures r.Err? ==>
              && session.owners == old(session.owners) - {current.tensor.alloc}
              && session.device.mem == old(session.device.mem) - {current.tensor.alloc}
              && session.budget.outstanding ==
                   old(session.budget.outstanding) - {second, forcing} - {current.reservation}
  {
    r := UploadRest(session, s, initial, rhs, second, forcing, fate.next, fate.rhs);
    if r.Err? { session.Free(current); }
  }

  /** The uploads of a double grid, in order. */
  datatype GridFate = GridFate(current: UploadFate, next: UploadFate, rhs: UploadFate) {
    predicate Succeeds() { current.Succeeds() && next.Succeeds() && rhs.Succeeds() }

    /** A map with the three new allocations. */
    ghost function Extend<T>(m: map<Alloc, T>, first: T, second: T, third: T): map<Alloc, T> {
      m[current.alloc := first][next.alloc := second][rhs.alloc := third]
    }

    // The backend never hands out the address of a live allocation.
    ghost predicate FreshIn<V>(mem: Memory<V>) {
      && {current.alloc, next.alloc, rhs.alloc} !! mem.Keys
      && current.alloc != next.alloc && current.alloc != rhs.alloc && next.alloc != rhs.alloc
    }
  }

  /**
   * double_grid: every exit changes the usage by exactly the three buffers of the state it returns,
   * or by nothing, at whichever check, reservation or upload it fails. With one operation slot free
   * the operations limit is never the cause.
   */
  method MakeGrid<V>(session: Session<V>, ops: Arith<V>, s: Shape2D, initial: seq<V>, rhs: seq<V>, fate: GridFate)
    returns (r: Result<DoubleGrid<V>>)
    requires session.Valid() && s.Valid() && fate.FreshIn(session.device.mem)
    modifies session, session.device, session.budget
    ensures session.Valid()
    ensures r.Ok? <==>
            && |initial| == s.haloedLen && |rhs| == s.interiorLen
            && s.haloHeight <= 65_535 && s.haloWidth <= 65_535
            && GridRoom(session.budget.limits, old(session.budget.usage), s)
            && old(session.budget.usage.operations) < session.budget.limits.operations
            && fate.Succeeds()
    ensures r.Ok? ==>
              && fresh(r.value) && r.value.session == session && r.value.ops == ops && r.value.rhs.shape == s
              && r.value.Valid() && r.value.completed == 0 && r.value.history == [] && r.value.initial == initial
              && session.owners == fate.Extend(old(session.owners), r.value.current, r.value.next, r.value.rhs)
              && session.device.mem == fate.Extend(old(session.device.mem), initial, initial, rhs)
              && r.value.rhs.tensor.alloc == fate.rhs.alloc
              && session.budget.usage == old(session.budget.usage).Plus(GridCharge(s))
    ensures r.Err? ==>
              && session.owners == old(session.owners) && session.device.mem == old(session.device.mem)
              && session.budget.usage == old(session.budget.usage)
    ensures r.Err? && r.error.ResourceLimit? && r.error.resource == Operations ==>
              old(session.budget.usage.operations) >= session.budget.limits.operations
  {
    var checked := CheckGrid(s, initial, rhs);
    if checked.Err? { return Err(checked.error); }
    var reserved := Reserve(session.budget, s);
    if reserved.Err? { return Err(reserved.error); }
    var (first, second, forcing) := reserved.value;
    ThreeReturned(old(session.budget.outstanding), first, second, forcing);
    var buffers := UploadGrid(session, s, initial, rhs, first, second, forcing, fate);
    if buffers.Err? { return Err(buffers.error); }
    var (current, next, field) := buffers.value;
    var grid := new DoubleGrid(session, ops, current, next, field, initial);
    return Ok(grid);
  }

  /** What double_grid checks before it reserves anything. */
  function CheckGrid<V>(s: Shape2D, initial: seq<V>, rhs: seq<V>): (r: Result<()>)
    ensures r.Ok? <==>
              |initial| == s.haloedLen && |rhs| == s.interiorLen && s.haloHeight <= 65_535 && s.haloWidth <= 65_535
  {
    var _ :- CheckLen(Source, s.haloedLen, |initial|);
    var _ :- CheckLen(Rhs, s.interiorLen, |rhs|);
    if s.haloHeight > 65_535 then Err(ShapeLimit(QTimestepRows, s.haloHeight, 65_535))
    else if s.haloWidth > 65_535 then Err(ShapeLimit(QTimestepColumns, s.haloWidth, 65_535))
    else Ok(())
  }
}
