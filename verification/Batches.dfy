/**
 * The owned future of a timestep batch, over real owners and guards (advance_async in
 * src/gpu/timesteps.rs). Its frame follows the state machine of Futures step for step.
 */
module Batches {
  import opened Errors
  import opened Grids
  import opened Stencil
  import opened Schedules
  import opened Limits
  import opened Runtime
  import opened Futures
  import opened Sessions
  import opened Timesteps

  /**
   * One poll: it finds this many steps completed, and then either nothing more yet or a failure, which
   * is that of binding the device if no step was in flight and binds is false.
   */
  datatype BatchPoll = BatchPoll(completes: nat, fails: bool, binds: bool)

  class BatchFuture<V> {
    const grid: DoubleGrid<V>
    const p: JacobiParams<V>
    const steps: nat
    const operation: Reservation
    var remaining: nat
    var phase: Phase<V>
    ghost var launches: nat
    ghost const start: State<V>

    constructor (grid: DoubleGrid<V>, p: JacobiParams<V>, steps: nat, operation: Reservation)
      requires grid.Valid() && grid.completed + steps <= grid.session.budget.word.UsizeMax()
      requires operation in grid.session.budget.outstanding && !operation.buffer
      ensures this.grid == grid && this.p == p && this.steps == steps && this.operation == operation
      ensures Valid() && phase == Suspended && remaining == steps && launches == 0
    {
      this.grid := grid;
      this.p := p;
      this.steps := steps;
      this.operation := operation;
      remaining := steps;
      phase := Suspended;
      launches := 0;
      start := grid.Now();
    }

    ghost function Frame(): Batch<V> {
      Batch(grid.ops, grid.rhs.shape, p)
    }

    /** This future as a job of the state machine. */
    ghost function Now(): Job<V>
      reads this`remaining, this`phase, this`launches, grid`current, grid`next, grid`completed, grid.session.device
    {
      Job(grid.Now(), remaining, phase, launches)
    }

    ghost predicate Owning()
      reads grid`current, grid`next, grid.session`owners, grid.session.budget
    {
      grid.Live() && operation in grid.session.budget.outstanding && !operation.buffer
    }

    /** The grid the future was made from held the double-buffer invariant. */
    ghost predicate Began()
      reads grid`history
    {
      && Holds(grid.ops, grid.rhs.shape, start, grid.home, grid.initial, grid.history)
      && start.completed + steps <= grid.session.budget.word.UsizeMax()
    }

    ghost predicate Tracked()
      reads this`remaining, this`phase, this`launches, grid`current, grid`next, grid`completed, grid.session.device
      requires start.Ready(grid.rhs.shape)
    {
      (phase.Suspended? || phase.InFlight?) && Frame().Tracks(start, steps, Now()) && Named()
    }

    /** The storage is the one the future was made with. */
    ghost predicate Named()
      reads grid`current, grid`next
    {
      && {grid.current.tensor.alloc, grid.next.tensor.alloc} == {start.current, start.next}
      && grid.rhs.tensor.alloc == start.rhs
    }

    /** A future that has not ended. */
    ghost predicate Valid()
      reads this, grid, grid.session, grid.session.device, grid.session.budget
    {
      grid.session.Valid() && Owning() && Began() && Tracked()
    }

    /** Whatever other calls write in other storage between two polls, the future stays valid. */
    twostate lemma Undisturbed()
      requires old(Valid()) && grid.session.Valid() && Owning() && unchanged(this, grid)
      requires Frame().Agrees(grid.Now(), old(grid.session.device.mem), grid.session.device.mem)
      ensures Valid()
    {
      Frame().ElsewhereTracks(start, steps, old(Now()), grid.session.device.mem);
      assert Now() == old(Now()).(state := old(Now()).state.(mem := grid.session.device.mem));
    }

    /** Submitting a step: the launch is in the stream, and none of its blocks has run. */
    method Submit()
      requires Began() && Tracked() && phase.Suspended? && remaining > 0
      modifies this`phase, this`launches
      ensures Began() && Tracked() && phase.InFlight? && launches == old(launches) + 1
    {
      ghost var j := Now();
      Frame().SubmitTracks(start, steps, j);
      var l := StepLaunch();
      assert l == Frame().LaunchIn(j);
      phase := InFlight(l.Start(grid.session.device.mem).blocks);
      launches := launches + 1;
      assert Now() == Frame().Submitted(j);
    }

    /** The device works on the step in flight for a while. */
    method Progress()
      requires grid.session.Storage() && grid.Live() && Began() && Tracked() && phase.InFlight?
      modifies this`phase, grid.session.device
      ensures grid.session.Storage() && grid.Live() && Began() && Tracked() && phase.InFlight?
      ensures grid.next.tensor.alloc in grid.session.device.mem
      ensures grid.session.device.mem ==
              old(grid.session.device.mem)[grid.next.tensor.alloc := grid.session.device.mem[grid.next.tensor.alloc]]
    {
      ghost var j := Now();
      var l := StepLaunch();
      assert l == Frame().LaunchIn(j);
      ghost var base := Frame().Base(start, steps, j);
      var blocks := grid.session.device.RunBlocks(l, base, phase.blocks, false);
      ghost var frame, mem := Frame(), grid.session.device.mem;
      frame.ProgressTracks(start, steps, j, mem, blocks);
      grid.session.StorageKept(grid.next.tensor.alloc);
      phase := InFlight(blocks);
      assert Now() == j.Ran(mem, blocks) && Frame() == frame;
    }

    /** The launch of the step in flight, or of the next one. */
    function StepLaunch(): Launch<V>
      reads grid`current, grid`next
    {
      Launch(grid.ops, grid.rhs.shape, Timestep(p, grid.rhs.tensor.alloc), grid.current.tensor.alloc,
             grid.next.tensor.alloc)
    }

    /** The device finishes the launch it works on, and the grids exchange roles. */
    method RunStep(ghost base: Memory<V>)
      requires grid.session.Storage() && grid.Live() && phase.InFlight? && remaining > 0
      requires StepLaunch().Fits(base) && StepLaunch().Exclusive()
      requires StepLaunch().Inv(base, Machine(grid.session.device.mem, phase.blocks))
      modifies this`phase, this`remaining, grid`current, grid`next, grid`completed, grid.session.device
      ensures grid.session.Storage() && grid.Live() && phase.Suspended? && remaining == old(remaining) - 1
      ensures {grid.current, grid.next} == old({grid.current, grid.next})
      ensures Now() == old(Now()).(state := old(grid.Now()).(mem := old(StepLaunch()).Completed(base))).Completed()
    {
      var l := StepLaunch();
      var blocks := grid.session.device.RunBlocks(l, base, phase.blocks, true);
      l.DoneMeansCompleted(base, Machine(grid.session.device.mem, blocks));
      grid.session.StorageKept(grid.next.tensor.alloc);
      grid.SwapCompleted();
      remaining := remaining - 1;
      phase := Suspended;
    }

    /** The step in flight, to its end and the exchange of roles. */
    method FinishStep()
      requires grid.session.Storage() && grid.Live() && Began() && Tracked() && phase.InFlight?
      modifies this`phase, this`remaining, grid`current, grid`next, grid`completed, grid.session.device
      ensures grid.session.Storage() && grid.Live() && Began() && Tracked() && phase.Suspended?
      ensures remaining == old(remaining) - 1 && OnlyGrids(old(grid.Now()), grid.Now())
    {
      ghost var base, after := StepEnds();
      RunStep(base);
      assert Now() == after;
    }

    /** What the launch in flight works on, and where the batch is at its end. */
    lemma StepEnds() returns (base: Memory<V>, after: Job<V>)
      requires Began() && Tracked() && phase.InFlight?
      ensures remaining > 0 && StepLaunch().Fits(base) && StepLaunch().Exclusive()
      ensures StepLaunch().Inv(base, Machine(grid.session.device.mem, phase.blocks))
      ensures after == Now().(state := grid.Now().(mem := StepLaunch().Completed(base))).Completed()
      ensures Frame().Tracks(start, steps, after) && OnlyGrids(grid.Now(), after.state)
    {
      assert StepLaunch() == Frame().LaunchIn(Now());
      base := Frame().Base(start, steps, Now());
      after := Frame().FinishTracks(start, steps, Now());
    }

    /** One step that the poll finds completed, submitted now or by an earlier poll. */
    method StepOnce()
      requires grid.session.Storage() && grid.Live() && Began() && Tracked() && remaining > 0
      modifies this`phase, this`launches, this`remaining, grid`current, grid`next, grid`completed, grid.session.device
      ensures grid.session.Storage() && grid.Live() && Began() && Tracked() && phase.Suspended?
      ensures remaining == old(remaining) - 1 && OnlyGrids(old(grid.Now()), grid.Now())
    {
      if phase.Suspended? { Submit(); }
      FinishStep();
    }

    /** As many steps as the poll finds completed. */
    method Steps(completes: nat)
      requires grid.session.Storage() && grid.Live() && Began() && Tracked()
      modifies this`phase, this`launches, this`remaining, grid`current, grid`next, grid`completed, grid.session.device
      ensures grid.session.Storage() && grid.Live() && Began() && Tracked()
      ensures remaining == Minus(old(remaining), completes) && OnlyGrids(old(grid.Now()), grid.Now())
      ensures remaining == 0 ==> phase.Suspended?
    {
      ghost var first, before := grid.Now(), remaining;
      var k := 0;
      while remaining > 0 && k < completes
        invariant grid.session.Storage() && grid.Live() && Began() && Tracked()
        invariant k <= completes && remaining == Minus(before, k) && OnlyGrids(first, grid.Now())
        decreases completes - k
      {
        ghost var second := grid.Now();
        StepOnce();
        OnlyGridsChain(first, second, grid.Now());
        k := k + 1;
      }
    }

    /** Dropping the operation's guard. */
    method ReturnOperation()
      requires grid.session.Valid() && Owning()
      modifies grid.session.budget
      ensures grid.session.Valid() && old(grid.session.budget.usage) == grid.session.budget.usage.Plus(OneOperation())
    {
      grid.session.OperationUnheld(operation);
      grid.session.budget.Release(operation);
    }

    /** The end of the frame without a result: the operation goes, then the grid. */
    method Discard()
      requires grid.session.Valid() && Owning() && Named()
      modifies grid.session, grid.session.device, grid.session.budget
      ensures grid.session.Valid()
      ensures Gone(old(grid.session.owners), old(grid.session.device.mem), old(grid.session.budget.usage))
    {
      ReturnOperation();
      assert {start.current, start.next} + {start.rhs} == {start.current, start.next, start.rhs};
      grid.Discard();
      assert old(grid.session.budget.usage) ==
        grid.session.budget.usage.Plus(GridCharge(grid.rhs.shape)).Plus(OneOperation());
    }

    /** The three buffers and their charges are gone, and the operation's; all else is as it was. */
    ghost predicate Gone(owners: map<Alloc, Buffer<V>>, mem: Memory<V>, usage: Usage)
      reads grid, grid.session, grid.session.device, grid.session.budget
    {
      var names := {start.current, start.next, start.rhs};
      && grid.session.owners == owners - names && grid.session.device.mem == mem - names
      && usage == grid.session.budget.usage.Plus(GridCharge(grid.rhs.shape)).Plus(OneOperation())
    }

    /**
     * What a poll leaves behind, with left steps still to complete. Pending: the job is still on the
     * blocking batch's path, whatever the device has written. Ok: the grid is back with the
     * double-buffer invariant and all steps in its history, and the operation is returned. Err:
     * everything the frame owned is gone.
     */
    ghost predicate PollLeaves(r: Polled, left: nat, fails: bool, first: State<V>, owners: map<Alloc, Buffer<V>>,
                               history: seq<JacobiParams<V>>, usage: Usage)
      reads this, grid, grid.session, grid.session.device, grid.session.budget
    {
      if r.StillPending? then
        && left > 0 && !fails
        && Valid() && phase.InFlight? && remaining == left && OnlyGrids(first, grid.Now())
        && grid.session.owners == owners && grid.session.budget.usage == usage
      else if r.result.Ok? then
        && left == 0
        && grid.Valid() && phase.Resolved? && grid.history == history + Repeat(p, steps) && OnlyGrids(first, grid.Now())
        && grid.session.owners == owners && usage == grid.session.budget.usage.Plus(OneOperation())
      else
        && left > 0 && fails
        && grid.session.Valid() && phase.Failed? && Gone(owners, first.mem, usage)
    }

    /** The end of the frame with a result: the operation goes, and the caller has the grid back. */
    method Resolve(ghost fails: bool, ghost first: State<V>) returns (r: Polled)
      requires grid.session.Valid() && Owning() && Began() && Tracked() && phase.Suspended? && remaining == 0
      requires OnlyGrids(first, grid.Now())
      modifies this`phase, grid`history, grid.session.budget
      ensures PollLeaves(r, 0, fails, first, old(grid.session.owners), old(grid.history),
                         old(grid.session.budget.usage))
    {
      Conclude();
      phase := Resolved;
      return Ready(Ok(()));
    }

    /** Dropping the operation's guard, and handing back the grid. */
    method Conclude()
      requires grid.session.Valid() && Owning() && Began() && Tracked() && phase.Suspended? && remaining == 0
      modifies grid`history, grid.session.budget
      ensures grid.Valid() && grid.history == old(grid.history) + Repeat(p, steps)
      ensures old(grid.session.budget.usage) == grid.session.budget.usage.Plus(OneOperation())
    {
      ReturnOperation();
      Publish();
    }

    /** The grid is ready again, with all steps in its history. */
    method Publish()
      requires grid.session.Valid() && grid.Live() && Began() && Tracked() && phase.Suspended? && remaining == 0
      modifies grid`history
      ensures grid.Valid() && grid.history == old(grid.history) + Repeat(p, steps)
    {
      Frame().HoldsAtEnd(start, steps, Now(), grid.home, grid.initial, grid.history);
      grid.history := grid.history + Repeat(p, steps);
    }

    /** A step is in the stream, and the device may have worked on it. */
    method Continue()
      requires grid.session.Storage() && grid.Live() && Began() && Tracked() && remaining > 0
      modifies this`phase, this`launches, grid.session.device
      ensures grid.session.Storage() && grid.Live() && Began() && Tracked() && phase.InFlight?
      ensures OnlyGrids(old(grid.Now()), grid.Now())
    {
      if phase.Suspended? { Submit(); }
      Progress();
    }

    /** One poll of the future. */
    method Poll(fate: BatchPoll) returns (r: Polled)
      requires Valid()
      modifies this, grid, grid.session, grid.session.device, grid.session.budget
      ensures PollLeaves(r, Minus(old(remaining), fate.completes), fate.fails, old(grid.Now()),
                         old(grid.session.owners),
                         old(grid.history), old(grid.session.budget.usage))
    {
      ghost var first := grid.Now();
      Steps(fate.completes);
      assert grid.session.Valid();
      r := Settle(fate, first);
    }

    /** Work of the device alone keeps the future valid. */
    twostate lemma Worked()
      requires old(Valid()) && unchanged(grid, grid.session, grid.session.budget)
      requires grid.session.Storage() && grid.Live() && Began() && Tracked()
      ensures Valid() && grid.session.Valid() && Owning() && Named()
    {
    }

    /** How the poll ends after the steps it found completed. */
    method Settle(fate: BatchPoll, ghost first: State<V>) returns (r: Polled)
      requires Valid() && OnlyGrids(first, grid.Now()) && (remaining == 0 ==> phase.Suspended?)
      modifies this`phase, this`launches, grid`history, grid.session, grid.session.device, grid.session.budget
      ensures PollLeaves(r, old(remaining), fate.fails, first, old(grid.session.owners), old(grid.history),
                         old(grid.session.budget.usage))
    {
      if remaining == 0 {
        r := Resolve(fate.fails, first);
      } else {
        r := PollRest(fate, first);
      }
    }

    /** The poll beyond the last step it finds completed. */
    method PollRest(fate: BatchPoll, ghost first: State<V>) returns (r: Polled)
      requires Valid() && remaining > 0 && OnlyGrids(first, grid.Now())
      modifies this`phase, this`launches, grid.session, grid.session.device, grid.session.budget
      ensures PollLeaves(r, old(remaining), fate.fails, first, old(grid.session.owners), old(grid.history),
                         old(grid.session.budget.usage))
    {
      ghost var second := grid.Now();
      if fate.fails && phase.Suspended? && !fate.binds {
        r := GiveUp(Stage.Bind, remaining, first);
        return;
      }
      Continue();
      Worked();
      OnlyGridsChain(first, second, grid.Now());
      if !fate.fails { return StillPending; }
      r := GiveUp(Stage.Execute, remaining, first);
    }

    /** A poll that reports a failure, with left steps still to complete. */
    method GiveUp(stage: Stage, ghost left: nat, ghost first: State<V>) returns (r: Polled)
      requires grid.session.Valid() && Owning() && Named() && OnlyGrids(first, grid.Now()) && left > 0
      modifies this`phase, grid.session, grid.session.device, grid.session.budget
      ensures PollLeaves(r, left, true, first, old(grid.session.owners), old(grid.history),
                         old(grid.session.budget.usage))
    {
      Abandon(Failed, first);
      return Ready(Err(Backend(stage)));
    }

    /** Dropping the frame's owners, in whatever state the batch left the two grids. */
    method Abandon(ended: Phase<V>, ghost first: State<V>)
      requires grid.session.Valid() && Owning() && Named() && OnlyGrids(first, grid.Now())
      modifies this`phase, grid.session, grid.session.device, grid.session.budget
      ensures grid.session.Valid() && phase == ended
      ensures Gone(old(grid.session.owners), first.mem, old(grid.session.budget.usage))
    {
      GoneAs(first);
      Discard();
      phase := ended;
    }

    /** Nothing of the batch shows in memory once its storage is gone. */
    lemma GoneAs(first: State<V>)
      requires OnlyGrids(first, grid.Now()) && Named()
      ensures var names := {start.current, start.next, start.rhs}; first.mem - names == grid.session.device.mem - names
    {
      OnlyGridsGone(first, grid.Now());
      assert {first.current, first.next} + {first.rhs} == {first.current, first.next, first.rhs};
      assert {start.current, start.next} + {start.rhs} == {start.current, start.next, start.rhs};
    }

    /** The stream is drained of the step in flight, if there is one. */
    method Drain()
      requires Valid()
      modifies this`phase, grid.session.device
      ensures grid.session.Valid() && Owning() && Named() && OnlyGrids(old(grid.Now()), grid.Now())
    {
      if phase.InFlight? {
        Progress();
        Worked();
      }
    }

    /** Dropping the future: a step in flight is drained first, and then everything goes. */
    method Drop()
      requires Valid()
      modifies this`phase, grid.session, grid.session.device, grid.session.budget
      ensures grid.session.Valid() && phase.Released?
      ensures Gone(old(grid.session.owners), old(grid.Now()).mem, old(grid.session.budget.usage))
    {
      ghost var first := grid.Now();
      Drain();
      Abandon(Released, first);
    }
  }

  /** advance_async: refused, it consumes the grid; accepted, the future owns the grid and one operation. */
  method AdvanceAsync<V>(grid: DoubleGrid<V>, steps: nat, p: JacobiParams<V>) returns (r: Result<BatchFuture<V>>)
    requires grid.Valid()
    modifies grid.session, grid.session.device, grid.session.budget
    ensures grid.session.Valid()
    ensures r.Ok? <==>
            && grid.completed + steps <= grid.session.budget.word.UsizeMax()
            && old(grid.session.budget.usage.operations) < grid.session.budget.limits.operations
    ensures r.Ok? ==>
              && fresh(r.value) && r.value.Valid() && r.value.grid == grid && r.value.p == p && r.value.steps == steps
              && r.value.remaining == steps && r.value.phase.Suspended? && r.value.launches == 0
              && grid.Now() == old(grid.Now()) && grid.session.owners == old(grid.session.owners)
              && grid.session.budget.usage == old(grid.session.budget.usage).Plus(OneOperation())
    ensures r.Err? ==> grid.Consumed()
  {
    var operation := grid.AdvanceAsync(steps);
    if operation.Err? { return Err(operation.error); }
    var future := new BatchFuture(grid, p, steps, operation.value);
    return Ok(future);
  }
}
