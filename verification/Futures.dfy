/**
 * The lazy future of a timestep batch (advance_async in src/gpu/timesteps.rs).
 *
 * Polling resumes the frame; between polls, and during them, the device runs the blocks of the
 * launch in flight, and other jobs of the session write their own allocations. A poll is any
 * number of Resume events, the last of which finds the launch still running.
 */
module Futures {
  import opened Grids
  import opened Shape
  import opened Stencil
  import opened Schedules
  import opened Runtime

  datatype Phase<V> =
    | Suspended                          // admitted, or between two steps: nothing is in flight
    | InFlight(blocks: seq<Block<V>>)    // a launch was submitted and its completion is not proven
    | Resolved                           // Ok: the owner is back with the caller
    | Failed                             // Err: every owner was dropped
    | Draining(blocks: seq<Block<V>>)    // dropped while in flight, waiting for the stream
    | Released                           // dropped, every owner freed
    | Aborted                            // completion could not be proven: the process is gone

  datatype Event<V> =
    | Resume(ok: bool)                   // ok: the backend call of this transition succeeds
    | Device(r: nat, c: nat)
    | Elsewhere(a: Alloc, data: seq<V>)
    | Drop
    | Drained(proven: bool)

  datatype Job<V> = Job(state: State<V>, remaining: nat, phase: Phase<V>, launches: nat) {
    /** The device has worked on the step in flight. */
    function Ran(mem: Memory<V>, blocks: seq<Block<V>>): Job<V> {
      this.(state := state.(mem := mem), phase := InFlight(blocks))
    }

    /** A step in flight was found completed. */
    function Completed(): Job<V> {
      this.(state := state.Swapped(), remaining := if remaining > 0 then remaining - 1 else 0, phase := Suspended)
    }
  }

  /** advance_async: the future exists, and nothing has been submitted. */
  function Admit<V>(st: State<V>, steps: nat): Job<V> { Job(st, steps, Suspended, 0) }

  datatype Batch<!V> = Batch(ops: Arith<V>, shape: Shape2D, p: JacobiParams<V>) {
    function LaunchIn(j: Job<V>): Launch<V> { LaunchOf(ops, shape, p, j.state) }

    ghost predicate Sized(j: Job<V>) {
      && j.state.Ready(shape)
      && (j.phase.InFlight? || j.phase.Draining? ==> |j.phase.blocks| == shape.haloedLen)
    }

    ghost predicate Finished(j: Job<V>)
      requires Sized(j) && (j.phase.InFlight? || j.phase.Draining?)
    {
      LaunchIn(j).AllDone(Machine(j.state.mem, j.phase.blocks))
    }

    /** The next step is in the stream, and none of its blocks has run. */
    function Submitted(j: Job<V>): Job<V>
      requires j.state.Ready(shape)
    {
      j.(phase := InFlight(LaunchIn(j).Start(j.state.mem).blocks), launches := j.launches + 1)
    }

    ghost function Transition(j: Job<V>, ok: bool): Job<V>
      requires Sized(j)
    {
      match j.phase
      case Suspended =>
        if j.remaining == 0 then j.(phase := Resolved)
        else if !ok then j.(phase := Failed)
        else Submitted(j)
      case InFlight(_) =>
        if !Finished(j) then j                       // Poll::Pending
        else if !ok then j.(phase := Failed)
        else j.Completed()
      case _ => j
    }

    ghost function Next(j: Job<V>, e: Event<V>): (j': Job<V>)
      requires Sized(j)
      ensures Sized(j')
    {
      match e
      case Resume(ok) => Transition(j, ok)
      case Device(r, c) =>
        if (j.phase.InFlight? || j.phase.Draining?) && LaunchIn(j).HasBlock(r, c) then
          var m := LaunchIn(j).MicroStep(Machine(j.state.mem, j.phase.blocks), r, c);
          j.(state := j.state.(mem := m.mem), phase := j.phase.(blocks := m.blocks))
        else j
      case Elsewhere(a, data) =>
        if a in {j.state.current, j.state.next, j.state.rhs} then j
        else j.(state := j.state.(mem := j.state.mem[a := data]))
      case Drop =>
        (match j.phase
         case Suspended => j.(phase := Released)
         case InFlight(blocks) => j.(phase := Draining(blocks))
         case _ => j)
      case Drained(proven) =>
        if !j.phase.Draining? then j
        else if !proven then j.(phase := Aborted)
        else if Finished(j) then j.(phase := Released)
        else j
    }

    ghost function Run(j: Job<V>, events: seq<Event<V>>): (j': Job<V>)
      requires Sized(j)
      ensures Sized(j')
      decreases |events|
    {
      if events == [] then j else Run(Next(j, events[0]), events[1..])
    }

    /**
     * A job that has completed k = steps - remaining steps of st. While a launch is in flight its
     * memory is reached from base: the job's memory with the output as the launch found it.
     */
    ghost predicate Tracks(st: State<V>, steps: nat, j: Job<V>)
      requires st.Ready(shape)
    {
      Sized(j) && j.remaining <= steps && At(Advance(ops, shape, p, st, steps - j.remaining), j)
    }

    ghost predicate At(now: State<V>, j: Job<V>)
      requires now.Ready(shape) && Sized(j)
    {
      match j.phase
      case InFlight(blocks) => Flying(now, j, blocks) && j.remaining > 0
      case Draining(blocks) => Flying(now, j, blocks)
      case Suspended => j.state.SameGrid(now)
      case Resolved => j.remaining == 0 && j.state.SameGrid(now)
      case _ => true
    }

    ghost predicate Flying(now: State<V>, j: Job<V>, blocks: seq<Block<V>>)
      requires now.Ready(shape) && Sized(j)
    {
      var base := j.state.mem[j.state.next := now.mem[now.next]];
      && j.state.(mem := base).SameGrid(now)
      && LaunchIn(j).Fits(base)
      && LaunchIn(j).Inv(base, Machine(j.state.mem, blocks))
    }

    /** Memory that agrees on the three allocations of a job. */
    ghost predicate Agrees(st: State<V>, mem: Memory<V>, mem': Memory<V>) {
      forall a :: a in {st.current, st.next, st.rhs} ==> a in mem && a in mem' && mem[a] == mem'[a]
    }

    lemma DeviceTracks(st: State<V>, steps: nat, j: Job<V>, r: nat, c: nat)
      requires st.Ready(shape) && Tracks(st, steps, j) && (j.phase.InFlight? || j.phase.Draining?)
      requires LaunchIn(j).HasBlock(r, c)
      ensures Tracks(st, steps, Next(j, Device(r, c)))
    {
      var now := Advance(ops, shape, p, st, steps - j.remaining);
      DeviceAt(now, j, r, c);
    }

    lemma DeviceAt(now: State<V>, j: Job<V>, r: nat, c: nat)
      requires now.Ready(shape) && Sized(j) && (j.phase.InFlight? || j.phase.Draining?) && At(now, j)
      requires LaunchIn(j).HasBlock(r, c)
      ensures var j' := Next(j, Device(r, c)); Sized(j') && At(now, j') && j'.remaining == j.remaining
    {
      var l, m := LaunchIn(j), Machine(j.state.mem, j.phase.blocks);
      var base := j.state.mem[j.state.next := now.mem[now.next]];
      l.MicroStepInv(base, m, r, c);
      FlyingFrom(now, j, Next(j, Device(r, c)), base, l.MicroStep(m, r, c).blocks);
    }

    /** What a launch in flight needs, given the memory it started from. */
    lemma FlyingFrom(now: State<V>, j: Job<V>, j': Job<V>, base: Memory<V>, blocks: seq<Block<V>>)
      requires now.Ready(shape) && Sized(j) && Sized(j') && j.state.(mem := base).Ready(shape)
      requires j.state.(mem := base).SameGrid(now)
      requires base == j.state.mem[j.state.next := now.mem[now.next]]
      requires LaunchIn(j).Fits(base) && LaunchIn(j).Inv(base, Machine(j'.state.mem, blocks))
      requires j'.state == j.state.(mem := j'.state.mem)
      ensures Flying(now, j', blocks)
    {
      assert j'.state.mem[j.state.next := now.mem[now.next]] == base;
    }

    /** Whatever others write meanwhile, outside the job's allocations, it stays where it is. */
    lemma ElsewhereTracks(st: State<V>, steps: nat, j: Job<V>, mem: Memory<V>)
      requires st.Ready(shape) && Tracks(st, steps, j) && Agrees(j.state, j.state.mem, mem)
      ensures Tracks(st, steps, j.(state := j.state.(mem := mem)))
    {
      var now, j' := Advance(ops, shape, p, st, steps - j.remaining), j.(state := j.state.(mem := mem));
      if j.phase.InFlight? || j.phase.Draining? { ElsewhereFlying(now, j, j'); }
      assert At(now, j');
    }

    lemma ElsewhereFlying(now: State<V>, j: Job<V>, j': Job<V>)
      requires now.Ready(shape) && Sized(j) && (j.phase.InFlight? || j.phase.Draining?)
      requires Flying(now, j, j.phase.blocks)
      requires j' == j.(state := j.state.(mem := j'.state.mem)) && Agrees(j.state, j.state.mem, j'.state.mem)
      ensures Sized(j') && Flying(now, j', j.phase.blocks)
    {
      var base := j.state.mem[j.state.next := now.mem[now.next]];
      var base' := j'.state.mem[j.state.next := now.mem[now.next]];
      assert j'.state.mem == base'[j.state.next := j.state.mem[j.state.next]];
      LaunchIn(j).InvElsewhere(base, Machine(j.state.mem, j.phase.blocks), base',
                               Machine(j'.state.mem, j.phase.blocks));
    }

    lemma SubmitTracks(st: State<V>, steps: nat, j: Job<V>)
      requires st.Ready(shape) && Tracks(st, steps, j) && j.phase.Suspended? && j.remaining > 0
      ensures Tracks(st, steps, Submitted(j))
    {
      var now := Advance(ops, shape, p, st, steps - j.remaining);
      var j' := Submitted(j);
      LaunchIn(j).StartInv(j.state.mem);
      assert j.state.mem[j.state.next := now.mem[now.next]] == j.state.mem;
      assert Flying(now, j', j'.phase.blocks);
    }

    lemma CompleteTracks(st: State<V>, steps: nat, j: Job<V>)
      requires st.Ready(shape) && Tracks(st, steps, j) && j.phase.InFlight? && Finished(j)
      ensures Tracks(st, steps, j.Completed())
    {
      var now := Advance(ops, shape, p, st, steps - j.remaining);
      FlyingCompletes(now, j);
      assert Advance(ops, shape, p, st, steps - j.remaining + 1) == Advanced(ops, shape, p, now);
    }

    lemma FlyingCompletes(now: State<V>, j: Job<V>)
      requires now.Ready(shape) && Sized(j) && j.phase.InFlight? && Flying(now, j, j.phase.blocks) && Finished(j)
      ensures j.state.Swapped().SameGrid(Advanced(ops, shape, p, now))
    {
      var base := j.state.mem[j.state.next := now.mem[now.next]];
      LaunchIn(j).DoneMeansCompleted(base, Machine(j.state.mem, j.phase.blocks));
    }

    /** What the step in flight started from. */
    ghost function Base(st: State<V>, steps: nat, j: Job<V>): (base: Memory<V>)
      requires st.Ready(shape) && Tracks(st, steps, j) && j.phase.InFlight?
      ensures LaunchIn(j).Fits(base) && LaunchIn(j).Exclusive()
      ensures LaunchIn(j).Inv(base, Machine(j.state.mem, j.phase.blocks))
      ensures base == j.state.mem[j.state.next := base[j.state.next]]
    {
      j.state.mem[j.state.next := Advance(ops, shape, p, st, steps - j.remaining).mem[j.state.next]]
    }

    /** Any work of the device on the step in flight keeps the job on its path. */
    lemma ProgressTracks(st: State<V>, steps: nat, j: Job<V>, mem: Memory<V>, blocks: seq<Block<V>>)
      requires st.Ready(shape) && Tracks(st, steps, j) && j.phase.InFlight?
      requires LaunchIn(j).Inv(Base(st, steps, j), Machine(mem, blocks))
      ensures Tracks(st, steps, j.Ran(mem, blocks))
    {
      var now, j' := Advance(ops, shape, p, st, steps - j.remaining), j.Ran(mem, blocks);
      FlyingFrom(now, j, j', Base(st, steps, j), blocks);
      assert At(now, j');
    }

    /** The step in flight, run to its end and found completed. */
    lemma FinishTracks(st: State<V>, steps: nat, j: Job<V>) returns (j': Job<V>)
      requires st.Ready(shape) && Tracks(st, steps, j) && j.phase.InFlight?
      ensures var mem := LaunchIn(j).Completed(Base(st, steps, j));
              j' == j.(state := j.state.(mem := mem)).Completed() && OnlyGrids(j.state, j'.state)
      ensures Tracks(st, steps, j')
    {
      var base, now := Base(st, steps, j), Advance(ops, shape, p, st, steps - j.remaining);
      j' := j.(state := j.state.(mem := LaunchIn(j).Completed(base))).Completed();
      assert Advance(ops, shape, p, st, steps - j.remaining + 1) == Advanced(ops, shape, p, now);
      assert At(Advanced(ops, shape, p, now), j');
    }

    lemma NextTracks(st: State<V>, steps: nat, j: Job<V>, e: Event<V>)
      requires st.Ready(shape) && Tracks(st, steps, j)
      ensures Tracks(st, steps, Next(j, e))
    {
      match e
      case Resume(ok) =>
        if ok && j.phase.Suspended? && j.remaining > 0 { SubmitTracks(st, steps, j); }
        if ok && j.phase.InFlight? && Finished(j) { CompleteTracks(st, steps, j); }
      case Device(r, c) =>
        if (j.phase.InFlight? || j.phase.Draining?) && LaunchIn(j).HasBlock(r, c) { DeviceTracks(st, steps, j, r, c); }
      case Elsewhere(a, data) =>
        if a !in {j.state.current, j.state.next, j.state.rhs} { ElsewhereTracks(st, steps, j, j.state.mem[a := data]); }
      case _ =>
    }

    lemma {:induction false} RunTracks(st: State<V>, steps: nat, j: Job<V>, events: seq<Event<V>>)
      requires st.Ready(shape) && Tracks(st, steps, j)
      ensures Tracks(st, steps, Run(j, events))
      decreases |events|
    {
      if events != [] {
        NextTracks(st, steps, j, events[0]);
        RunTracks(st, steps, Next(j, events[0]), events[1..]);
      }
    }

    /**
     * Whatever the polls, the interleaving of the device and the other jobs: a future that resolves
     * hands back exactly the grid a blocking batch computes.
     */
    lemma AsyncEqualsBlocking(st: State<V>, steps: nat, events: seq<Event<V>>)
      requires st.Ready(shape) && Run(Admit(st, steps), events).phase.Resolved?
      ensures Run(Admit(st, steps), events).state.SameGrid(Advance(ops, shape, p, st, steps))
    {
      RunTracks(st, steps, Admit(st, steps), events);
    }

    /** And the double-buffer invariant holds of what it hands back, with the history extended. */
    lemma AsyncHolds(st: State<V>, steps: nat, events: seq<Event<V>>, home: (Alloc, Alloc), initial: seq<V>,
                     history: seq<JacobiParams<V>>)
      requires Holds(ops, shape, st, home, initial, history) && Run(Admit(st, steps), events).phase.Resolved?
      ensures Holds(ops, shape, Run(Admit(st, steps), events).state, home, initial, history + Repeat(p, steps))
    {
      RunTracks(st, steps, Admit(st, steps), events);
      HoldsAtEnd(st, steps, Run(Admit(st, steps), events), home, initial, history);
    }

    lemma HoldsAtEnd(st: State<V>, steps: nat, j: Job<V>, home: (Alloc, Alloc), initial: seq<V>,
                     history: seq<JacobiParams<V>>)
      requires Holds(ops, shape, st, home, initial, history) && Tracks(st, steps, j)
      requires j.remaining == 0 && (j.phase.Suspended? || j.phase.Resolved?)
      ensures Holds(ops, shape, j.state, home, initial, history + Repeat(p, steps))
      ensures j.state.completed == st.completed + steps
    {
      HistoryAdvances(ops, shape, p, st, steps, home, initial, history);
      AdvanceRoles(ops, shape, p, st, steps);
      assert j.state.SameGrid(Advance(ops, shape, p, st, steps));
    }

    /** Once dropped or failed, a future submits nothing more and never publishes a grid. */
    lemma {:induction false} EndedIsFinal(j: Job<V>, events: seq<Event<V>>)
      requires Sized(j) && (j.phase.Failed? || j.phase.Draining? || j.phase.Released? || j.phase.Aborted?)
      ensures !Run(j, events).phase.Resolved? && Run(j, events).launches == j.launches
      decreases |events|
    {
      if events != [] { EndedIsFinal(Next(j, events[0]), events[1..]); }
    }

    /** Dropping a future, whatever it has done by then, ends both its submissions and its chance to publish. */
    lemma DropPublishesNothing(j: Job<V>, events: seq<Event<V>>)
      requires Sized(j) && !j.phase.Resolved?
      ensures var j' := Run(Next(j, Drop), events);
              !j'.phase.Resolved? && j'.launches == j.launches
    {
      EndedIsFinal(Next(j, Drop), events);
    }

    /** A future that is never polled submits nothing and leaves its grids alone. */
    lemma {:induction false} UnpolledDoesNothing(j: Job<V>, events: seq<Event<V>>)
      requires Sized(j) && (j.phase.Suspended? || j.phase.Released?)
      requires forall e :: e in events ==> !e.Resume?
      ensures var j' := Run(j, events);
              j'.launches == j.launches && !j'.phase.Resolved? && j'.state.SameGrid(j.state)
      decreases |events|
    {
      if events != [] { UnpolledDoesNothing(Next(j, events[0]), events[1..]); }
    }

    /** The device work left before the launch in flight completes. */
    lemma {:induction false} DeviceCanFinish(j: Job<V>) returns (events: seq<Event<V>>)
      requires Sized(j) && j.phase.InFlight?
      ensures var j' := Run(j, events);
              j'.phase.InFlight? && Finished(j') && j'.remaining == j.remaining
      decreases LaunchIn(j).Work(j.phase.blocks)
    {
      var l, m := LaunchIn(j), Machine(j.state.mem, j.phase.blocks);
      if Finished(j) {
        events := [];
      } else {
        var r: nat, c: nat :| l.HasBlock(r, c) && l.BlockAt(m, r, c).Running?;
        l.MicroStepWorks(m, r, c);
        var rest := DeviceCanFinish(Next(j, Device(r, c)));
        events := [Device(r, c)] + rest;
        assert events[1..] == rest;
      }
    }

    lemma {:induction false} RunAppend(j: Job<V>, first: seq<Event<V>>, second: seq<Event<V>>)
      requires Sized(j)
      ensures Run(j, first + second) == Run(Run(j, first), second)
      decreases |first|
    {
      if first == [] {
        assert first + second == second;
      } else {
        assert (first + second)[1..] == first[1..] + second;
        RunAppend(Next(j, first[0]), first[1..], second);
      }
    }

    /** Resolution is reachable from every live state: the equality above is never vacuous. */
    lemma {:induction false} CanResolve(j: Job<V>) returns (events: seq<Event<V>>)
      requires Sized(j) && (j.phase.Suspended? || (j.phase.InFlight? && j.remaining > 0))
      ensures Run(j, events).phase.Resolved?
      decreases j.remaining, j.phase.Suspended?
    {
      if j.phase.InFlight? {
        var device := DeviceCanFinish(j);
        var j' := Next(Run(j, device), Resume(true));
        var rest := CanResolve(j');
        RunAppend(j, device, [Resume(true)] + rest);
        events := device + ([Resume(true)] + rest);
        assert ([Resume(true)] + rest)[1..] == rest;
      } else if j.remaining == 0 {
        events := [Resume(true)];
        assert Run(j, events) == Next(j, Resume(true));
      } else {
        var rest := CanResolve(Next(j, Resume(true)));
        events := [Resume(true)] + rest;
        assert events[1..] == rest;
      }
    }
  }
}
