/** The owned future of one Jacobi step (step_into_async in src/gpu/cutile_impl.rs). */
module AsyncSteps {
  import opened Grids
  import opened Errors
  import opened Shape
  import opened Stencil
  import opened Schedules
  import opened Views
  import opened Limits
  import opened Sessions

  /** In flight, the launch that was submitted and how far each of its lanes has got. */
  datatype Phase<!V> = Unpolled | InFlight(launch: Launch<V>, blocks: seq<Block<V>>) | Ended

  /** One poll: whether the device binds, whether the kernel is seen completed, and how it ended. */
  datatype PollFate = PollFate(binds: bool, completed: bool, succeeded: bool)

  /** What the frame charges while it owns everything. */
  function FrameCharge(s: Shape2D): Usage { Usage(s.haloedBytes + 2 * s.interiorBytes, 3, 1) }

  class StepFuture<V> {
    const session: Session<V>
    const ops: Arith<V>
    const p: JacobiParams<V>
    const source: Buffer<V>
    const rhs: Buffer<V>
    const output: Buffer<V>
    const operation: Reservation
    var phase: Phase<V>
    ghost var blank: seq<V>  // what the output held when the kernel was submitted

    constructor (session: Session<V>, ops: Arith<V>, p: JacobiParams<V>, source: Buffer<V>, rhs: Buffer<V>,
                 output: Buffer<V>,
                 operation: Reservation)
      ensures this.session == session && this.ops == ops && this.p == p && phase == Unpolled
      ensures this.source == source && this.rhs == rhs && this.output == output && this.operation == operation
    {
      this.session, this.ops, this.p := session, ops, p;
      this.source, this.rhs, this.output := source, rhs, output;
      this.operation := operation;
      phase := Unpolled;
      blank := [];
    }

    ghost predicate Owning()
      reads session`owners, session.budget
    {
      && session.Owns(source) && session.Owns(rhs) && session.Owns(output) && rhs != output
      && source.haloed && !rhs.haloed && !output.haloed && source.shape == rhs.shape == output.shape
      && operation in session.budget.outstanding && !operation.buffer
    }

    /** The kernel in flight reads source and rhs and writes output, and has done so correctly so far. */
    ghost predicate Flying()
      reads this, session.device
      requires phase.InFlight?
    {
      var l, mem := phase.launch, session.device.mem;
      var base := mem[output.tensor.alloc := blank];
      && l.kernel.Tiled?
      && l == Launch(ops, source.shape, Tiled(JacobiStep(p, rhs.tensor.alloc), l.kernel.views),
                     source.tensor.alloc, output.tensor.alloc)
      && l.Fits(base) && l.Exclusive() && l.Sized(Machine(mem, phase.blocks)) && l.Inv(base, Machine(mem, phase.blocks))
    }

    /** A future that has not ended. */
    ghost predicate Valid()
      reads this, session, session.device, session.budget
    {
      session.Valid() && Owning() && phase != Ended && (phase.InFlight? ==> Flying())
    }

    ghost function Names(): set<Alloc> { {source.tensor.alloc, rhs.tensor.alloc, output.tensor.alloc} }

    /** Nothing but the output's storage differs. */
    ghost predicate OnlyOutput(before: Memory<V>)
      reads session.device
    {
      output.tensor.alloc in session.device.mem
      && session.device.mem == before[output.tensor.alloc := session.device.mem[output.tensor.alloc]]
    }

    /** Whatever other calls write in other storage between two polls, the future stays valid. */
    twostate lemma Undisturbed()
      requires old(Valid()) && session.Valid() && Owning() && unchanged(this)
      requires forall a :: a in Names() ==>
                 a in old(session.device.mem) && a in session.device.mem &&
                   session.device.mem[a] == old(session.device.mem[a])
      ensures Valid()
    {
      if phase.InFlight? {
        var l := phase.launch;
        var a: Alloc := output.tensor.alloc;
        var before: Memory<V>, after: Memory<V> := old(session.device.mem), session.device.mem;
        var rebased: Memory<V> := after[a := blank];
        assert after == rebased[a := before[a]];
        l.InvElsewhere(before[a := blank], Machine(before, phase.blocks), rebased, Machine(after, phase.blocks));
      }
    }

    /** The first poll builds the views and submits the kernel: none of its lanes has run. */
    method Submit()
      requires Valid() && phase == Unpolled
      modifies this`phase, this`blank
      ensures phase.InFlight? && Flying()
    {
      var a := output.tensor.alloc;
      assert session.Stored(source.tensor.alloc, source) && session.Stored(rhs.tensor.alloc, rhs) &&
        session.Stored(a, output);
      var views := DirectionalViews(source.shape, source.tensor);
      ViewsAreDirected(source.shape, source.tensor.alloc, session.ordinal);
      var l := Launch(ops, source.shape, Tiled(JacobiStep(p, rhs.tensor.alloc), views.value), source.tensor.alloc, a);
      blank := session.device.mem[a];
      assert session.device.mem == session.device.mem[a := blank];
      l.StartInv(session.device.mem);
      phase := InFlight(l, l.Start(session.device.mem).blocks);
    }

    /** The device works on the kernel, to its end or for a while. */
    method Progress(finish: bool)
      requires session.Storage() && Owning() && phase.InFlight? && Flying()
      modifies this`phase, session.device
      ensures session.Storage() && phase.InFlight? && Flying() && OnlyOutput(old(session.device.mem))
      ensures finish ==>
                session.Stepped(ops, source, rhs, p, old(session.device.mem), session.device.mem, output.tensor.alloc)
    {
      var l := phase.launch;
      assert session.Stored(source.tensor.alloc, source) && session.Stored(rhs.tensor.alloc, rhs);
      ghost var before := session.device.mem;
      ghost var base := before[l.output := blank];
      var blocks := session.device.RunBlocks(l, base, phase.blocks, finish);
      phase := InFlight(l, blocks);
      assert session.device.mem == before[l.output := session.device.mem[l.output]];
      assert session.device.mem[l.output := blank] == base;
      session.StorageKept(l.output);
      if finish { l.DoneMeansCompleted(base, Machine(session.device.mem, blocks)); }
    }

    /** The end of the frame without a result: the operation goes, then every owner. */
    method Discard()
      requires session.Valid() && Owning()
      modifies session, session.device, session.budget
      ensures session.Valid()
      ensures Gone(old(session.owners), old(session.device.mem), old(session.budget.usage))
    {
      var s := source.shape;
      assert session.Stored(source.tensor.alloc, source) && source.reservation.Charge() == OneBuffer(s.haloedBytes);
      assert session.Stored(rhs.tensor.alloc, rhs) && rhs.reservation.Charge() == OneBuffer(s.interiorBytes);
      assert session.Stored(output.tensor.alloc, output) && output.reservation.Charge() == OneBuffer(s.interiorBytes);
      session.OperationUnheld(operation);
      session.budget.Release(operation);
      session.FreeThree(source, rhs, output);
    }

    /** Every owner and the operation are gone; all else is as it was. */
    ghost predicate Gone(owners: map<Alloc, Buffer<V>>, mem: Memory<V>, usage: Usage)
      reads session, session.device, session.budget
    {
      && session.owners == owners - Names() && session.device.mem == mem - Names()
      && usage == session.budget.usage.Plus(FrameCharge(source.shape))
    }

    /**
     * What a poll leaves behind. Pending: only the output's storage may have changed. Ok: the caller
     * has the three buffers back with the CPU loop's field in the output, and the operation is
     * returned. Err: everything the frame owned is gone.
     */
    ghost predicate PollLeaves(r: Polled, owners: map<Alloc, Buffer<V>>, mem: Memory<V>, usage: Usage)
      reads this, session, session.device, session.budget
    {
      if r.StillPending? then
        Valid() && phase.InFlight? && OnlyOutput(mem) && session.owners == owners && session.budget.usage == usage
      else if r.result.Ok? then
        && session.Valid() && phase == Ended && session.owners == owners
        && session.Stepped(ops, source, rhs, p, mem, session.device.mem, output.tensor.alloc)
        && usage == session.budget.usage.Plus(OneOperation())
      else
        session.Valid() && phase == Ended && Gone(owners, mem, usage)
    }

    method Poll(fate: PollFate) returns (r: Polled)
      requires Valid()
      modifies this, session, session.device, session.budget
      ensures PollLeaves(r, old(session.owners), old(session.device.mem), old(session.budget.usage))
      ensures r.StillPending? <==> (old(phase) == Unpolled ==> fate.binds) && !fate.completed
      ensures r == Ready(Ok(())) <==> (old(phase) == Unpolled ==> fate.binds) && fate.completed && fate.succeeded
    {
      if phase == Unpolled {
        if !fate.binds {
          Abandon(session.device.mem);
          return Ready(Err(Backend(Stage.Bind)));
        }
        Submit();
      }
      r := Resume(fate);
    }

    /** A poll of a kernel in flight. */
    method Resume(fate: PollFate) returns (r: Polled)
      requires Valid() && phase.InFlight?
      modifies this`phase, session, session.device, session.budget
      ensures PollLeaves(r, old(session.owners), old(session.device.mem), old(session.budget.usage))
      ensures r.StillPending? <==> !fate.completed
      ensures r == Ready(Ok(())) <==> fate.completed && fate.succeeded
    {
      ghost var before := session.device.mem;
      Progress(fate.completed && fate.succeeded);
      assert session.Valid();
      if !fate.completed { return StillPending; }
      if fate.succeeded {
        Conclude();
        return Ready(Ok(()));
      }
      Abandon(before);
      return Ready(Err(Backend(Stage.Execute)));
    }

    /** The end of the frame with a result. */
    method Conclude()
      requires session.Valid() && Owning()
      modifies this`phase, session.budget
      ensures session.Valid() && phase == Ended
      ensures old(session.budget.usage) == session.budget.usage.Plus(OneOperation())
    {
      session.OperationUnheld(operation);
      session.budget.Release(operation);
      phase := Ended;
    }

    /** Dropping everything, whatever the kernel has done to the output. */
    method Abandon(ghost before: Memory<V>)
      requires session.Valid() && Owning() && (session.device.mem == before || OnlyOutput(before))
      modifies this`phase, session, session.device, session.budget
      ensures session.Valid() && phase == Ended && Gone(old(session.owners), before, old(session.budget.usage))
    {
      if session.device.mem != before { WithoutOutput(before, session.device.mem, output.tensor.alloc, Names()); }
      Discard();
      phase := Ended;
    }

    /** Dropping the future, after the drain if its kernel was in flight. */
    method Drop()
      requires Valid()
      modifies this`phase, session, session.device, session.budget
      ensures session.Valid() && phase == Ended
      ensures Gone(old(session.owners), old(session.device.mem), old(session.budget.usage))
    {
      ghost var before := session.device.mem;
      if phase.InFlight? {
        Progress(false);
        assert session.Valid();
      }
      Abandon(before);
    }
  }

  lemma WithoutOutput<V>(before: Memory<V>, after: Memory<V>, output: Alloc, names: set<Alloc>)
    requires output in names && output in after && after == before[output := after[output]]
    ensures after - names == before - names
  {
  }

  /** The storage of an argument that belongs to this session; a foreign one is dropped in its own. */
  ghost function Mine<V>(session: Session<V>, b: Buffer<V>): set<Alloc> {
    if b.session == session then {b.tensor.alloc} else {}
  }

  /** What it is charged here: its bytes, and one buffer. */
  ghost function ChargeOf<V>(session: Session<V>, b: Buffer<V>): Usage {
    if b.session == session then OneBuffer(4 * b.Len()) else NoUsage()
  }

  /** Dropping an argument of a refused call. */
  method DropArgument<V>(session: Session<V>, b: Buffer<V>)
    requires session.Valid() && session.Known(b)
    modifies session, session.device, session.budget
    ensures session.Valid()
    ensures session.owners == old(session.owners) - Mine(session, b)
    ensures session.device.mem == old(session.device.mem) - Mine(session, b)
    ensures old(session.budget.usage) == session.budget.usage.Plus(ChargeOf(session, b))
  {
    if b.session == session {
      assert session.Stored(b.tensor.alloc, b);
      session.Free(b);
    }
  }

  /** Dropping all three. */
  method DropArguments<V>(session: Session<V>, source: Buffer<V>, rhs: Buffer<V>, output: Buffer<V>)
    requires session.Valid() && session.Borrowed(source, Some(rhs), Some(output))
    modifies session, session.device, session.budget
    ensures session.Valid()
    ensures session.owners == old(session.owners) - Mine(session, source) - Mine(session, rhs) - Mine(session, output)
    ensures session.device.mem ==
              old(session.device.mem) - Mine(session, source) - Mine(session, rhs) - Mine(session, output)
    ensures old(session.budget.usage) ==
              session.budget.usage.Plus(ChargeOf(session, output)).Plus(ChargeOf(session, rhs))
                .Plus(ChargeOf(session, source))
  {
    DropArgument(session, source);
    DropArgument(session, rhs);
    DropArgument(session, output);
  }

  /** Validation and the admission of the operation. */
  method Admit<V>(session: Session<V>, source: Buffer<V>, rhs: Buffer<V>, output: Buffer<V>)
    returns (r: Result<Reservation>)
    requires session.Valid() && session.Borrowed(source, Some(rhs), Some(output))
    modifies session.budget
    ensures session.Valid()
    ensures r.Ok? <==>
              session.Accepts(source, Some(rhs), Some(output)) &&
                old(session.budget.usage.operations) < session.budget.limits.operations
    ensures r.Err? ==> Result<()>.Err(r.error) == old(session.Verdict(source, Some(rhs), output, CallFate(true, true)))
    ensures r.Ok? ==> r.value in session.budget.outstanding && !r.value.buffer
    ensures session.budget.usage ==
              if r.Ok? then old(session.budget.usage).Plus(OneOperation()) else old(session.budget.usage)
  {
    var valid := session.Validate(source, Some(rhs), Some(output));
    if valid.Err? { return Err(valid.error); }
    r := session.budget.Operation();
  }

  /**
   * step_into_async up to its return. Accepted, it submits nothing and holds one operation; refused,
   * it consumes its arguments all the same.
   */
  method StepIntoAsync<V>(session: Session<V>, ops: Arith<V>, source: Buffer<V>, rhs: Buffer<V>, output: Buffer<V>,
                          p: JacobiParams<V>)
    returns (r: Result<StepFuture<V>>)
    requires session.Valid() && session.Borrowed(source, Some(rhs), Some(output))
    modifies session, session.device, session.budget
    ensures session.Valid()
    ensures r.Ok? <==>
              session.Accepts(source, Some(rhs), Some(output)) &&
                old(session.budget.usage.operations) < session.budget.limits.operations
    ensures r.Err? ==> Result<()>.Err(r.error) == old(session.Verdict(source, Some(rhs), output, CallFate(true, true)))
    ensures r.Ok? ==>
              && fresh(r.value) && r.value.Valid() && r.value.phase == Unpolled && r.value.session == session
              && r.value.source == source && r.value.rhs == rhs && r.value.output == output && r.value.p == p
              && r.value.ops == ops
              && session.owners == old(session.owners) && session.device.mem == old(session.device.mem)
              && session.budget.usage == old(session.budget.usage).Plus(OneOperation())
    ensures r.Err? ==>
              && session.owners ==
                   old(session.owners) - Mine(session, source) - Mine(session, rhs) - Mine(session, output)
              && session.device.mem ==
                   old(session.device.mem) - Mine(session, source) - Mine(session, rhs) - Mine(session, output)
              && old(session.budget.usage) ==
                   session.budget.usage.Plus(ChargeOf(session, output)).Plus(ChargeOf(session, rhs))
                     .Plus(ChargeOf(session, source))
  {
    var operation := Admit(session, source, rhs, output);
    if operation.Err? {
      DropArguments(session, source, rhs, output);
      return Err(operation.error);
    }
    var future := new StepFuture(session, ops, p, source, rhs, output, operation.value);
    return Ok(future);
  }
}
