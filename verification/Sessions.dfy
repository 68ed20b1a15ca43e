/** The executor: uploads, single steps and readback over owned buffers (src/gpu/cutile_impl.rs). */
module Sessions {
  import opened Grids
  import opened Errors
  import opened Shape
  import opened Stencil
  import opened Schedules
  import opened Views
  import opened Limits
  import opened Kernels
  import opened Completions

  /** What the backend does during one upload; alloc is the address it hands out. */
  datatype UploadFate = UploadFate(binds: bool, copies: bool, reshapes: bool, alloc: Alloc) {
    predicate Succeeds() { binds && copies && reshapes }
  }

  /** What the backend does during one launch or readback. */
  datatype CallFate = CallFate(binds: bool, completes: bool) {
    predicate Succeeds() { binds && completes }

    /** What a single-step operator reports of it. */
    function Report(): Result<()> {
      if !binds then Err(Backend(Stage.Bind)) else if !completes then Err(Backend(Stage.Execute)) else Ok(())
    }
  }

  class Buffer<V> {
    const tensor: Tensor
    const shape: Shape2D
    const haloed: bool
    const session: Session<V>
    const completion: Completion
    const reservation: Reservation

    constructor (tensor: Tensor, shape: Shape2D, haloed: bool, session: Session<V>, reservation: Reservation)
      ensures this.tensor == tensor && this.shape == shape && this.haloed == haloed
      ensures this.session == session && this.reservation == reservation
      ensures fresh(completion) && !completion.uncertain && completion.home == tensor.alloc
    {
      this.tensor := tensor;
      this.shape := shape;
      this.haloed := haloed;
      this.session := session;
      this.reservation := reservation;
      this.completion := new Completion(tensor.alloc);
    }

    function Rows(): nat { if haloed then shape.haloHeight else shape.height }
    function Cols(): nat { if haloed then shape.haloWidth else shape.width }
    function Len(): nat { if haloed then shape.haloedLen else shape.interiorLen }

    /** How validation by session s sees this buffer. */
    function FactsFor(s: Session<V>): Facts
      reads completion
    {
      Facts(shape, completion.uncertain, session == s, tensor)
    }

    /** What construction establishes for good. */
    ghost predicate Made(ordinal: nat) {
      && shape.Valid()
      && tensor == Compact(tensor.alloc, Rows(), Cols(), ordinal)
      && reservation.buffer && reservation.bytes == 4 * Len()
    }
  }

  lemma Overwritten<K, T>(m: map<K, T>, k: K, first: T, last: T)
    ensures m[k := first][k := last] == m[k := last] && m[k := first] - {k} == m - {k}
    ensures k !in m ==> m - {k} == m
  {
  }

  lemma MinusThree<K, T>(m: map<K, T>, a: K, b: K, c: K)
    ensures m - {a} - {b} - {c} == m - {a, b, c}
  {
  }

  class Session<V> {
    const device: Device<V>
    const ordinal: nat
    const budget: Budget
    ghost var owners: map<Alloc, Buffer<V>>
    ghost var holder: map<Reservation, Alloc>

    /**
     * Every live allocation has exactly one buffer, with its own readiness and its own outstanding
     * charge for exactly its bytes.
     */
    ghost predicate Valid()
      reads this, device, budget
    {
      && budget.Valid()
      && Storage()
      && (forall a :: a in owners ==> owners[a].reservation in budget.outstanding)
    }

    ghost predicate Storage()
      reads this, device
    {
      && owners.Keys == device.mem.Keys
      && forall a {:trigger Stored(a, owners[a])} :: a in owners ==> Stored(a, owners[a])
    }

    ghost predicate Stored(a: Alloc, b: Buffer<V>)
      reads this, device
    {
      && b.session == this && b.tensor.alloc == a && b.Made(ordinal)
      && b.completion.home == a && b.reservation in holder && holder[b.reservation] == a
      && a in device.mem && |device.mem[a]| == b.Len()
    }

    ghost predicate Owns(b: Buffer<V>)
      reads this`owners
    {
      b.tensor.alloc in owners && owners[b.tensor.alloc] == b
    }

    constructor (ordinal: nat, word: Word, limits: ResourceLimits)
      requires limits.Valid(word)
      ensures Valid() && owners == map[] && fresh(device) && fresh(budget)
      ensures budget.limits == limits && budget.usage == NoUsage()
    {
      this.ordinal := ordinal;
      device := new Device();
      budget := new Budget(word, limits);
      owners := map[];
      holder := map[];
    }

    /** Dropping a buffer: storage first, then its charge. */
    method Free(b: Buffer<V>)
      requires Valid() && Owns(b)
      modifies this, device, budget
      ensures Valid() && owners == old(owners) - {b.tensor.alloc}
      ensures device.mem == old(device.mem) - {b.tensor.alloc}
      ensures budget.outstanding == old(budget.outstanding) - {b.reservation}
      ensures old(budget.usage) == budget.usage.Plus(b.reservation.Charge())
    {
      Deallocate(b);
      budget.Release(b.reservation);
    }

    method Deallocate(b: Buffer<V>)
      requires Storage() && Owns(b)
      modifies this, device
      ensures Storage() && owners == old(owners) - {b.tensor.alloc}
      ensures forall a :: a in owners ==> owners[a].reservation != b.reservation
      ensures device.mem == old(device.mem) - {b.tensor.alloc}
    {
      assert Stored(b.tensor.alloc, b);
      device.mem := device.mem - {b.tensor.alloc};
      owners := owners - {b.tensor.alloc};
      forall a | a in owners ensures Stored(a, owners[a]) && owners[a].reservation != b.reservation {
        assert old(Stored(a, owners[a]));
      }
    }

    method FreeBoth(a: Buffer<V>, b: Buffer<V>)
      requires Valid() && Owns(a) && Owns(b) && a != b
      modifies this, device, budget
      ensures Valid() && owners == old(owners) - {a.tensor.alloc} - {b.tensor.alloc}
      ensures device.mem == old(device.mem) - {a.tensor.alloc} - {b.tensor.alloc}
      ensures old(budget.usage) == budget.usage.Plus(b.reservation.Charge()).Plus(a.reservation.Charge())
    {
      assert a.tensor.alloc != b.tensor.alloc;
      Free(a);
      Free(b);
    }

    /** The three buffers of one owner. */
    method FreeThree(a: Buffer<V>, b: Buffer<V>, c: Buffer<V>)
      requires Valid() && Owns(a) && Owns(b) && Owns(c) && a != b && a != c && b != c
      modifies this, device, budget
      ensures Valid() && owners == old(owners) - {a.tensor.alloc, b.tensor.alloc, c.tensor.alloc}
      ensures device.mem == old(device.mem) - {a.tensor.alloc, b.tensor.alloc, c.tensor.alloc}
      ensures old(budget.usage) ==
              budget.usage.Plus(c.reservation.Charge()).Plus(b.reservation.Charge()).Plus(a.reservation.Charge())
    {
      assert a.tensor.alloc != b.tensor.alloc && a.tensor.alloc != c.tensor.alloc;
      MinusThree(owners, a.tensor.alloc, b.tensor.alloc, c.tensor.alloc);
      MinusThree(device.mem, a.tensor.alloc, b.tensor.alloc, c.tensor.alloc);
      Free(a);
      FreeBoth(b, c);
    }

    /** No buffer holds an operation's guard. */
    lemma OperationUnheld(guard: Reservation)
      requires Storage() && !guard.buffer
      ensures forall a :: a in owners ==> owners[a].reservation != guard
    {
      forall a | a in owners ensures owners[a].reservation != guard { assert Stored(a, owners[a]); }
    }

    /** A fresh tensor becomes a buffer that holds its reservation. */
    method Adopt(s: Shape2D, data: seq<V>, haloed: bool, reservation: Reservation, alloc: Alloc) returns (b: Buffer<V>)
      requires Storage() && s.Valid() && |data| == (if haloed then s.haloedLen else s.interiorLen)
      requires reservation.buffer && reservation.bytes == 4 * |data|
      requires forall a :: a in owners ==> owners[a].reservation != reservation
      requires alloc !in device.mem
      modifies this, device
      ensures Storage() && Owns(b) && owners == old(owners)[alloc := b]
      ensures fresh(b) && fresh(b.completion) && !b.completion.uncertain
      ensures b.shape == s && b.haloed == haloed && b.reservation == reservation && b.tensor.alloc == alloc
      ensures device.mem == old(device.mem)[alloc := data]
    {
      var tensor :=
        Compact(alloc, if haloed then s.haloHeight else s.height, if haloed then s.haloWidth else s.width, ordinal);
      device.mem := device.mem[alloc := data];
      b := new Buffer(tensor, s, haloed, this, reservation);
      owners := owners[alloc := b];
      holder := holder[reservation := alloc];
      forall a | a in owners ensures Stored(a, owners[a]) {
        if a != alloc { assert old(Stored(a, owners[a])); }
      }
    }

    /** A reservation charged to this session that no buffer holds yet. */
    ghost predicate Unheld(reservation: Reservation, bytes: nat)
      reads this, budget
    {
      && reservation in budget.outstanding && reservation.buffer && reservation.bytes == bytes
      && forall a :: a in owners ==> owners[a].reservation != reservation
    }

    /**
     * upload_reserved: consumes a reservation. It ends inside the new buffer, or is released; the
     * operation guard lasts for the call.
     */
    method UploadReserved(s: Shape2D, data: seq<V>, haloed: bool, reservation: Reservation, fate: UploadFate)
      returns (r: Result<Buffer<V>>)
      requires Valid() && s.Valid() && |data| == (if haloed then s.haloedLen else s.interiorLen)
      requires Unheld(reservation, 4 * |data|) && fate.alloc !in device.mem
      modifies this, device, budget
      ensures Valid()
      ensures r.Ok? <==> old(budget.usage.operations) < budget.limits.operations && fate.Succeeds()
      ensures r.Err? && r.error.ResourceLimit? ==> old(budget.usage.operations) >= budget.limits.operations
      ensures r.Ok? ==>
                && Created(r.value, s, haloed, fate.alloc) && r.value.reservation == reservation
                && fresh(r.value) && fresh(r.value.completion)
                && Added(old(owners), old(device.mem), r.value, data)
                && budget.outstanding == old(budget.outstanding) && budget.usage == old(budget.usage)
      ensures r.Err? ==>
                && owners == old(owners) && device.mem == old(device.mem)
                && budget.outstanding == old(budget.outstanding) - {reservation}
                && old(budget.usage) == budget.usage.Plus(OneBuffer(4 * |data|))
    {
      r := Place(s, data, haloed, reservation, fate);
      if r.Err? { budget.Release(reservation); }
    }

    /** The upload itself, under its own operation. */
    method Place(s: Shape2D, data: seq<V>, haloed: bool, reservation: Reservation, fate: UploadFate)
      returns (r: Result<Buffer<V>>)
      requires Valid() && s.Valid() && |data| == (if haloed then s.haloedLen else s.interiorLen)
      requires Unheld(reservation, 4 * |data|) && fate.alloc !in device.mem
      modifies this, device, budget
      ensures Valid() && budget.outstanding == old(budget.outstanding) && budget.usage == old(budget.usage)
      ensures r.Ok? <==> old(budget.usage.operations) < budget.limits.operations && fate.Succeeds()
      ensures r.Err? && r.error.ResourceLimit? ==> old(budget.usage.operations) >= budget.limits.operations
      ensures r.Ok? ==>
                && Created(r.value, s, haloed, fate.alloc) && r.value.reservation == reservation
                && fresh(r.value) && fresh(r.value.completion)
                && Added(old(owners), old(device.mem), r.value, data)
      ensures r.Err? ==> owners == old(owners) && holder == old(holder) && device.mem == old(device.mem)
    {
      var operation := budget.Operation();
      if operation.Err? { return Err(operation.error); }
      Returned(old(budget.outstanding), old(budget.usage), operation.value);
      if fate.Succeeds() {
        var b := Adopt(s, data, haloed, reservation, fate.alloc);
        r := Ok(b);
      } else {
        r := Err(Backend(if fate.binds then Stage.Upload else Stage.Bind));
      }
      budget.Release(operation.value);
    }

    /** upload_halo and upload_field. */
    method Upload(s: Shape2D, data: seq<V>, haloed: bool, fate: UploadFate) returns (r: Result<Buffer<V>>)
      requires Valid() && s.Valid() && fate.alloc !in device.mem
      modifies this, device, budget
      ensures Valid()
      ensures r.Ok? <==>
              && |data| == (if haloed then s.haloedLen else s.interiorLen)
              && budget.limits.Room(old(budget.usage), 4 * |data|)
              && old(budget.usage.operations) < budget.limits.operations
              && fate.Succeeds()
      ensures r.Ok? ==> Created(r.value, s, haloed, fate.alloc) && Added(old(owners), old(device.mem), r.value, data)
                        && budget.usage == old(budget.usage).Plus(OneBuffer(4 * |data|))
      ensures r.Err? ==> owners == old(owners) && device.mem == old(device.mem) && budget.usage == old(budget.usage)
      ensures |data| != (if haloed then s.haloedLen else s.interiorLen) ==> r.Err? && r.error.LengthMismatch?
      ensures r.Err? && r.error.ResourceLimit? && r.error.resource == Operations ==>
                old(budget.usage.operations) >= budget.limits.operations
    {
      var fits := CheckLen(if haloed then Source else Field, if haloed then s.haloedLen else s.interiorLen, |data|);
      if fits.Err? { return Err(fits.error); }
      ghost var before := budget.usage;
      var reservation := budget.Buffer(4 * |data|);
      if reservation.Err? { return Err(reservation.error); }
      r := UploadReserved(s, data, haloed, reservation.value, fate);
      assert r.Err? ==> budget.usage == before;
    }

    ghost predicate Created(b: Buffer<V>, s: Shape2D, haloed: bool, alloc: Alloc)
      reads this, b.completion
    {
      Owns(b) && b.shape == s && b.haloed == haloed && b.tensor.alloc == alloc && !b.completion.uncertain
    }

    ghost predicate Added(owners: map<Alloc, Buffer<V>>, mem: Memory<V>, b: Buffer<V>, data: seq<V>)
      reads this, device
    {
      this.owners == owners[b.tensor.alloc := b] && device.mem == mem[b.tensor.alloc := data]
    }

    /** Changing what an allocation holds, at its length, keeps every buffer stored. */
    twostate lemma StorageKept(a: Alloc)
      requires old(Storage()) && owners == old(owners) && holder == old(holder) && a in device.mem
      requires a in old(device.mem)
      requires device.mem == old(device.mem)[a := device.mem[a]] && |device.mem[a]| == |old(device.mem[a])|
      ensures Storage()
    {
      assert forall x :: x in owners ==> old(Stored(x, owners[x]));
    }

    /** What a single-step operator may leave behind: only its output can change. */
    ghost predicate Outcome(ops: Arith<V>, operator: Operator<V>, source: Buffer<V>, output: Buffer<V>, fate: CallFate,
                            before: Memory<V>, was: bool)
      reads device, output.completion
    {
      && source.tensor.alloc in before && |before[source.tensor.alloc]| == source.shape.haloedLen
      && source.shape.Valid() && operator.Fits(source.shape, before)
      && output.tensor.alloc in device.mem
      && device.mem == before[output.tensor.alloc := device.mem[output.tensor.alloc]]
      && (fate.Succeeds() ==>
            device.mem[output.tensor.alloc] == operator.Field(ops, source.shape, before, source.tensor.alloc))
      && (!fate.binds ==> device.mem == before)
      && (output.completion.uncertain <==> if fate.binds then !fate.completes else was)
    }

    /** A single-step operator between the admission and the release of its operation. */
    method Perform(ops: Arith<V>, operator: Operator<V>, source: Buffer<V>, output: Buffer<V>, fate: CallFate)
      returns (r: Result<()>)
      requires Storage() && Owns(source) && Owns(output) && source.haloed && !output.haloed
      requires source.shape == output.shape
      requires operator.Fits(source.shape, device.mem)
      requires operator.JacobiStep? ==> operator.rhs != output.tensor.alloc
      modifies device, output.completion
      ensures Storage() && r == fate.Report()
      ensures Outcome(ops, operator, source, output, fate, old(device.mem), old(output.completion.uncertain))
    {
      assert Stored(source.tensor.alloc, source) && Stored(output.tensor.alloc, output);
      assert device.mem == device.mem[output.tensor.alloc := device.mem[output.tensor.alloc]];
      if !fate.binds { return Err(Backend(Stage.Bind)); }
      var views := DirectionalViews(source.shape, source.tensor);
      ViewsAreDirected(source.shape, source.tensor.alloc, ordinal);
      var l := Launch(ops, source.shape, Tiled(operator, views.value), source.tensor.alloc, output.tensor.alloc);
      output.completion.Enter();
      if fate.completes {
        device.Launch(l);
        r := Ok(());
      } else {
        device.Fail(l);
        r := Err(Backend(Stage.Execute));
      }
      output.completion.Leave(r);
      StorageKept(l.output);
    }

    /** The answer when no operation is free. */
    function Denied(): Result<()> { Err(ResourceLimit(Operations, budget.limits.operations)) }

    /** A single-step operator from the admission of its operation on: at most one guard is held. */
    method Execute(ops: Arith<V>, operator: Operator<V>, source: Buffer<V>, output: Buffer<V>, fate: CallFate)
      returns (r: Result<()>)
      requires Valid() && Owns(source) && Owns(output) && source.haloed && !output.haloed
      requires source.shape == output.shape
      requires operator.Fits(source.shape, device.mem)
      requires operator.JacobiStep? ==> operator.rhs != output.tensor.alloc
      modifies device, budget, output.completion
      ensures Valid() && budget.usage == old(budget.usage) && budget.outstanding == old(budget.outstanding)
      ensures r == if old(budget.usage.operations) < budget.limits.operations then fate.Report() else Denied()
      ensures if old(budget.usage.operations) < budget.limits.operations then
                Outcome(ops, operator, source, output, fate, old(device.mem), old(output.completion.uncertain))
              else
                device.mem == old(device.mem) && output.completion.uncertain == old(output.completion.uncertain)
    {
      var operation := budget.Operation();
      if operation.Err? { return Err(operation.error); }
      Returned(old(budget.outstanding), old(budget.usage), operation.value);
      r := Perform(ops, operator, source, output, fate);
      budget.Release(operation.value);
    }

    /** A buffer of this session is live; one of another session may be anything. */
    ghost predicate Known(b: Buffer<V>)
      reads this
    {
      b.shape.Valid() && (b.session == this ==> Owns(b))
    }

    /** What the caller's borrows guarantee: live arguments, an output distinct from the rhs. */
    ghost predicate Borrowed(source: Buffer<V>, rhs: Option<Buffer<V>>, output: Option<Buffer<V>>)
      reads this
    {
      && Known(source) && source.haloed
      && (rhs.Some? ==> Known(rhs.value) && !rhs.value.haloed && Some(rhs.value) != output)
      && (output.Some? ==> Known(output.value) && !output.value.haloed)
    }

    predicate IsReady(b: Buffer<V>, s: Shape2D)
      reads b.completion
    {
      b.shape == s && b.session == this && !b.completion.uncertain
    }

    /** When a single-step call is accepted: all of its buffers ready, here, and of one shape. */
    predicate Accepts(source: Buffer<V>, rhs: Option<Buffer<V>>, output: Option<Buffer<V>>)
      reads source.completion
      reads if rhs.Some? then {rhs.value.completion} else {}
      reads if output.Some? then {output.value.completion} else {}
    {
      && IsReady(source, source.shape)
      && (rhs.Some? ==> IsReady(rhs.value, source.shape))
      && (output.Some? ==> IsReady(output.value, source.shape))
    }

    function FactsOf(b: Option<Buffer<V>>): Option<Facts>
      reads if b.Some? then {b.value.completion} else {}
    {
      if b.Some? then Some(b.value.FactsFor(this)) else None
    }

    /** validate_fields over live buffers: it never fails on metadata, and changes nothing. */
    method Validate(source: Buffer<V>, rhs: Option<Buffer<V>>, output: Option<Buffer<V>>) returns (r: Result<()>)
      requires Storage() && Borrowed(source, rhs, output)
      ensures r.Ok? <==> Accepts(source, rhs, output)
      ensures r == ValidateFields(ordinal, source.FactsFor(this), FactsOf(rhs), FactsOf(output))
    {
      assert source.session == this ==> Stored(source.tensor.alloc, source);
      assert rhs.Some? && rhs.value.session == this ==> Stored(rhs.value.tensor.alloc, rhs.value);
      assert output.Some? && output.value.session == this ==> Stored(output.value.tensor.alloc, output.value);
      r := ValidateFields(ordinal, source.FactsFor(this), FactsOf(rhs), FactsOf(output));
      ValidateAccepts(ordinal, source.FactsFor(this), FactsOf(rhs), FactsOf(output));
    }

    /** What a single-step operator answers: the first failed check, or else what the backend reports. */
    function Verdict(source: Buffer<V>, rhs: Option<Buffer<V>>, output: Buffer<V>, fate: CallFate): Result<()>
      reads source.completion, output.completion, budget
      reads if rhs.Some? then {rhs.value.completion} else {}
    {
      var valid := ValidateFields(ordinal, source.FactsFor(this), FactsOf(rhs), Some(output.FactsFor(this)));
      if valid.Err? then valid
      else if budget.usage.operations >= budget.limits.operations then Denied()
      else fate.Report()
    }

    /**
     * step_into: a rejected call changes nothing; an accepted one publishes exactly what the CPU
     * loop computes, or invalidates its output. No other buffer changes, and no charge remains.
     */
    method StepInto(ops: Arith<V>, source: Buffer<V>, rhs: Buffer<V>, output: Buffer<V>, p: JacobiParams<V>,
                    fate: CallFate) returns (r: Result<()>)
      requires Valid() && Borrowed(source, Some(rhs), Some(output))
      modifies device, budget, output.completion
      ensures Valid() && budget.usage == old(budget.usage) && budget.outstanding == old(budget.outstanding)
      ensures r == old(Verdict(source, Some(rhs), output, fate))
      ensures r.Ok? <==>
                old(Accepts(source, Some(rhs), Some(output))) &&
                  old(budget.usage.operations) < budget.limits.operations && fate.Succeeds()
      ensures r.Err? && r.error.ResourceLimit? ==> old(budget.usage.operations) >= budget.limits.operations
      ensures if old(Accepts(source, Some(rhs), Some(output))) &&
                old(budget.usage.operations) < budget.limits.operations then
                Outcome(ops, JacobiStep(p, rhs.tensor.alloc), source, output, fate, old(device.mem),
                        old(output.completion.uncertain))
              else
                device.mem == old(device.mem) && output.completion.uncertain == old(output.completion.uncertain)
    {
      r := Validate(source, Some(rhs), Some(output));
      if r.Err? { return; }
      assert Stored(rhs.tensor.alloc, rhs);
      r := Execute(ops, JacobiStep(p, rhs.tensor.alloc), source, output, fate);
    }

    /** laplacian_into: as StepInto, with no right-hand side. */
    method LaplacianInto(ops: Arith<V>, source: Buffer<V>, output: Buffer<V>, p: LaplacianParams<V>, fate: CallFate)
      returns (r: Result<()>)
      requires Valid() && Borrowed(source, None, Some(output))
      modifies device, budget, output.completion
      ensures Valid() && budget.usage == old(budget.usage) && budget.outstanding == old(budget.outstanding)
      ensures r == old(Verdict(source, None, output, fate))
      ensures r.Ok? <==>
                old(Accepts(source, None, Some(output))) && old(budget.usage.operations) < budget.limits.operations &&
                  fate.Succeeds()
      ensures r.Err? && r.error.ResourceLimit? ==> old(budget.usage.operations) >= budget.limits.operations
      ensures if old(Accepts(source, None, Some(output))) &&
                old(budget.usage.operations) < budget.limits.operations then
                Outcome(ops, LaplacianStep(p), source, output, fate, old(device.mem),
                        old(output.completion.uncertain))
              else
                device.mem == old(device.mem) && output.completion.uncertain == old(output.completion.uncertain)
    {
      r := Validate(source, None, Some(output));
      if r.Err? { return; }
      r := Execute(ops, LaplacianStep(p), source, output, fate);
    }

    /** zeros: reserved first, then uploaded under its own operation. */
    method Zeros(s: Shape2D, zero: V, fate: UploadFate) returns (r: Result<Buffer<V>>)
      requires Valid() && s.Valid() && fate.alloc !in device.mem
      modifies this, device, budget
      ensures Valid()
      ensures r.Ok? <==>
              && budget.limits.Room(old(budget.usage), s.interiorBytes)
              && old(budget.usage.operations) < budget.limits.operations
              && fate.Succeeds()
      ensures r.Ok? ==> Created(r.value, s, false, fate.alloc) && fresh(r.value) && fresh(r.value.completion)
                        && Added(old(owners), old(device.mem), r.value, seq(s.interiorLen, _ => zero))
                        && r.value.reservation.buffer && r.value.reservation.bytes == s.interiorBytes
                        && budget.usage == old(budget.usage).Plus(OneBuffer(s.interiorBytes))
      ensures r.Err? ==> owners == old(owners) && device.mem == old(device.mem) && budget.usage == old(budget.usage)
      ensures r.Err? && r.error.ResourceLimit? && r.error.resource == Operations ==>
                old(budget.usage.operations) >= budget.limits.operations
    {
      ghost var before := budget.usage;
      var reservation := budget.Buffer(s.interiorBytes);
      if reservation.Err? { return Err(reservation.error); }
      r := UploadReserved(s, seq(s.interiorLen, _ => zero), false, reservation.value, fate);
      assert r.Err? ==> budget.usage == before;
    }

    /**
     * step: the fresh output is the CPU loop's field, or there is no output and nothing has changed.
     * Its two operations are one after the other: with one slot free, admission never rejects them.
     */
    method Step(ops: Arith<V>, zero: V, source: Buffer<V>, rhs: Buffer<V>, p: JacobiParams<V>, upload: UploadFate,
                fate: CallFate) returns (r: Result<Buffer<V>>)
      requires Valid() && Borrowed(source, Some(rhs), None) && upload.alloc !in device.mem
      modifies this, device, budget
      ensures Valid()
      ensures r.Ok? <==>
              && old(Accepts(source, Some(rhs), None))
              && budget.limits.Room(old(budget.usage), source.shape.interiorBytes)
              && old(budget.usage.operations) < budget.limits.operations
              && upload.Succeeds() && fate.Succeeds()
      ensures r.Ok? ==>
                && Created(r.value, source.shape, false, upload.alloc) && fresh(r.value)
                && owners == old(owners)[upload.alloc := r.value]
                && Stepped(ops, source, rhs, p, old(device.mem), device.mem, upload.alloc)
                && budget.usage == old(budget.usage).Plus(OneBuffer(source.shape.interiorBytes))
      ensures r.Err? ==> owners == old(owners) && device.mem == old(device.mem) && budget.usage == old(budget.usage)
      ensures r.Err? && r.error.ResourceLimit? && r.error.resource == Operations ==>
                old(budget.usage.operations) >= budget.limits.operations
    {
      var valid := Validate(source, Some(rhs), None);
      if valid.Err? { return Err(valid.error); }
      r := StepFresh(ops, zero, source, rhs, p, upload, fate);
    }

    /** step after its validation: allocate the output, then fill it. */
    method StepFresh(ops: Arith<V>, zero: V, source: Buffer<V>, rhs: Buffer<V>, p: JacobiParams<V>, upload: UploadFate,
                     fate: CallFate) returns (r: Result<Buffer<V>>)
      requires Valid() && Borrowed(source, Some(rhs), None) && Accepts(source, Some(rhs), None)
      requires upload.alloc !in device.mem
      modifies this, device, budget
      ensures Valid()
      ensures r.Ok? <==>
              && budget.limits.Room(old(budget.usage), source.shape.interiorBytes)
              && old(budget.usage.operations) < budget.limits.operations
              && upload.Succeeds() && fate.Succeeds()
      ensures r.Ok? ==>
                && Created(r.value, source.shape, false, upload.alloc) && fresh(r.value)
                && owners == old(owners)[upload.alloc := r.value]
                && Stepped(ops, source, rhs, p, old(device.mem), device.mem, upload.alloc)
                && budget.usage == old(budget.usage).Plus(OneBuffer(source.shape.interiorBytes))
      ensures r.Err? ==> owners == old(owners) && device.mem == old(device.mem) && budget.usage == old(budget.usage)
      ensures r.Err? && r.error.ResourceLimit? && r.error.resource == Operations ==>
                old(budget.usage.operations) >= budget.limits.operations
    {
      assert Stored(source.tensor.alloc, source) && Stored(rhs.tensor.alloc, rhs);
      var zeros := Zeros(source.shape, zero, upload);
      if zeros.Err? { return zeros; }
      var output := zeros.value;
      assert Stored(upload.alloc, output);
      assert Known(source) && Known(rhs) && source != output && rhs != output;
      assert Accepts(source, Some(rhs), Some(output));
      var blank := device.mem[upload.alloc];
      ghost var during, filling := owners, device.mem;
      assert during - {upload.alloc} == old(owners) by { Overwritten(old(owners), upload.alloc, output, output); }
      assert filling - {upload.alloc} == old(device.mem) by {
        Overwritten(old(device.mem), upload.alloc, blank, blank);
      }
      r := Fill(ops, source, rhs, output, p, fate);
      if r.Ok? {
        SteppedFrom(ops, source, rhs, p, old(device.mem), device.mem, upload.alloc, blank);
      }
    }

    /** The second half of step: its own output is filled, or dropped with the error. */
    method Fill(ops: Arith<V>, source: Buffer<V>, rhs: Buffer<V>, output: Buffer<V>, p: JacobiParams<V>, fate: CallFate)
      returns (r: Result<Buffer<V>>)
      requires Valid() && Borrowed(source, Some(rhs), Some(output)) && Accepts(source, Some(rhs), Some(output))
      modifies this, device, budget, output.completion
      ensures Valid()
      ensures r.Ok? <==> old(budget.usage.operations) < budget.limits.operations && fate.Succeeds()
      ensures r.Ok? ==>
                && r.value == output && !output.completion.uncertain
                && owners == old(owners) && budget.usage == old(budget.usage)
                && Stepped(ops, source, rhs, p, old(device.mem), device.mem, output.tensor.alloc)
      ensures r.Err? ==>
                && owners == old(owners) - {output.tensor.alloc}
                && device.mem == old(device.mem) - {output.tensor.alloc}
                && old(budget.usage) == budget.usage.Plus(output.reservation.Charge())
      ensures r.Err? && r.error.ResourceLimit? ==> old(budget.usage.operations) >= budget.limits.operations
    {
      assert Stored(output.tensor.alloc, output);
      var done := StepInto(ops, source, rhs, output, p, fate);
      Overwritten(old(device.mem), output.tensor.alloc, device.mem[output.tensor.alloc],
                  device.mem[output.tensor.alloc]);
      if done.Err? {
        Free(output);
        return Err(done.error);
      }
      return Ok(output);
    }

    /** Memory as before, but for the interior field one Jacobi update produces at alloc. */
    ghost predicate Stepped(ops: Arith<V>, source: Buffer<V>, rhs: Buffer<V>, p: JacobiParams<V>, before: Memory<V>,
                            after: Memory<V>, alloc: Alloc) {
      && source.shape.Valid() && {source.tensor.alloc, rhs.tensor.alloc} <= before.Keys
      && |before[source.tensor.alloc]| == source.shape.haloedLen
      && |before[rhs.tensor.alloc]| == source.shape.interiorLen
      && after == before[alloc :=
           JacobiField(Problem(ops, source.shape, before[rhs.tensor.alloc]), p, before[source.tensor.alloc])]
    }

    /** What the fresh output held before it was filled does not matter. */
    lemma SteppedFrom(ops: Arith<V>, source: Buffer<V>, rhs: Buffer<V>, p: JacobiParams<V>, before: Memory<V>,
                      after: Memory<V>, alloc: Alloc, blank: seq<V>)
      requires alloc !in before && {source.tensor.alloc, rhs.tensor.alloc} <= before.Keys
      requires Stepped(ops, source, rhs, p, before[alloc := blank], after, alloc)
      ensures Stepped(ops, source, rhs, p, before, after, alloc)
    {
    }

    /** into_host: the field is consumed whatever happens, and only a ready field is ever read. */
    method IntoHost(field: Buffer<V>, fate: CallFate) returns (r: Result<seq<V>>)
      requires Valid() && Owns(field) && !field.haloed
      modifies this, device, budget
      ensures Valid() && owners == old(owners) - {field.tensor.alloc}
      ensures device.mem == old(device.mem) - {field.tensor.alloc}
      ensures old(budget.usage) == budget.usage.Plus(OneBuffer(field.shape.interiorBytes))
      ensures r.Ok? <==>
                !field.completion.uncertain && old(budget.usage.operations) < budget.limits.operations &&
                  fate.Succeeds()
      ensures r.Ok? ==> field.tensor.alloc in old(device.mem) && r.value == old(device.mem)[field.tensor.alloc]
      ensures field.completion.uncertain ==> r == Err(InvalidBuffer(Field))
      ensures r.Err? && r.error.ResourceLimit? ==> old(budget.usage.operations) >= budget.limits.operations
    {
      assert Stored(field.tensor.alloc, field);
      var ready := field.completion.EnsureReady(Field);
      if ready.Err? {
        Free(field);
        return Err(ready.error);
      }
      r := Readback(field, Stage.Readback, fate);
      Free(field);
    }

    /** The copy to the host, under its own operation, with the tensor retained until it has completed. */
    method Readback(b: Buffer<V>, stage: Stage, fate: CallFate) returns (r: Result<seq<V>>)
      requires Valid() && Owns(b)
      modifies budget
      ensures Valid() && budget.usage == old(budget.usage) && budget.outstanding == old(budget.outstanding)
      ensures r.Ok? <==> old(budget.usage.operations) < budget.limits.operations && fate.Succeeds()
      ensures r.Ok? ==> b.tensor.alloc in device.mem && r.value == device.mem[b.tensor.alloc]
      ensures r.Err? ==> r.error.ResourceLimit? || r.error.Backend?
      ensures r.Err? && r.error.ResourceLimit? ==> old(budget.usage.operations) >= budget.limits.operations
    {
      var operation := budget.Operation();
      if operation.Err? { return Err(operation.error); }
      Returned(old(budget.outstanding), old(budget.usage), operation.value);
      assert Stored(b.tensor.alloc, b);
      r := if !fate.binds then Err(Backend(Stage.Bind)) else if !fate.completes then Err(Backend(stage))
        else Ok(device.mem[b.tensor.alloc]);
      budget.Release(operation.value);
    }
  }

  /** Gpu::with_limits, with limits from the constructor that checks them: a session that nothing is charged to. */
  method OpenSession<V>(ordinal: nat, word: Word, bufferBytes: nat, totalBytes: nat, buffers: nat, operations: nat,
                        creates: bool)
    returns (r: Result<Session<V>>)
    requires bufferBytes <= word.UsizeMax() && totalBytes <= word.UsizeMax() && buffers <= word.UsizeMax()
    requires operations <= word.UsizeMax()
    ensures r.Ok? <==> ResourceLimits(bufferBytes, totalBytes, buffers, operations).Valid(word) && creates
    ensures r.Ok? ==>
              && fresh(r.value) && r.value.Valid() && r.value.owners == map[] && r.value.budget.usage == NoUsage()
              && r.value.budget.limits == ResourceLimits(bufferBytes, totalBytes, buffers, operations)
  {
    NewLimitsIff(word, bufferBytes, totalBytes, buffers, operations);
    var limits := NewLimits(bufferBytes, totalBytes, buffers, operations);
    if limits.Err? { return Err(limits.error); }
    if !creates { return Err(Backend(Create)); }
    var session := new Session(ordinal, word, limits.value);
    return Ok(session);
  }
}
