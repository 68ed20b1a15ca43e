/**
 * One launch of a kernel as a concurrent program.
 *
 * Every output cell has a block (a lane, for the tiled kernels). A block loads its operands from
 * device memory one at a time, then stores its own output cell; a schedule says which block performs
 * its next micro-operation. Memory is shared and loads see whatever is there, so a launch may alias
 * its arguments.
 */
module Schedules {
  import opened Grids
  import opened Shape
  import opened Stencil
  import opened Views

  /** A block holds the operands it has loaded so far, until it has stored its cell. */
  datatype Block<V> = Running(loaded: seq<V>) | Done

  datatype Operand = FromInput(r: nat, c: nat) | FromRhs(r: nat, c: nat) | ThroughView(view: View, r: nat, c: nat)

  datatype Machine<V> = Machine(mem: Memory<V>, blocks: seq<Block<V>>)

  /** A single-step operator. */
  datatype Operator<V> =
    | JacobiStep(jacobi: JacobiParams<V>, rhs: Alloc)
    | LaplacianStep(laplacian: LaplacianParams<V>)
  {
    ghost predicate Fits(s: Shape2D, mem: Memory<V>) {
      JacobiStep? ==> rhs in mem && |mem[rhs]| == s.interiorLen
    }

    /** The field the CPU loop computes from the same inputs. */
    function Field(ops: Arith<V>, s: Shape2D, mem: Memory<V>, source: Alloc): (field: seq<V>)
      requires s.Valid() && source in mem && |mem[source]| == s.haloedLen && Fits(s, mem)
      ensures |field| == s.interiorLen
    {
      match this
      case JacobiStep(p, rhs) => JacobiField(Problem(ops, s, mem[rhs]), p, mem[source])
      case LaplacianStep(q) => LaplacianField(ops, s, q, mem[source])
    }
  }

  /** The three kernels: the tiled ones run an operator, reading its source through the directional views. */
  datatype Kernel<V> =
    | Timestep(params: JacobiParams<V>, forcing: Alloc)
    | Tiled(operator: Operator<V>, views: ReadViews)
  {
    predicate HasRhs() { Timestep? || operator.JacobiStep? }

    function Rhs(): Alloc
      requires HasRhs()
    {
      if Timestep? then forcing else operator.rhs
    }
  }

  datatype Launch<!V> = Launch(ops: Arith<V>, shape: Shape2D, kernel: Kernel<V>, input: Alloc, output: Alloc) {
    // The timestep kernel writes every haloed cell, the tiled ones the interior.
    function Rows(): nat { if kernel.Timestep? then shape.haloHeight else shape.height }
    function Cols(): nat { if kernel.Timestep? then shape.haloWidth else shape.width }
    function Len(): nat { if kernel.Timestep? then shape.haloedLen else shape.interiorLen }

    ghost predicate Fits(mem: Memory<V>) {
      && Directs()
      && {input, output} <= mem.Keys
      && |mem[input]| == shape.haloedLen && |mem[output]| == Len()
      && (kernel.HasRhs() ==> kernel.Rhs() in mem && |mem[kernel.Rhs()]| == shape.interiorLen)
    }

    ghost predicate Directs() { shape.Valid() && (!kernel.Timestep? ==> Directed(shape, kernel.views)) }

    // The backend partition is exclusive: the output is a separate allocation.
    ghost predicate Exclusive() { output != input && (kernel.HasRhs() ==> output != kernel.Rhs()) }

    ghost predicate HasBlock(r: nat, c: nat) { r < Rows() && c < Cols() }

    function ProblemIn(mem: Memory<V>): Problem<V>
      requires Fits(mem) && kernel.HasRhs()
    {
      Problem(ops, shape, mem[kernel.Rhs()])
    }

    /** What a completed launch leaves in its output. */
    function Target(mem: Memory<V>): (target: seq<V>)
      requires Fits(mem)
      ensures |target| == Len()
    {
      match kernel
      case Timestep(p, _) => Step(ProblemIn(mem), p, mem[input])
      case Tiled(operator, _) => operator.Field(ops, shape, mem, input)
    }

    /** The memory a completed launch leaves behind. */
    function Completed(mem: Memory<V>): Memory<V>
      requires Fits(mem)
    {
      mem[output := Target(mem)]
    }

    /** What block (r, c) ought to store. */
    function Value(mem: Memory<V>, r: nat, c: nat): V
      requires Fits(mem) && HasBlock(r, c)
    {
      match kernel
      case Timestep(p, _) => Update(ProblemIn(mem), p, mem[input], r, c)
      case Tiled(JacobiStep(p, _), _) => Update(ProblemIn(mem), p, mem[input], r + 1, c + 1)
      case Tiled(LaplacianStep(q), _) => LaplacianAt(ops, shape, q, mem[input], r + 1, c + 1)
    }

    /** Cell (r, c) of the output. */
    function Out<T>(field: seq<T>, r: nat, c: nat): T
      requires shape.Valid() && |field| == Len() && HasBlock(r, c)
    {
      Cell(Rows(), Cols(), field, r, c)
    }

    function PutOut<T>(field: seq<T>, r: nat, c: nat, v: T): (field': seq<T>)
      requires shape.Valid() && |field| == Len() && HasBlock(r, c)
      ensures |field'| == Len()
      ensures forall i: nat, j: nat :: HasBlock(i, j) ==>
                Out(field', i, j) == if i == r && j == c then v else Out(field, i, j)
    {
      Put(Rows(), Cols(), field, r, c, v)
    }

    lemma TargetCell(mem: Memory<V>, r: nat, c: nat)
      requires Fits(mem) && HasBlock(r, c)
      ensures Out(Target(mem), r, c) == Value(mem, r, c)
    {
      match kernel
      case Timestep(p, _) => assert Halo(shape, Target(mem), r, c) == Value(mem, r, c);
      case _ => assert Inner(shape, Target(mem), r, c) == Value(mem, r, c);
    }

    ghost predicate Sized(m: Machine<V>) {
      Fits(m.mem) && |m.blocks| == Len()
    }

    function BlockAt(m: Machine<V>, r: nat, c: nat): Block<V>
      requires Sized(m) && HasBlock(r, c)
    {
      Out(m.blocks, r, c)
    }

    ghost predicate Readable(o: Operand) {
      match o
      case FromInput(r, c) => r < shape.haloHeight && c < shape.haloWidth
      case FromRhs(r, c) => r < shape.height && c < shape.width && kernel.HasRhs()
      case ThroughView(v, r, c) => |v.strides| == 2 && 0 <= ViewIndex(v, r, c) < shape.haloedLen
    }

    /** What block (r, c) loads, in program order: its center, then whatever else it needs. */
    function Operands(r: nat, c: nat): (operands: seq<Operand>)
      requires Directs() && HasBlock(r, c)
      ensures 1 <= |operands| <= 6 && forall i :: 0 <= i < |operands| ==> Readable(operands[i])
    {
      match kernel
      case Timestep(_, _) =>
        [FromInput(r, c)] +
        (if r > 0 && r <= shape.height && c > 0 && c <= shape.width then
           [FromInput(r - 1, c), FromInput(r + 1, c), FromInput(r, c + 1), FromInput(r, c - 1), FromRhs(r - 1, c - 1)]
         else [])
      case Tiled(operator, v) => ThroughViews(v, r, c) + if operator.JacobiStep? then [FromRhs(r, c)] else []
    }

    function ThroughViews(v: ReadViews, r: nat, c: nat): (operands: seq<Operand>)
      requires shape.Valid() && Directed(shape, v) && r < shape.height && c < shape.width
      ensures |operands| == 5 && forall i :: 0 <= i < 5 ==> Readable(operands[i])
    {
      [ThroughView(v.center, r, c), ThroughView(v.north, r, c), ThroughView(v.south, r, c), ThroughView(v.east, r, c),
       ThroughView(v.west, r, c)]
    }

    function Load(mem: Memory<V>, o: Operand): V
      requires Fits(mem) && Readable(o)
    {
      match o
      case FromInput(r, c) => Halo(shape, mem[input], r, c)
      case FromRhs(r, c) => Inner(shape, mem[kernel.Rhs()], r, c)
      case ThroughView(v, r, c) => mem[input][ViewIndex(v, r, c)]
    }

    /** The value block (r, c) stores once its operands are loaded. */
    function Result(r: nat, c: nat, loaded: seq<V>): V
      requires Directs() && HasBlock(r, c) && |loaded| == |Operands(r, c)|
    {
      match kernel
      case Timestep(p, _) =>
        if InInterior(shape, r, c) then
          JacobiCell(ops, p, loaded[0], loaded[1], loaded[2], loaded[3], loaded[4], loaded[5])
        else loaded[0]
      case Tiled(JacobiStep(p, _), _) =>
        JacobiCell(ops, p, loaded[0], loaded[1], loaded[2], loaded[3], loaded[4], loaded[5])
      case Tiled(LaplacianStep(q), _) => LaplacianCell(ops, q, loaded[0], loaded[1], loaded[2], loaded[3], loaded[4])
    }

    function Start(mem: Memory<V>): (m: Machine<V>)
      requires Fits(mem)
    {
      Machine(mem, seq(Len(), _ => Running([])))
    }

    /** Block (r, c) performs its next micro-operation. */
    function MicroStep(m: Machine<V>, r: nat, c: nat): (m': Machine<V>)
      requires Sized(m) && HasBlock(r, c)
      ensures Sized(m')
    {
      match BlockAt(m, r, c)
      case Done => m
      case Running(loaded) =>
        var operands := Operands(r, c);
        if |loaded| < |operands| then
          m.(blocks := PutOut(m.blocks, r, c, Running(loaded + [Load(m.mem, operands[|loaded|])])))
        else
          var cell := Result(r, c, loaded[..|operands|]);
          Machine(m.mem[output := PutOut(m.mem[output], r, c, cell)], PutOut(m.blocks, r, c, Done))
    }

    ghost predicate Legal(schedule: seq<(nat, nat)>) {
      forall b :: b in schedule ==> HasBlock(b.0, b.1)
    }

    function Run(m: Machine<V>, schedule: seq<(nat, nat)>): (m': Machine<V>)
      requires Sized(m) && Legal(schedule)
      ensures Sized(m')
      decreases |schedule|
    {
      if schedule == [] then m
      else Run(MicroStep(m, schedule[0].0, schedule[0].1), schedule[1..])
    }

    ghost predicate AllDone(m: Machine<V>)
      requires Sized(m)
    {
      forall r: nat, c: nat :: HasBlock(r, c) ==> BlockAt(m, r, c).Done?
    }

    /** What every reachable state of an exclusive launch satisfies. */
    ghost predicate Inv(mem: Memory<V>, m: Machine<V>)
      requires Fits(mem)
    {
      && Sized(m)
      && m.mem == mem[output := m.mem[output]]
      && forall r: nat, c: nat {:trigger BlockInv(mem, m, r, c)} :: HasBlock(r, c) ==> BlockInv(mem, m, r, c)
    }

    ghost predicate BlockInv(mem: Memory<V>, m: Machine<V>, r: nat, c: nat)
      requires Fits(mem) && Sized(m) && HasBlock(r, c)
    {
      match BlockAt(m, r, c)
      case Done => Out(m.mem[output], r, c) == Value(mem, r, c)
      case Running(loaded) =>
        && LoadedFrom(mem, r, c, loaded)
        && Out(m.mem[output], r, c) == Out(mem[output], r, c)
    }

    ghost predicate LoadedFrom(mem: Memory<V>, r: nat, c: nat, loaded: seq<V>)
      requires Fits(mem) && HasBlock(r, c)
    {
      var operands := Operands(r, c);
      && |loaded| <= |operands|
      && forall i :: 0 <= i < |loaded| ==> loaded[i] == Load(mem, operands[i])
    }

    lemma ResultIsValue(mem: Memory<V>, r: nat, c: nat, loaded: seq<V>)
      requires Fits(mem) && HasBlock(r, c) && LoadedFrom(mem, r, c, loaded) && |loaded| == |Operands(r, c)|
      ensures Result(r, c, loaded) == Value(mem, r, c)
    {
      if !kernel.Timestep? { ViewsLoad(mem, r, c); }
    }

    /** What the five views read at (r, c) is what the CPU loop reads there. */
    lemma ViewsLoad(mem: Memory<V>, r: nat, c: nat)
      requires Fits(mem) && !kernel.Timestep? && HasBlock(r, c)
      ensures var u, o := mem[input], ThroughViews(kernel.views, r, c);
              && Load(mem, o[0]) == Halo(shape, u, r + 1, c + 1)
              && Load(mem, o[1]) == Halo(shape, u, r, c + 1)
              && Load(mem, o[2]) == Halo(shape, u, r + 2, c + 1)
              && Load(mem, o[3]) == Halo(shape, u, r + 1, c + 2)
              && Load(mem, o[4]) == Halo(shape, u, r + 1, c)
    {
    }

    lemma MicroStepInv(mem: Memory<V>, m: Machine<V>, r: nat, c: nat)
      requires Fits(mem) && Exclusive() && Inv(mem, m) && HasBlock(r, c)
      ensures Inv(mem, MicroStep(m, r, c))
    {
      var m' := MicroStep(m, r, c);
      match BlockAt(m, r, c)
      case Done =>
      case Running(loaded) =>
        assert BlockInv(mem, m, r, c);
        assert loaded[..|loaded|] == loaded;
        if |loaded| == |Operands(r, c)| { ResultIsValue(mem, r, c, loaded); }
        forall i: nat, j: nat | HasBlock(i, j) ensures BlockInv(mem, m', i, j) {
          assert BlockInv(mem, m, i, j);
        }
    }

    lemma {:induction false} RunInv(mem: Memory<V>, m: Machine<V>, schedule: seq<(nat, nat)>)
      requires Fits(mem) && Exclusive() && Inv(mem, m) && Legal(schedule)
      ensures Inv(mem, Run(m, schedule))
      decreases |schedule|
    {
      if schedule != [] {
        MicroStepInv(mem, m, schedule[0].0, schedule[0].1);
        RunInv(mem, MicroStep(m, schedule[0].0, schedule[0].1), schedule[1..]);
      }
    }

    lemma DoneMeansCompleted(mem: Memory<V>, m: Machine<V>)
      requires Fits(mem) && Inv(mem, m) && AllDone(m)
      ensures m.mem == Completed(mem)
    {
      forall r: nat, c: nat | r < Rows() && c < Cols()
        ensures Cell(Rows(), Cols(), m.mem[output], r, c) == Cell(Rows(), Cols(), Target(mem), r, c)
      {
        assert BlockInv(mem, m, r, c) && BlockAt(m, r, c).Done?;
        TargetCell(mem, r, c);
      }
      Extensional(Rows(), Cols(), m.mem[output], Target(mem));
    }

    /**
     * Any interleaving of the blocks' loads and stores that finishes them all leaves exactly
     * what the CPU loop computes, and touches nothing but the output.
     */
    lemma AnySchedule(mem: Memory<V>, schedule: seq<(nat, nat)>)
      requires Fits(mem) && Exclusive() && Legal(schedule) && AllDone(Run(Start(mem), schedule))
      ensures Run(Start(mem), schedule).mem == Completed(mem)
    {
      StartInv(mem);
      RunInv(mem, Start(mem), schedule);
      DoneMeansCompleted(mem, Run(Start(mem), schedule));
    }

    lemma StartInv(mem: Memory<V>)
      requires Fits(mem)
      ensures Inv(mem, Start(mem))
    {
      assert mem == mem[output := mem[output]];
      forall r: nat, c: nat | HasBlock(r, c) ensures BlockInv(mem, Start(mem), r, c) {
        AtBounds(Rows(), Cols(), r, c);
      }
    }

    /** A launch sees only its own allocations, so writes elsewhere do not disturb it. */
    lemma InvElsewhere(mem: Memory<V>, m: Machine<V>, mem': Memory<V>, m': Machine<V>)
      requires Fits(mem) && Inv(mem, m) && Fits(mem')
      requires mem'[input] == mem[input] && mem'[output] == mem[output]
      requires kernel.HasRhs() ==> mem'[kernel.Rhs()] == mem[kernel.Rhs()]
      requires m'.blocks == m.blocks && output in m'.mem && m'.mem == mem'[output := m.mem[output]]
      ensures Inv(mem', m')
    {
      forall r: nat, c: nat | HasBlock(r, c) ensures BlockInv(mem', m', r, c) {
        assert BlockInv(mem, m, r, c);
        assert BlockAt(m', r, c) == BlockAt(m, r, c);
      }
    }

    /** Micro-operations still to run. */
    ghost function Work(blocks: seq<Block<V>>): nat {
      if blocks == [] then 0 else BlockWork(blocks[0]) + Work(blocks[1..])
    }

    ghost function BlockWork(b: Block<V>): nat {
      match b
      case Done => 0
      case Running(loaded) => if |loaded| < 6 then 7 - |loaded| else 1
    }

    lemma {:induction false} WorkUpdate(blocks: seq<Block<V>>, k: nat, b: Block<V>)
      requires k < |blocks|
      ensures Work(blocks[k := b]) + BlockWork(blocks[k]) == Work(blocks) + BlockWork(b)
      decreases |blocks|
    {
      var updated := blocks[k := b];
      if k == 0 {
        assert updated[1..] == blocks[1..];
      } else {
        assert updated[1..] == blocks[1..][k - 1 := b];
        WorkUpdate(blocks[1..], k - 1, b);
      }
    }

    lemma MicroStepWorks(m: Machine<V>, r: nat, c: nat)
      requires Sized(m) && HasBlock(r, c) && BlockAt(m, r, c).Running?
      ensures Work(MicroStep(m, r, c).blocks) < Work(m.blocks)
    {
      AtBounds(Rows(), Cols(), r, c);
      WorkUpdate(m.blocks, At(Cols(), r, c), BlockAt(MicroStep(m, r, c), r, c));
    }

    /** No state is stuck: every partial run extends to one that finishes all blocks. */
    lemma {:induction false} CanFinish(m: Machine<V>) returns (schedule: seq<(nat, nat)>)
      requires Sized(m)
      ensures Legal(schedule) && AllDone(Run(m, schedule))
      decreases Work(m.blocks)
    {
      if AllDone(m) {
        schedule := [];
      } else {
        var r: nat, c: nat :| HasBlock(r, c) && BlockAt(m, r, c).Running?;
        MicroStepWorks(m, r, c);
        var rest := CanFinish(MicroStep(m, r, c));
        schedule := [(r, c)] + rest;
        assert schedule[1..] == rest;
      }
    }
  }
}
