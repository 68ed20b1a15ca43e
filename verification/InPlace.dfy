/**
 * Why the runtime double-buffers: when a launch whose output aliases its input depends on its schedule.
 *
 * The repository keeps such a program as a negative control (fixtures/in_place_jacobi.cu), with one
 * thread per interior cell, weight 0.5 and h^2 0.25. Here it is an aliased launch, for any shape and
 * coefficients, of which only the interior blocks are ever scheduled.
 */
module InPlace {
  import opened Grids
  import opened Shape
  import opened Stencil
  import opened Schedules

  lemma {:induction false} RunConcat<V>(l: Launch<V>, m: Machine<V>, first: seq<(nat, nat)>, second: seq<(nat, nat)>)
    requires l.Sized(m) && l.Legal(first) && l.Legal(second)
    ensures l.Legal(first + second) && l.Run(m, first + second) == l.Run(l.Run(m, first), second)
    decreases |first|
  {
    if first == [] {
      assert first + second == second;
    } else {
      assert (first + second)[1..] == first[1..] + second;
      RunConcat(l, l.MicroStep(m, first[0].0, first[0].1), first[1..], second);
    }
  }

  /** The state after block (r, c) runs without interruption, aliased launch or not. */
  ghost predicate RanAlone<V>(l: Launch<V>, m: Machine<V>, m': Machine<V>, r: nat, c: nat)
    requires l.Sized(m) && l.Sized(m') && l.HasBlock(r, c)
  {
    && l.BlockAt(m', r, c).Done?
    && (forall i: nat, j: nat :: l.HasBlock(i, j) && (i, j) != (r, c) ==> l.BlockAt(m', i, j) == l.BlockAt(m, i, j))
    && (forall i: nat, j: nat :: l.HasBlock(i, j) ==>
          l.Out(m'.mem[l.output], i, j) ==
          (if (i, j) == (r, c) then l.Value(m.mem, r, c) else l.Out(m.mem[l.output], i, j)))
    && m'.mem == m.mem[l.output := m'.mem[l.output]]
  }

  lemma {:induction false} RunAlone<V>(l: Launch<V>, m: Machine<V>, r: nat, c: nat) returns (schedule: seq<(nat, nat)>)
    requires l.Sized(m) && l.HasBlock(r, c) && l.BlockAt(m, r, c).Running?
    requires l.LoadedFrom(m.mem, r, c, l.BlockAt(m, r, c).loaded)
    ensures (forall b :: b in schedule ==> b == (r, c)) && l.Legal(schedule) && RanAlone(l, m, l.Run(m, schedule), r, c)
    decreases |l.Operands(r, c)| - |l.BlockAt(m, r, c).loaded|
  {
    var loaded := l.BlockAt(m, r, c).loaded;
    var m' := l.MicroStep(m, r, c);
    if |loaded| == |l.Operands(r, c)| {
      l.ResultIsValue(m.mem, r, c, loaded);
      assert loaded[..|loaded|] == loaded;
      schedule := [(r, c)];
      assert l.Run(m, schedule) == m';
    } else {
      var rest := RunAlone(l, m', r, c);
      schedule := [(r, c)] + rest;
      assert schedule[1..] == rest;
    }
  }

  /** A Jacobi step in place, in exact arithmetic. */
  ghost predicate InPlaceStep(l: Launch<real>) {
    l.shape.Valid() && l.ops == REAL_OPS && l.kernel.Timestep? && l.output == l.input != l.kernel.Rhs()
  }

  ghost predicate Aliased(l: Launch<real>, s: Shape2D, p: JacobiParams<real>) {
    InPlaceStep(l) && l.shape == s && l.kernel.params == p
  }

  /** All threads of the program have stored. */
  ghost predicate InteriorDone<V>(l: Launch<V>, m: Machine<V>)
    requires l.kernel.Timestep? && l.Sized(m)
  {
    forall r: nat, c: nat :: InInterior(l.shape, r, c) ==> l.BlockAt(m, r, c).Done?
  }

  ghost predicate OnlyInterior(s: Shape2D, schedule: seq<(nat, nat)>) {
    forall b :: b in schedule ==> InInterior(s, b.0, b.1)
  }

  /** A complete run of the program: its threads, and nothing else, to their ends. */
  ghost predicate Complete(l: Launch<real>, mem: Memory<real>, schedule: seq<(nat, nat)>) {
    && l.kernel.Timestep? && l.Fits(mem) && OnlyInterior(l.shape, schedule) && l.Legal(schedule)
    && InteriorDone(l, l.Run(l.Start(mem), schedule))
  }

  ghost function Outcome(l: Launch<real>, mem: Memory<real>, schedule: seq<(nat, nat)>): Memory<real>
    requires Complete(l, mem, schedule)
  {
    l.Run(l.Start(mem), schedule).mem
  }

  /** Some memory that two complete runs leave different. */
  ghost predicate Races(s: Shape2D, p: JacobiParams<real>) {
    exists l, mem, one, two :: Aliased(l, s, p) && Differ(l, mem, one, two)
  }

  ghost predicate Differ(l: Launch<real>, mem: Memory<real>, one: seq<(nat, nat)>, two: seq<(nat, nat)>) {
    Complete(l, mem, one) && Complete(l, mem, two) && Outcome(l, mem, one) != Outcome(l, mem, two)
  }

  /** The step in place depends on its schedule exactly when it has two threads and a weight. */
  lemma RacesIff(s: Shape2D, p: JacobiParams<real>)
    requires s.Valid()
    ensures Races(s, p) <==> s.interiorLen >= 2 && p.omega != 0.0
  {
    if s.interiorLen >= 2 && p.omega != 0.0 {
      var l, mem, one, two := InPlaceRaces(s, p);
      assert Aliased(l, s, p) && Differ(l, mem, one, two);
    } else {
      forall l, mem, one, two | Aliased(l, s, p) && Complete(l, mem, one) && Complete(l, mem, two)
        ensures Outcome(l, mem, one) == Outcome(l, mem, two)
      {
        QuietInPlace(l, s, p, mem, one);
        QuietInPlace(l, s, p, mem, two);
      }
    }
  }

  // One thread, or no weight: no schedule matters.

  ghost predicate Quiet(l: Launch<real>)
    requires l.kernel.Timestep?
  {
    l.shape.interiorLen < 2 || l.kernel.params.omega == 0.0
  }

  /** Where no schedule matters, the outcome is that of the launch with an output of its own. */
  lemma QuietInPlace(l: Launch<real>, s: Shape2D, p: JacobiParams<real>, mem: Memory<real>, schedule: seq<(nat, nat)>)
    requires Aliased(l, s, p) && (s.interiorLen < 2 || p.omega == 0.0) && Complete(l, mem, schedule)
    ensures Outcome(l, mem, schedule) == l.Completed(mem)
  {
    l.StartInv(mem);
    forall r: nat, c: nat | l.HasBlock(r, c) ensures l.BlockAt(l.Start(mem), r, c).Running? {
      StartsEmpty(l, mem, r, c);
    }
    QuietRun(l, mem, l.Start(mem), schedule);
    QuietEnd(l, mem, l.Run(l.Start(mem), schedule));
  }

  /** The halo's blocks never run. */
  ghost predicate HaloIdle(l: Launch<real>, m: Machine<real>)
    requires l.kernel.Timestep? && l.Sized(m)
  {
    forall r: nat, c: nat :: l.HasBlock(r, c) && !InInterior(l.shape, r, c) ==> l.BlockAt(m, r, c).Running?
  }

  lemma {:induction false} QuietRun(l: Launch<real>, mem: Memory<real>, m: Machine<real>, schedule: seq<(nat, nat)>)
    requires l.Fits(mem) && InPlaceStep(l) && Quiet(l)
    requires l.Inv(mem, m) && HaloIdle(l, m) && OnlyInterior(l.shape, schedule) && l.Legal(schedule)
    ensures l.Inv(mem, l.Run(m, schedule)) && HaloIdle(l, l.Run(m, schedule))
    decreases |schedule|
  {
    if schedule != [] {
      QuietStep(l, mem, m, schedule[0].0, schedule[0].1);
      QuietRun(l, mem, l.MicroStep(m, schedule[0].0, schedule[0].1), schedule[1..]);
    }
  }

  lemma QuietStep(l: Launch<real>, mem: Memory<real>, m: Machine<real>, r: nat, c: nat)
    requires l.Fits(mem) && InPlaceStep(l) && Quiet(l)
    requires l.Inv(mem, m) && HaloIdle(l, m) && InInterior(l.shape, r, c) && l.HasBlock(r, c)
    ensures l.Inv(mem, l.MicroStep(m, r, c)) && HaloIdle(l, l.MicroStep(m, r, c))
  {
    if l.BlockAt(m, r, c).Running? {
      Unchanged(l, mem, m, r, c);
      StepFrom(l, mem, m, r, c);
    }
  }

  /** An unfinished thread still sees the memory the launch started from. */
  lemma Unchanged(l: Launch<real>, mem: Memory<real>, m: Machine<real>, r: nat, c: nat)
    requires l.Fits(mem) && InPlaceStep(l) && Quiet(l)
    requires l.Inv(mem, m) && HaloIdle(l, m) && InInterior(l.shape, r, c) && l.BlockAt(m, r, c).Running?
    ensures m.mem == mem
  {
    forall i: nat, j: nat | i < l.Rows() && j < l.Cols()
      ensures Cell(l.Rows(), l.Cols(), m.mem[l.output], i, j) == Cell(l.Rows(), l.Cols(), mem[l.output], i, j)
    {
      assert l.BlockInv(mem, m, i, j);
      if l.BlockAt(m, i, j).Done? {
        assert InInterior(l.shape, i, j);
        if l.kernel.params.omega == 0.0 {
          Weightless(l, mem, i, j);
        } else {
          OneThread(l.shape, r, c, i, j);
        }
      }
    }
    Extensional(l.Rows(), l.Cols(), m.mem[l.output], mem[l.output]);
    assert mem == mem[l.output := mem[l.output]];
  }

  lemma Weightless(l: Launch<real>, mem: Memory<real>, r: nat, c: nat)
    requires l.Fits(mem) && InPlaceStep(l) && l.kernel.params.omega == 0.0 && l.HasBlock(r, c)
    ensures l.Value(mem, r, c) == l.Out(mem[l.output], r, c)
  {
    assert l.Out(mem[l.output], r, c) == Halo(l.shape, mem[l.input], r, c);
  }

  lemma OneThread(s: Shape2D, r: nat, c: nat, i: nat, j: nat)
    requires s.Valid() && s.interiorLen < 2 && InInterior(s, r, c) && InInterior(s, i, j)
    ensures i == r && j == c
  {
    RowFits(s.height, s.width, 0);
    if s.height > 1 { RowFits(s.height, s.width, 1); }
  }

  /** A block that sees what the launch started from keeps the invariant, aliased launch or not. */
  lemma StepFrom<V>(l: Launch<V>, mem: Memory<V>, m: Machine<V>, r: nat, c: nat)
    requires l.Fits(mem) && l.Inv(mem, m) && l.HasBlock(r, c) && m.mem == mem
    ensures l.Inv(mem, l.MicroStep(m, r, c))
  {
    var m' := l.MicroStep(m, r, c);
    match l.BlockAt(m, r, c)
    case Done =>
    case Running(loaded) =>
      assert l.BlockInv(mem, m, r, c);
      assert loaded[..|loaded|] == loaded;
      if |loaded| == |l.Operands(r, c)| { l.ResultIsValue(mem, r, c, loaded); }
      forall i: nat, j: nat | l.HasBlock(i, j) ensures l.BlockInv(mem, m', i, j) {
        assert l.BlockInv(mem, m, i, j);
      }
  }

  lemma QuietEnd(l: Launch<real>, mem: Memory<real>, m: Machine<real>)
    requires l.Fits(mem) && InPlaceStep(l)
    requires l.Inv(mem, m) && HaloIdle(l, m) && InteriorDone(l, m)
    ensures m.mem == l.Completed(mem)
  {
    forall r: nat, c: nat | r < l.Rows() && c < l.Cols()
      ensures Cell(l.Rows(), l.Cols(), m.mem[l.output], r, c) == Cell(l.Rows(), l.Cols(), l.Target(mem), r, c)
    {
      assert l.BlockInv(mem, m, r, c);
      l.TargetCell(mem, r, c);
    }
    Extensional(l.Rows(), l.Cols(), m.mem[l.output], l.Target(mem));
  }

  // Two threads and a weight: a neighbor's early store leaks.

  /** A neighbor of the first interior cell. */
  function Beside(s: Shape2D): (nat, nat) { if s.width > 1 then (1, 2) else (2, 1) }

  lemma BesideIsInside(s: Shape2D)
    requires s.Valid() && s.interiorLen >= 2
    ensures InInterior(s, Beside(s).0, Beside(s).1)
  {
    assert s.interiorLen == s.height * s.width;
    if s.width == 1 { assert s.height == s.interiorLen; }
  }

  /** A grid of zeros, but for the first interior cell. */
  ghost predicate ZerosWith(l: Launch<real>, s: Shape2D, p: JacobiParams<real>, mem: Memory<real>, first: real) {
    && Aliased(l, s, p) && l.Fits(mem)
    && (forall r: nat, c: nat :: r < s.haloHeight && c < s.haloWidth ==>
          Halo(s, mem[l.input], r, c) == if r == 1 && c == 1 then first else 0.0)
    && (forall r: nat, c: nat :: r < s.height && c < s.width ==> Inner(s, mem[l.kernel.Rhs()], r, c) == 0.0)
  }

  lemma Weighted(p: JacobiParams<real>, v: real)
    ensures JacobiCell(REAL_OPS, p, v, 0.0, 0.0, 0.0, 0.0, 0.0) == (1.0 - p.omega) * v
    ensures JacobiCell(REAL_OPS, p, 0.0, v, 0.0, 0.0, 0.0, 0.0) == p.omega * (0.25 * v)
    ensures JacobiCell(REAL_OPS, p, 0.0, 0.0, 0.0, 0.0, v, 0.0) == p.omega * (0.25 * v)
  {
    assert p.hSquared * 0.0 == 0.0;
  }

  lemma StoresFirst(l: Launch<real>, s: Shape2D, p: JacobiParams<real>, mem: Memory<real>, v: real)
    requires ZerosWith(l, s, p, mem, v)
    ensures l.HasBlock(1, 1) && l.Value(mem, 1, 1) == (1.0 - p.omega) * v
  {
    var pr, u := l.ProblemIn(mem), mem[l.input];
    UpdateOf(pr, p, u, 1, 1);
    assert Around(pr, u, 1, 1) == [v, 0.0, 0.0, 0.0, 0.0, 0.0];
    Weighted(p, v);
  }

  /** What the neighbor stores shows what it saw of the first cell. */
  lemma StoresBeside(l: Launch<real>, s: Shape2D, p: JacobiParams<real>, mem: Memory<real>, v: real)
    requires ZerosWith(l, s, p, mem, v) && InInterior(s, Beside(s).0, Beside(s).1)
    ensures l.HasBlock(Beside(s).0, Beside(s).1) && l.Value(mem, Beside(s).0, Beside(s).1) == p.omega * (0.25 * v)
  {
    var pr, u, b := l.ProblemIn(mem), mem[l.input], Beside(s);
    UpdateOf(pr, p, u, b.0, b.1);
    Weighted(p, v);
    if s.width > 1 {
      assert Around(pr, u, 1, 2) == [0.0, 0.0, 0.0, 0.0, v, 0.0];
    } else {
      assert Around(pr, u, 2, 1) == [0.0, v, 0.0, 0.0, 0.0, 0.0];
    }
  }

  lemma StartsEmpty<V>(l: Launch<V>, mem: Memory<V>, r: nat, c: nat)
    requires l.Fits(mem) && l.HasBlock(r, c)
    ensures l.BlockAt(l.Start(mem), r, c) == Running([])
  {
    AtBounds(l.Rows(), l.Cols(), r, c);
  }

  /** What finished blocks have stored stays. */
  ghost predicate Settled<V>(l: Launch<V>, m: Machine<V>, m': Machine<V>)
    requires l.Sized(m) && l.Sized(m')
  {
    forall r: nat, c: nat :: l.HasBlock(r, c) && l.BlockAt(m, r, c).Done? ==>
      l.BlockAt(m', r, c).Done? && l.Out(m'.mem[l.output], r, c) == l.Out(m.mem[l.output], r, c)
  }

  lemma SettledChain<V>(l: Launch<V>, m: Machine<V>, m': Machine<V>, m'': Machine<V>)
    requires l.Sized(m) && l.Sized(m') && l.Sized(m'') && Settled(l, m, m') && Settled(l, m', m'')
    ensures Settled(l, m, m'')
  {
  }

  lemma StepSettles<V>(l: Launch<V>, m: Machine<V>, r: nat, c: nat)
    requires l.Sized(m) && l.HasBlock(r, c)
    ensures Settled(l, m, l.MicroStep(m, r, c))
  {
  }

  /** The other threads run to their ends. */
  lemma {:induction false} FinishInterior(l: Launch<real>, m: Machine<real>) returns (schedule: seq<(nat, nat)>)
    requires l.kernel.Timestep? && l.Sized(m)
    ensures OnlyInterior(l.shape, schedule) && l.Legal(schedule)
    ensures InteriorDone(l, l.Run(m, schedule)) && Settled(l, m, l.Run(m, schedule))
    decreases l.Work(m.blocks)
  {
    if InteriorDone(l, m) {
      schedule := [];
    } else {
      var r: nat, c: nat :| InInterior(l.shape, r, c) && l.BlockAt(m, r, c).Running?;
      l.MicroStepWorks(m, r, c);
      StepSettles(l, m, r, c);
      var rest := FinishInterior(l, l.MicroStep(m, r, c));
      schedule := [(r, c)] + rest;
      assert schedule[1..] == rest;
      SettledChain(l, m, l.MicroStep(m, r, c), l.Run(m, schedule));
    }
  }

  /** The rest of the program, once the neighbor has stored. */
  lemma ThenTheRest(l: Launch<real>, s: Shape2D, mem: Memory<real>, first: seq<(nat, nat)>, stored: real)
    returns (schedule: seq<(nat, nat)>)
    requires l.kernel.Timestep? && l.Fits(mem) && OnlyInterior(l.shape, first) && l.Legal(first)
    requires LeavesBeside(l, s, l.Run(l.Start(mem), first), stored)
    ensures Complete(l, mem, schedule) && LeavesBeside(l, s, l.Run(l.Start(mem), schedule), stored)
  {
    var rest := FinishInterior(l, l.Run(l.Start(mem), first));
    RunConcat(l, l.Start(mem), first, rest);
    schedule := first + rest;
  }

  /** The neighbor runs from whatever the first cell holds. */
  lemma ThenBeside(l: Launch<real>, s: Shape2D, p: JacobiParams<real>, m: Machine<real>, v: real)
    returns (schedule: seq<(nat, nat)>, stored: real)
    requires ZerosWith(l, s, p, m.mem, v) && l.Sized(m) && InInterior(s, Beside(s).0, Beside(s).1)
    requires l.HasBlock(Beside(s).0, Beside(s).1) && l.BlockAt(m, Beside(s).0, Beside(s).1) == Running([])
    ensures OnlyInterior(s, schedule) && l.Legal(schedule) && LeavesBeside(l, s, l.Run(m, schedule), stored)
    ensures stored == p.omega * (0.25 * v)
  {
    schedule := RunAlone(l, m, Beside(s).0, Beside(s).1);
    StoresBeside(l, s, p, m.mem, v);
    stored := l.Value(m.mem, Beside(s).0, Beside(s).1);
  }

  ghost predicate LeavesBeside(l: Launch<real>, s: Shape2D, m: Machine<real>, v: real) {
    && l.Sized(m) && l.HasBlock(Beside(s).0, Beside(s).1) && l.BlockAt(m, Beside(s).0, Beside(s).1).Done?
    && l.Out(m.mem[l.output], Beside(s).0, Beside(s).1) == v
  }

  /** The neighbor first: it sees the old value of the first cell. */
  lemma NeighborFirst(l: Launch<real>, s: Shape2D, p: JacobiParams<real>, mem: Memory<real>)
    returns (schedule: seq<(nat, nat)>, stored: real)
    requires ZerosWith(l, s, p, mem, 1.0) && InInterior(s, Beside(s).0, Beside(s).1)
    ensures Complete(l, mem, schedule) && LeavesBeside(l, s, l.Run(l.Start(mem), schedule), stored)
    ensures stored == p.omega * (0.25 * 1.0)
  {
    StartsEmpty(l, mem, Beside(s).0, Beside(s).1);
    var first;
    first, stored := ThenBeside(l, s, p, l.Start(mem), 1.0);
    schedule := ThenTheRest(l, s, mem, first, stored);
  }

  /** The first cell first: its new value leaks into the neighbor. */
  lemma FirstFirst(l: Launch<real>, s: Shape2D, p: JacobiParams<real>, mem: Memory<real>)
    returns (schedule: seq<(nat, nat)>, leaked: real, stored: real)
    requires ZerosWith(l, s, p, mem, 1.0) && InInterior(s, Beside(s).0, Beside(s).1)
    ensures Complete(l, mem, schedule) && LeavesBeside(l, s, l.Run(l.Start(mem), schedule), stored)
    ensures leaked == 1.0 - p.omega && stored == p.omega * (0.25 * leaked)
  {
    var start := l.Start(mem);
    StartsEmpty(l, mem, 1, 1);
    StartsEmpty(l, mem, Beside(s).0, Beside(s).1);
    var one := RunAlone(l, start, 1, 1);
    leaked := AfterFirst(l, s, p, mem, l.Run(start, one));
    var two;
    two, stored := ThenBeside(l, s, p, l.Run(start, one), leaked);
    RunConcat(l, start, one, two);
    schedule := ThenTheRest(l, s, mem, one + two, stored);
  }

  lemma AfterFirst(l: Launch<real>, s: Shape2D, p: JacobiParams<real>, mem: Memory<real>, m': Machine<real>)
    returns (leaked: real)
    requires ZerosWith(l, s, p, mem, 1.0) && l.HasBlock(1, 1) && l.Sized(m') && RanAlone(l, l.Start(mem), m', 1, 1)
    ensures leaked == 1.0 - p.omega && ZerosWith(l, s, p, m'.mem, leaked)
  {
    StoresFirst(l, s, p, mem, 1.0);
    leaked := l.Value(mem, 1, 1);
    forall r: nat, c: nat | r < s.haloHeight && c < s.haloWidth
      ensures Halo(s, m'.mem[l.input], r, c) == if r == 1 && c == 1 then leaked else 0.0
    {
      assert l.HasBlock(r, c);
      assert Halo(s, mem[l.input], r, c) == if r == 1 && c == 1 then 1.0 else 0.0;
      assert Halo(s, m'.mem[l.input], r, c) == l.Out(m'.mem[l.output], r, c);
    }
    assert m'.mem[l.kernel.Rhs()] == mem[l.kernel.Rhs()];
  }

  /** Two complete runs of the program that leave different memories. */
  lemma InPlaceRaces(s: Shape2D, p: JacobiParams<real>)
    returns (l: Launch<real>, mem: Memory<real>, one: seq<(nat, nat)>, two: seq<(nat, nat)>)
    requires s.Valid() && s.interiorLen >= 2 && p.omega != 0.0
    ensures Aliased(l, s, p) && Differ(l, mem, one, two)
  {
    BesideIsInside(s);
    l, mem := InPlaceExample(s, p);
    var stored, leaked, stored';
    one, stored := NeighborFirst(l, s, p, mem);
    two, leaked, stored' := FirstFirst(l, s, p, mem);
    LeakShows(p.omega, leaked, stored, stored');
  }

  lemma LeakShows(omega: real, leaked: real, stored: real, stored': real)
    requires omega != 0.0 && leaked == 1.0 - omega
    requires stored == omega * (0.25 * 1.0) && stored' == omega * (0.25 * leaked)
    ensures stored != stored'
  {
    var less := 0.25 * (1.0 - leaked);
    assert less != 0.0;
    assert omega * less != 0.0;
    assert stored - stored' == omega * less;
  }

  lemma InPlaceExample(s: Shape2D, p: JacobiParams<real>) returns (l: Launch<real>, mem: Memory<real>)
    requires s.Valid()
    ensures ZerosWith(l, s, p, mem, 1.0)
  {
    l := Launch(REAL_OPS, s, Timestep(p, 1), 0, 0);
    var u := Tabulate(s.haloHeight, s.haloWidth, (r: nat, c: nat) => if r == 1 && c == 1 then 1.0 else 0.0);
    var f := Tabulate(s.height, s.width, (r: nat, c: nat) => 0.0);
    mem := map[0 := u, 1 := f];
  }
}
