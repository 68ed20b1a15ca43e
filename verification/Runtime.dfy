/** The double-buffered runtime on values: which generation each device grid holds after n steps. */
module Runtime {
  import opened Grids
  import opened Shape
  import opened Stencil
  import opened Schedules

  /** Device memory, and the allocations playing each role of a double grid. */
  datatype State<V> = State(mem: Memory<V>, current: Alloc, next: Alloc, rhs: Alloc, completed: nat) {
    ghost predicate Ready(s: Shape2D) {
      && s.Valid()
      && {current, next, rhs} <= mem.Keys
      && current != next && current != rhs && next != rhs
      && |mem[current]| == |mem[next]| == s.haloedLen
      && |mem[rhs]| == s.interiorLen
    }

    function Swapped(): State<V> { this.(current := next, next := current, completed := completed + 1) }

    ghost predicate SameGrid(other: State<V>)
      requires {current, next, rhs} <= mem.Keys && {other.current, other.next, other.rhs} <= other.mem.Keys
    {
      && current == other.current && next == other.next && rhs == other.rhs && completed == other.completed
      && mem[current] == other.mem[current] && mem[next] == other.mem[next] && mem[rhs] == other.mem[rhs]
    }
  }

  /** The kernel reads current and rhs, and writes next. */
  function LaunchOf<V>(ops: Arith<V>, s: Shape2D, p: JacobiParams<V>, st: State<V>): Launch<V> {
    Launch(ops, s, Timestep(p, st.rhs), st.current, st.next)
  }

  function Advance<V>(ops: Arith<V>, s: Shape2D, p: JacobiParams<V>, st: State<V>, n: nat): (st': State<V>)
    requires st.Ready(s)
    ensures st'.Ready(s)
  {
    if n == 0 then st else Advanced(ops, s, p, Advance(ops, s, p, st, n - 1))
  }

  /** One completed launch and the exchange of roles after it. */
  function Advanced<V>(ops: Arith<V>, s: Shape2D, p: JacobiParams<V>, st: State<V>): (st': State<V>)
    requires st.Ready(s)
    ensures st'.Ready(s)
  {
    st.(mem := LaunchOf(ops, s, p, st).Completed(st.mem)).Swapped()
  }

  /** Which grid is current after n exchanges. */
  function Roles(home: (Alloc, Alloc), n: nat): (Alloc, Alloc) {
    if n % 2 == 0 then home else (home.1, home.0)
  }

  /** The roles have the parity of n. */
  lemma {:induction false} AdvanceRoles<V>(ops: Arith<V>, s: Shape2D, p: JacobiParams<V>, st: State<V>, n: nat)
    requires st.Ready(s)
    ensures var st' := Advance(ops, s, p, st, n);
            && (st'.current, st'.next) == Roles((st.current, st.next), n)
            && st'.rhs == st.rhs && st'.completed == st.completed + n
  {
    if n > 0 {
      AdvanceRoles(ops, s, p, st, n - 1);
      AdvancedRoles(ops, s, p, Advance(ops, s, p, st, n - 1));
      RolesNext((st.current, st.next), n);
    }
  }

  lemma AdvancedRoles<V>(ops: Arith<V>, s: Shape2D, p: JacobiParams<V>, st: State<V>)
    requires st.Ready(s)
    ensures var st' := Advanced(ops, s, p, st);
            (st'.current, st'.next) == (st.next, st.current) && st'.rhs == st.rhs && st'.completed == st.completed + 1
  {
  }

  lemma RolesNext(home: (Alloc, Alloc), n: nat)
    requires n > 0
    ensures Roles(home, n) == (Roles(home, n - 1).1, Roles(home, n - 1).0)
  {
  }

  /** Nothing but the two grids changes. */
  lemma {:induction false} AdvanceElsewhere<V>(ops: Arith<V>, s: Shape2D, p: JacobiParams<V>, st: State<V>, n: nat,
                                               a: Alloc)
    requires st.Ready(s) && a != st.current && a != st.next
    ensures var st' := Advance(ops, s, p, st, n);
            (a in st'.mem <==> a in st.mem) && (a in st.mem ==> st'.mem[a] == st.mem[a])
  {
    if n > 0 {
      AdvanceElsewhere(ops, s, p, st, n - 1, a);
      AdvanceRoles(ops, s, p, st, n - 1);
    }
  }

  /** After n steps current is generation n, and next the generation before it. */
  lemma {:induction false} AdvanceMeaning<V>(ops: Arith<V>, s: Shape2D, p: JacobiParams<V>, st: State<V>, n: nat)
    requires st.Ready(s)
    ensures var st' := Advance(ops, s, p, st, n);
            var pr := Problem(ops, s, st.mem[st.rhs]);
            && st'.mem[st'.rhs] == st.mem[st.rhs]
            && st'.mem[st'.current] == Evolve(pr, st.mem[st.current], Repeat(p, n))
            && (n > 0 ==> st'.mem[st'.next] == Evolve(pr, st.mem[st.current], Repeat(p, n - 1)))
  {
    if n > 0 {
      AdvanceMeaning(ops, s, p, st, n - 1);
      assert Repeat(p, n)[..n - 1] == Repeat(p, n - 1);
    }
  }

  function Earlier<T>(history: seq<T>): seq<T> { if history == [] then [] else history[..|history| - 1] }

  /**
   * The double-buffer invariant: current is the generation of the whole history and next the one
   * before it, and the physical roles follow the parity of the number of steps.
   */
  ghost predicate Holds<V>(ops: Arith<V>, s: Shape2D, st: State<V>, home: (Alloc, Alloc), initial: seq<V>,
                           history: seq<JacobiParams<V>>) {
    && st.Ready(s) && |initial| == s.haloedLen
    && st.completed == |history|
    && (st.current, st.next) == Roles(home, |history|)
    && st.mem[st.current] == Evolve(Problem(ops, s, st.mem[st.rhs]), initial, history)
    && st.mem[st.next] == Evolve(Problem(ops, s, st.mem[st.rhs]), initial, Earlier(history))
  }

  lemma HistoryAdvances<V>(ops: Arith<V>, s: Shape2D, p: JacobiParams<V>, st: State<V>, n: nat, home: (Alloc, Alloc),
                           initial: seq<V>, history: seq<JacobiParams<V>>)
    requires Holds(ops, s, st, home, initial, history)
    ensures Holds(ops, s, Advance(ops, s, p, st, n), home, initial, history + Repeat(p, n))
  {
    var st' := Advance(ops, s, p, st, n);
    assert (st'.current, st'.next) == Roles(home, |history + Repeat(p, n)|) && st'.completed == |history| + n by {
      AdvanceRoles(ops, s, p, st, n);
      RolesCompose(home, |history|, n);
    }
    GenerationsAdvance(ops, s, p, st, n, initial, history);
  }

  lemma RolesCompose(home: (Alloc, Alloc), m: nat, n: nat)
    ensures Roles(Roles(home, m), n) == Roles(home, m + n)
  {
  }

  lemma GenerationsAdvance<V>(ops: Arith<V>, s: Shape2D, p: JacobiParams<V>, st: State<V>, n: nat, initial: seq<V>,
                              history: seq<JacobiParams<V>>)
    requires st.Ready(s) && |initial| == s.haloedLen
    requires st.mem[st.current] == Evolve(Problem(ops, s, st.mem[st.rhs]), initial, history)
    requires st.mem[st.next] == Evolve(Problem(ops, s, st.mem[st.rhs]), initial, Earlier(history))
    ensures var st' := Advance(ops, s, p, st, n);
            var pr := Problem(ops, s, st'.mem[st'.rhs]);
            && st'.mem[st'.current] == Evolve(pr, initial, history + Repeat(p, n))
            && st'.mem[st'.next] == Evolve(pr, initial, Earlier(history + Repeat(p, n)))
  {
    var pr := Problem(ops, s, st.mem[st.rhs]);
    AdvanceMeaning(ops, s, p, st, n);
    EvolveConcat(pr, initial, history, Repeat(p, n));
    if n > 0 {
      EvolveConcat(pr, initial, history, Repeat(p, n - 1));
      assert Earlier(history + Repeat(p, n)) == history + Repeat(p, n - 1);
    } else {
      assert history + Repeat(p, n) == history;
    }
  }

  /** So both grids always carry the halo they were built with, and an observed grid is the oracle's. */
  lemma HoldsKeepsHalo<V>(ops: Arith<V>, s: Shape2D, st: State<V>, home: (Alloc, Alloc), initial: seq<V>,
                          history: seq<JacobiParams<V>>, r: nat, c: nat)
    requires Holds(ops, s, st, home, initial, history) && r < s.haloHeight && c < s.haloWidth && !InInterior(s, r, c)
    ensures Halo(s, st.mem[st.current], r, c) == Halo(s, st.mem[st.next], r, c) == Halo(s, initial, r, c)
  {
    EvolveKeepsHalo(Problem(ops, s, st.mem[st.rhs]), initial, history, r, c);
    EvolveKeepsHalo(Problem(ops, s, st.mem[st.rhs]), initial, Earlier(history), r, c);
  }

  /** Batches compose, whatever is observed between them. */
  lemma {:induction false} AdvanceAdd<V>(ops: Arith<V>, s: Shape2D, p: JacobiParams<V>, st: State<V>, a: nat, b: nat)
    requires st.Ready(s)
    ensures Advance(ops, s, p, Advance(ops, s, p, st, a), b) == Advance(ops, s, p, st, a + b)
    decreases b
  {
    if b > 0 {
      var k := b - 1;
      AdvanceAdd(ops, s, p, st, a, k);
      AdvanceBoth(ops, s, p, st, Advance(ops, s, p, st, a), a, k, b);
    }
  }

  lemma AdvanceBoth<V>(ops: Arith<V>, s: Shape2D, p: JacobiParams<V>, st: State<V>, middle: State<V>, a: nat, k: nat,
                       b: nat)
    requires st.Ready(s) && middle.Ready(s) && b == k + 1
    requires Advance(ops, s, p, middle, k) == Advance(ops, s, p, st, a + k)
    ensures Advance(ops, s, p, middle, b) == Advance(ops, s, p, st, a + b)
  {
  }

  /** What a batch leaves of the device, successful or not: only the two grids differ. */
  ghost predicate OnlyGrids<V>(before: State<V>, after: State<V>) {
    && {after.current, after.next} == {before.current, before.next} && after.rhs == before.rhs
    && after.mem.Keys == before.mem.Keys
    && forall a :: a in before.mem && a !in {before.current, before.next} ==> after.mem[a] == before.mem[a]
  }

  lemma OnlyGridsChain<V>(first: State<V>, second: State<V>, third: State<V>)
    requires OnlyGrids(first, second) && OnlyGrids(second, third)
    ensures OnlyGrids(first, third)
  {
  }

  /** Each step of a blocking batch runs its own schedule to completion before the roles are swapped. */
  ghost predicate Completes<V>(ops: Arith<V>, s: Shape2D, p: JacobiParams<V>, st: State<V>,
                               schedules: seq<seq<(nat, nat)>>)
    requires st.Ready(s)
    decreases |schedules|
  {
    schedules == [] ||
    var l := LaunchOf(ops, s, p, st);
    && l.Legal(schedules[0]) && l.AllDone(l.Run(l.Start(st.mem), schedules[0]))
    && var st' := st.(mem := l.Run(l.Start(st.mem), schedules[0]).mem).Swapped();
       st'.Ready(s) && Completes(ops, s, p, st', schedules[1..])
  }

  ghost function RunSteps<V>(ops: Arith<V>, s: Shape2D, p: JacobiParams<V>, st: State<V>,
                             schedules: seq<seq<(nat, nat)>>): State<V>
    requires st.Ready(s) && Completes(ops, s, p, st, schedules)
    decreases |schedules|
  {
    if schedules == [] then st
    else
      var l := LaunchOf(ops, s, p, st);
      RunSteps(ops, s, p, st.(mem := l.Run(l.Start(st.mem), schedules[0]).mem).Swapped(), schedules[1..])
  }

  /** Whatever the interleaving within each step, a batch is the sequential oracle. */
  lemma {:induction false} AnySchedules<V>(ops: Arith<V>, s: Shape2D, p: JacobiParams<V>, st: State<V>,
                                           schedules: seq<seq<(nat, nat)>>)
    requires st.Ready(s) && Completes(ops, s, p, st, schedules)
    ensures RunSteps(ops, s, p, st, schedules) == Advance(ops, s, p, st, |schedules|)
    decreases |schedules|
  {
    if schedules != [] {
      LaunchOf(ops, s, p, st).AnySchedule(st.mem, schedules[0]);
      AnySchedules(ops, s, p, Advanced(ops, s, p, st), schedules[1..]);
      AdvanceFirst(ops, s, p, st, |schedules| - 1);
    }
  }

  lemma AdvanceFirst<V>(ops: Arith<V>, s: Shape2D, p: JacobiParams<V>, st: State<V>, n: nat)
    requires st.Ready(s)
    ensures Advance(ops, s, p, Advanced(ops, s, p, st), n) == Advance(ops, s, p, st, n + 1)
  {
    assert Advance(ops, s, p, st, 1) == Advanced(ops, s, p, Advance(ops, s, p, st, 0));
    AdvanceAdd(ops, s, p, st, 1, n);
  }
}
