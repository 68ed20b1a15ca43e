/** Device memory and the kernels that write it (src/gpu/kernels.rs). */
module Kernels {
  import opened Grids
  import opened Stencil
  import opened Views
  import opened Schedules

  class Device<V> {
    var mem: Memory<V>

    constructor ()
      ensures mem == map[]
    {
      mem := map[];
    }

    /** One block of the timestep kernel, run alone: a guarded stencil over a copied center. */
    method Timestep(l: Launch<V>, row: nat, col: nat)
      requires l.kernel.Timestep? && l.Fits(mem) && l.HasBlock(row, col)
      modifies this
      ensures mem == old(mem)[l.output := l.PutOut(old(mem[l.output]), row, col, l.Value(old(mem), row, col))]
    {
      var s, ops, input, p := l.shape, l.ops, mem[l.input], l.kernel.params;
      var center := Halo(s, input, row, col);
      var value := center;
      if row > 0 && row <= s.height && col > 0 && col <= s.width {
        var north := Halo(s, input, row - 1, col);
        var south := Halo(s, input, row + 1, col);
        var east := Halo(s, input, row, col + 1);
        var west := Halo(s, input, row, col - 1);
        var forcing := Inner(s, mem[l.kernel.Rhs()], row - 1, col - 1);
        var sum := ops.add(ops.add(ops.add(north, south), east), west);
        var candidate := ops.mul(ops.quarter, ops.sub(sum, ops.mul(p.hSquared, forcing)));
        value := ops.add(ops.mul(ops.sub(ops.one, p.omega), center), ops.mul(p.omega, candidate));
      }
      mem := mem[l.output := l.PutOut(mem[l.output], row, col, value)];
    }

    /** Lane (r, c) of a tile, run alone: loads through the directional views, a compact store. */
    method Lane(l: Launch<V>, r: nat, c: nat)
      requires !l.kernel.Timestep? && l.Fits(mem) && l.HasBlock(r, c)
      modifies this
      ensures mem == old(mem)[l.output := l.PutOut(old(mem[l.output]), r, c, l.Value(old(mem), r, c))]
    {
      var ops, u, v := l.ops, mem[l.input], l.kernel.views;
      l.ViewsLoad(mem, r, c);
      var center := u[ViewIndex(v.center, r, c)];
      var north := u[ViewIndex(v.north, r, c)];
      var south := u[ViewIndex(v.south, r, c)];
      var east := u[ViewIndex(v.east, r, c)];
      var west := u[ViewIndex(v.west, r, c)];
      var sum := ops.add(ops.add(ops.add(north, south), east), west);
      var value;
      match l.kernel.operator {
        case JacobiStep(p, rhs) =>
          var candidate := ops.mul(ops.quarter, ops.sub(sum, ops.mul(p.hSquared, Inner(l.shape, mem[rhs], r, c))));
          value := ops.add(ops.mul(ops.sub(ops.one, p.omega), center), ops.mul(p.omega, candidate));
        case LaplacianStep(p) =>
          value := ops.mul(ops.sub(sum, ops.mul(ops.four, center)), p.inverseHSquared);
      }
      mem := mem[l.output := l.PutOut(mem[l.output], r, c, value)];
    }

    /** One 16x16 block run alone: its lanes inside the interior store, the masked ones do not. */
    method Tile(l: Launch<V>, ty: nat, tx: nat)
      requires !l.kernel.Timestep? && l.Fits(mem) && l.Exclusive()
      modifies this
      ensures l.Fits(mem) && mem == old(mem)[l.output := mem[l.output]]
      ensures forall r: nat, c: nat :: l.HasBlock(r, c) ==>
                l.Out(mem[l.output], r, c) ==
                if InTile(ty, tx, r, c) then l.Value(old(mem), r, c) else l.Out(old(mem[l.output]), r, c)
    {
      ghost var before := mem;
      assert mem == mem[l.output := mem[l.output]];
      for i := 0 to 16
        invariant Written(l, before, mem, ty, tx, i, 0)
      {
        for j := 0 to 16
          invariant Written(l, before, mem, ty, tx, i, j)
        {
          MaskedLane(l, before, ty, tx, i, j);
        }
      }
    }

    method MaskedLane(l: Launch<V>, ghost before: Memory<V>, ty: nat, tx: nat, i: nat, j: nat)
      requires !l.kernel.Timestep? && l.Fits(before) && l.Exclusive() && i < 16 && j < 16
      requires Written(l, before, mem, ty, tx, i, j)
      modifies this
      ensures Written(l, before, mem, ty, tx, i, j + 1)
    {
      var r, c := 16 * ty + i, 16 * tx + j;
      if r < l.shape.height && c < l.shape.width {
        Lane(l, r, c);
      }
    }

    /**
     * The device works on a launch in flight: again and again any unfinished block performs its next
     * load or store, until all are done or, unless the launch is to finish, at any moment before.
     */
    method RunBlocks(l: Launch<V>, ghost before: Memory<V>, blocks: seq<Block<V>>, finish: bool)
      returns (blocks': seq<Block<V>>)
      requires l.Fits(before) && l.Exclusive() && l.Sized(Machine(mem, blocks)) && l.Inv(before, Machine(mem, blocks))
      modifies this
      ensures l.Sized(Machine(mem, blocks')) && l.Inv(before, Machine(mem, blocks'))
      ensures finish ==> l.AllDone(Machine(mem, blocks'))
    {
      blocks' := blocks;
      while exists r: nat, c: nat :: r < l.Rows() && c < l.Cols() && l.BlockAt(Machine(mem, blocks'), r, c).Running?
        invariant l.Sized(Machine(mem, blocks')) && l.Inv(before, Machine(mem, blocks'))
        decreases l.Work(blocks')
      {
        if !finish {
          if * { return; }
        }
        var r: nat, c: nat :| r < l.Rows() && c < l.Cols() && l.BlockAt(Machine(mem, blocks'), r, c).Running?;
        l.MicroStepInv(before, Machine(mem, blocks'), r, c);
        l.MicroStepWorks(Machine(mem, blocks'), r, c);
        var next := l.MicroStep(Machine(mem, blocks'), r, c);
        mem, blocks' := next.mem, next.blocks;
      }
    }

    /** A launch of any of the kernels, from submission to completion. */
    method Launch(l: Launch<V>)
      requires l.Fits(mem) && l.Exclusive()
      modifies this
      ensures mem == l.Completed(old(mem))
    {
      l.StartInv(mem);
      var blocks := RunBlocks(l, mem, l.Start(mem).blocks, true);
      l.DoneMeansCompleted(old(mem), Machine(mem, blocks));
    }

    /** A launch that fails: it may have stopped anywhere. */
    method Fail(l: Launch<V>)
      requires l.Fits(mem) && l.Exclusive()
      modifies this
      ensures l.Fits(mem) && mem == old(mem)[l.output := mem[l.output]]
    {
      l.StartInv(mem);
      var _ := RunBlocks(l, mem, l.Start(mem).blocks, false);
    }
  }

  /** The lanes before (i, j) of one tile have stored their values, and nothing else has changed. */
  ghost predicate Written<V>(l: Launch<V>, before: Memory<V>, mem: Memory<V>, ty: nat, tx: nat, i: nat, j: nat)
    requires l.Fits(before)
  {
    && l.Fits(mem) && mem == before[l.output := mem[l.output]]
    && forall r: nat, c: nat :: l.HasBlock(r, c) ==>
         l.Out(mem[l.output], r, c) ==
         if InTile(ty, tx, r, c) && LaneBefore(r - 16 * ty, c - 16 * tx, i, j) then l.Value(before, r, c)
         else l.Out(before[l.output], r, c)
  }

  predicate LaneBefore(i: int, j: int, i': int, j': int) { i < i' || (i == i' && j < j') }
}
