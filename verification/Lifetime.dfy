/**
 * Who keeps device storage alive while the stream still uses it (docs/readback-lifetime.md and the
 * owners of src/gpu/cutile_impl.rs and src/gpu/timesteps.rs).
 *
 * Each transition is one thread reaching the next point of a public call where it submits work,
 * finds its completion proven, or drops an owner. Freeing is not ordered with the stream: dropped
 * storage may be handed out again at once. The caller obeys Rust's ownership and borrowing rules.
 */
module Lifetime {
  import opened Grids
  import Errors

  type Id = nat

  /** What a caller can hold: one buffer, the three of a double grid, or the three an async step returns. */
  datatype Item =
    | Single(alloc: Alloc)
    | Grid(current: Alloc, next: Alloc, rhs: Alloc)
    | Bundle(source: Alloc, right: Alloc, output: Alloc)
  {
    function Allocs(): set<Alloc> {
      match this
      case Single(a) => {a}
      case Grid(c, n, r) => {c, n, r}
      case Bundle(s, r, o) => {s, r, o}
    }

    /** The allocation a readback copies. */
    function Copied(): set<Alloc> {
      match this
      case Single(a) => {a}
      case Grid(c, _, _) => {c}
      case Bundle(_, _, o) => {o}
    }

    predicate Distinct() {
      match this
      case Single(_) => true
      case Grid(c, n, r) => c != n && c != r && n != r
      case Bundle(s, r, o) => s != r && s != o && r != o
    }

    function Swapped(): Item {
      if Grid? then Grid(next, current, rhs) else this
    }
  }

  datatype Owner =
    | Held(item: Item)                                  // by the caller
    | Uploading(alloc: Alloc)
    | Launching(source: Id, rhs: Errors.Option<Id>, output: Id) // step_into, laplacian_into: borrows only
    | Reading(item: Item, released: bool)               // into_host, observe; released: its owner was dropped early
    | Advancing(item: Item, left: nat)                  // advance, with left steps to complete
    | Future(item: Item, left: nat, polled: bool)       // step_into_async, advance_async; polled: a step is submitted
    | Draining(allocs: set<Alloc>)                      // a future dropped while its step was in flight
    | Leaked(allocs: set<Alloc>)                        // forgotten
  {
    /** The storage that goes when this owner goes. */
    function Owns(): set<Alloc> {
      match this
      case Held(item) => item.Allocs()
      case Uploading(a) => {a}
      case Launching(_, _, _) => {}
      case Reading(item, released) => item.Allocs() - (if released then item.Copied() else {})
      case Advancing(item, _) => item.Allocs()
      case Future(item, _, _) => item.Allocs()
      case Draining(allocs) => allocs
      case Leaked(allocs) => allocs
    }

    predicate Sound() {
      Held? || Reading? || Advancing? || Future? ==> item.Distinct()
    }

    function Borrows(): set<Id> {
      if Launching? then {source, output} + (if rhs.Some? then {rhs.value} else {}) else {}
    }

    /** Whether work submitted for this owner may still be in the queue. */
    predicate MayFly() { !Held? && (Future? ==> polled) }
  }

  /** Work in the stream, the owner it was submitted for, and the allocations it uses. */
  datatype Op = Op(job: Id, names: set<Alloc>)

  /** retained: a readback keeps its own owner until the copy completes. drains: dropping a future in flight waits. */
  datatype Policy = Policy(retained: bool, drains: bool)

  datatype Event =
    | Upload(id: Id, alloc: Alloc)
    | Launch(id: Id, source: Id, forcing: Errors.Option<Id>, output: Id)
    | Read(id: Id)
    | ExecuteReturns(id: Id)
    | Advance(id: Id, steps: nat)
    | Assemble(id: Id, current: Id, next: Id, rhs: Id)
    | StepAsync(id: Id, source: Id, rhs: Id, output: Id)
    | AdvanceAsync(id: Id, steps: nat)
    | Poll(id: Id, ok: bool)
    | Unpack(bundle: Id, source: Id, rhs: Id, output: Id)
    | Return(id: Id, ok: bool)       // a blocking call, or a drain, finds its work completed
    | Unproven(id: Id)               // it cannot: the process aborts
    | Drop(id: Id)
    | Forget(id: Id)
    | Device                         // the stream completes its oldest work

  datatype World = World(policy: Policy, live: set<Alloc>, owners: map<Id, Owner>, queue: seq<Op>, aborted: bool) {

    predicate InFlight(id: Id) { exists k :: 0 <= k < |queue| && queue[k].job == id }

    predicate Borrowed(id: Id) { exists f :: f in owners && id in owners[f].Borrows() }

    /** The caller holds this item and nothing borrows it. */
    predicate Free(id: Id) { id in owners && owners[id].Held? && !Borrowed(id) }

    predicate FreeSingle(id: Id) { Free(id) && owners[id].item.Single? }

    /** A buffer the caller may lend to a launch. */
    predicate Lends(id: Id) { id in owners && owners[id].Held? && owners[id].item.Single? }

    function Become(id: Id, owner: Owner): World { this.(owners := owners[id := owner]) }

    /** Dropping an owner frees its storage. */
    function Gone(id: Id): World
      requires id in owners
    {
      this.(live := live - owners[id].Owns(), owners := owners - {id})
    }

    function Submit(id: Id, names: set<Alloc>): World { this.(queue := queue + [Op(id, names)]) }

    /** Three buffers move into one owner. */
    predicate CanMerge(id: Id, a: Id, b: Id, c: Id) {
      id !in owners && FreeSingle(a) && FreeSingle(b) && FreeSingle(c) && a != b && a != c && b != c
    }

    function Merge(id: Id, a: Id, b: Id, c: Id, owner: Owner): World {
      this.(owners := (owners - {a, b, c})[id := owner])
    }

    function Next(e: Event): World {
      if aborted then this else
      match e
      case Upload(id, a) =>
        if id in owners || a in live then this
        else this.(live := live + {a}).Become(id, Uploading(a)).Submit(id, {a})
      case Launch(id, source, rhs, output) =>
        if id in owners || !Lends(source) || !Lends(output) || source == output then this
        else if rhs.Some? && (!Lends(rhs.value) || rhs.value == output) then this
        else
          var names :=
            owners[source].Owns() + owners[output].Owns() + (if rhs.Some? then owners[rhs.value].Owns() else {});
          Become(id, Launching(source, rhs, output)).Submit(id, names)
      case Read(id) =>
        if !Free(id) || owners[id].item.Bundle? then this
        else Become(id, Reading(owners[id].item, false)).Submit(id, owners[id].item.Copied())
      case ExecuteReturns(id) =>
        if id !in owners || !owners[id].Reading? || owners[id].released || policy.retained then this
        else
          var item := owners[id].item;
          this.(live := live - item.Copied()).Become(id, Reading(item, true))
      case Advance(id, steps) =>
        if !Free(id) || !owners[id].item.Grid? || steps == 0 then this
        else Become(id, Advancing(owners[id].item, steps)).Submit(id, owners[id].item.Allocs())
      case Assemble(id, c, n, r) =>
        if !CanMerge(id, c, n, r) then this
        else Merge(id, c, n, r, Held(Grid(owners[c].item.alloc, owners[n].item.alloc, owners[r].item.alloc)))
      case StepAsync(id, s, r, o) =>
        if !CanMerge(id, s, r, o) then this
        else Merge(id, s, r, o,
                   Future(Bundle(owners[s].item.alloc, owners[r].item.alloc, owners[o].item.alloc), 1, false))
      case AdvanceAsync(id, steps) =>
        if !Free(id) || !owners[id].item.Grid? then this
        else Become(id, Future(owners[id].item, steps, false))
      case Poll(id, ok) => if id in owners && owners[id].Future? then Resume(id, ok) else this
      case Unpack(id, s, r, o) =>
        if !Free(id) || !owners[id].item.Bundle? || {s, r, o} * owners.Keys != {} || s == r || s == o || r == o then
          this
        else
          var Bundle(source, rhs, output) := owners[id].item;
          this.(owners := (owners - {id})[s := Held(Single(source))][r := Held(Single(rhs))][o := Held(Single(output))])
      case Return(id, ok) => if id in owners && !InFlight(id) then Finish(id, ok) else this
      case Unproven(id) => if InFlight(id) then this.(aborted := true) else this
      case Drop(id) =>
        if id !in owners then this
        else if Free(id) || (owners[id].Future? && (!owners[id].polled || !policy.drains)) then Gone(id)
        else if owners[id].Future? then Become(id, Draining(owners[id].Owns()))
        else this
      case Forget(id) =>
        if id in owners && (Free(id) || owners[id].Future?) then Become(id, Leaked(owners[id].Owns())) else this
      case Device =>
        if queue == [] then this else this.(queue := queue[1..])
    }

    /** A poll: submit the next step, find it pending, or move past it. */
    function Resume(id: Id, ok: bool): World
      requires id in owners && owners[id].Future?
    {
      var Future(item, left, polled) := owners[id];
      if !polled then
        if left == 0 then Become(id, Held(item))
        else if !ok then Gone(id)
        else Become(id, Future(item, left, true)).Submit(id, item.Allocs())
      else if InFlight(id) then this
      else if !ok then Gone(id)
      else Become(id, Future(item.Swapped(), if left > 0 then left - 1 else 0, false))
    }

    /** A blocking call whose work has completed. */
    function Finish(id: Id, ok: bool): World
      requires id in owners
    {
      match owners[id]
      case Uploading(a) => if ok then Become(id, Held(Single(a))) else Gone(id)
      case Launching(_, _, _) => Gone(id)
      case Reading(item, released) =>
        if ok && item.Grid? && !released then Become(id, Held(item)) else Gone(id)
      case Advancing(item, left) =>
        if !ok then Gone(id)
        else if left <= 1 then Become(id, Held(item.Swapped()))
        else Become(id, Advancing(item.Swapped(), left - 1)).Submit(id, item.Allocs())
      case Draining(_) => Gone(id)
      case _ => this
    }

    function Run(events: seq<Event>): World
      decreases |events|
    {
      if events == [] then this else Next(events[0]).Run(events[1..])
    }

    /** No submitted, uncompleted work uses storage that was freed, and so may be handed out again. */
    ghost predicate Safe() {
      forall k :: 0 <= k < |queue| ==> queue[k].names <= live
    }

    ghost predicate Apart(i: Id, j: Id)
      requires i in owners && j in owners
    {
      owners[i].Owns() !! owners[j].Owns()
    }

    ghost predicate Kept(i: Id)
      requires i in owners
    {
      owners[i].Sound() && owners[i].Owns() <= live && forall b :: b in owners[i].Borrows() ==> Lends(b)
    }

    /** What keeps the storage of a queued operation: its owner, or what its owner borrows. */
    ghost predicate Guarded(op: Op) {
      && op.job in owners && owners[op.job].MayFly()
      && forall a :: a in op.names ==> Protects(op.job, a)
    }

    ghost predicate Protects(i: Id, a: Alloc)
      requires i in owners
    {
      a in owners[i].Owns() || exists b :: b in owners[i].Borrows() && b in owners && a in owners[b].Owns()
    }

    ghost predicate Inv() {
      && (forall i {:trigger Kept(i)} :: i in owners ==> Kept(i))
      && (forall i, j {:trigger Apart(i, j)} :: i in owners && j in owners && i != j ==> Apart(i, j))
      && (forall k {:trigger Guarded(queue[k])} :: 0 <= k < |queue| ==> Guarded(queue[k]))
    }

    lemma InvIsSafe()
      requires Inv()
      ensures Safe()
    {
      forall k, a | 0 <= k < |queue| && a in queue[k].names ensures a in live {
        var i := queue[k].job;
        assert Guarded(queue[k]) && Kept(i) && Protects(i, a);
        if a !in owners[i].Owns() {
          var b :| b in owners[i].Borrows() && b in owners && a in owners[b].Owns();
          assert Kept(b);
        }
      }
    }

    lemma IdleNotInFlight(id: Id)
      requires Inv() && id in owners && !owners[id].MayFly()
      ensures !InFlight(id)
    {
      forall k | 0 <= k < |queue| ensures queue[k].job != id { assert Guarded(queue[k]); }
    }

    lemma OnlyHeldBorrowed(id: Id)
      requires Inv() && (id !in owners || !owners[id].Held?)
      ensures !Borrowed(id)
    {
      forall f | f in owners ensures id !in owners[f].Borrows() { assert Kept(f); }
    }

    /** An owner may change as long as nothing borrows it and its work in flight stays covered. */
    lemma BecomeInv(id: Id, o: Owner)
      requires Inv() && id in owners && !Borrowed(id) && !o.Launching?
      requires o.Owns() <= owners[id].Owns() && o.Sound()
      requires !InFlight(id) || (o.MayFly() && o.Owns() == owners[id].Owns() && !owners[id].Launching?)
      ensures Become(id, o).Inv()
    {
      var w := Become(id, o);
      assert Kept(id);
      forall i | i in w.owners ensures w.Kept(i) {
        assert Kept(i);
        forall b | b in w.owners[i].Borrows() ensures w.Lends(b) { assert Lends(b) && b != id; }
      }
      forall i, j | i in w.owners && j in w.owners && i != j ensures w.Apart(i, j) { assert Apart(i, j); }
      forall k | 0 <= k < |queue| ensures w.Guarded(queue[k]) {
        assert Guarded(queue[k]);
        StillGuarded(w, queue[k]);
      }
    }

    /** An operation stays guarded while its owner, and what that borrows, keep what they own. */
    lemma StillGuarded(w: World, op: Op)
      requires Guarded(op) && op.job in w.owners && w.owners[op.job].MayFly()
      requires owners[op.job].Owns() <= w.owners[op.job].Owns()
      requires owners[op.job].Borrows() <= w.owners[op.job].Borrows()
      requires forall b :: b in owners[op.job].Borrows() && b in owners ==>
                 b in w.owners && owners[b].Owns() <= w.owners[b].Owns()
      ensures w.Guarded(op)
    {
      forall a | a in op.names ensures w.Protects(op.job, a) { assert Protects(op.job, a); }
    }

    lemma SubmitInv(id: Id, names: set<Alloc>)
      requires Inv() && id in owners && owners[id].MayFly()
      requires forall a :: a in names ==> Protects(id, a)
      ensures Submit(id, names).Inv()
    {
      var w := Submit(id, names);
      forall i | i in w.owners ensures w.Kept(i) { assert Kept(i); }
      forall i, j | i in w.owners && j in w.owners && i != j ensures w.Apart(i, j) { assert Apart(i, j); }
      forall k | 0 <= k < |w.queue| ensures w.Guarded(w.queue[k]) {
        if k < |queue| {
          assert Guarded(queue[k]);
          StillGuarded(w, queue[k]);
        } else {
          forall a | a in names ensures w.Protects(id, a) { assert Protects(id, a); }
        }
      }
    }

    lemma GoneInv(id: Id)
      requires Inv() && id in owners && !InFlight(id) && !Borrowed(id)
      ensures Gone(id).Inv()
    {
      var w := Gone(id);
      forall i | i in w.owners ensures w.Kept(i) {
        assert Kept(i) && Apart(i, id);
        forall b | b in w.owners[i].Borrows() ensures w.Lends(b) { assert Lends(b) && b != id; }
      }
      forall i, j | i in w.owners && j in w.owners && i != j ensures w.Apart(i, j) { assert Apart(i, j); }
      forall k | 0 <= k < |queue| ensures w.Guarded(queue[k]) {
        assert Guarded(queue[k]) && Kept(queue[k].job);
        StillGuarded(w, queue[k]);
      }
    }

    /** A new owner, of storage not handed out to anyone. */
    lemma AddInv(id: Id, o: Owner)
      requires Inv() && id !in owners && o.Sound() && o.Owns() !! live && forall b :: b in o.Borrows() ==> Lends(b)
      ensures this.(live := live + o.Owns()).Become(id, o).Inv()
    {
      var w := this.(live := live + o.Owns()).Become(id, o);
      forall i | i in w.owners ensures w.Kept(i) {
        if i != id { assert Kept(i); }
        forall b | b in w.owners[i].Borrows() ensures w.Lends(b) { assert Lends(b); }
      }
      forall i, j | i in w.owners && j in w.owners && i != j ensures w.Apart(i, j) {
        if i != id { assert Kept(i); }
        if j != id { assert Kept(j); }
        if i != id && j != id { assert Apart(i, j); }
      }
      forall k | 0 <= k < |queue| ensures w.Guarded(queue[k]) {
        assert Guarded(queue[k]);
        StillGuarded(w, queue[k]);
      }
    }

    lemma MergeInv(id: Id, s: Id, r: Id, o: Id, owner: Owner)
      requires Inv() && CanMerge(id, s, r, o) && owner.Sound() && !owner.Launching?
      requires owner.Owns() == owners[s].Owns() + owners[r].Owns() + owners[o].Owns()
      ensures Merge(id, s, r, o, owner).Inv()
    {
      var w := Merge(id, s, r, o, owner);
      assert Kept(s) && Kept(r) && Kept(o);
      forall i | i in w.owners ensures w.Kept(i) {
        if i != id { assert Kept(i); }
        forall b | b in w.owners[i].Borrows() ensures w.Lends(b) { assert Lends(b) && b !in {s, r, o}; }
      }
      forall i, j | i in w.owners && j in w.owners && i != j ensures w.Apart(i, j) {
        var x := if i == id then j else i;
        if i != id && j != id { assert Apart(i, j); } else { assert Apart(x, s) && Apart(x, r) && Apart(x, o); }
      }
      forall k | 0 <= k < |queue| ensures w.Guarded(queue[k]) {
        assert Guarded(queue[k]) && Kept(queue[k].job);
        StillGuarded(w, queue[k]);
      }
    }

    lemma SplitInv(id: Id, s: Id, r: Id, o: Id)
      requires Inv() && Free(id) && owners[id].item.Bundle? && !aborted
      requires {s, r, o} * owners.Keys == {} && s != r && s != o && r != o
      ensures Next(Unpack(id, s, r, o)).Inv()
    {
      var w := Next(Unpack(id, s, r, o));
      assert Kept(id);
      assert w.owners[s].Owns() + w.owners[r].Owns() + w.owners[o].Owns() == owners[id].Owns();
      forall i | i in w.owners ensures w.Kept(i) {
        if i in owners { assert Kept(i); }
        forall b | b in w.owners[i].Borrows() ensures w.Lends(b) { assert Lends(b) && b != id; }
      }
      forall i, j | i in w.owners && j in w.owners && i != j ensures w.Apart(i, j) {
        if i in owners && j in owners { assert Apart(i, j); }
        if i in owners { assert Apart(i, id); }
        if j in owners { assert Apart(id, j); }
      }
      IdleNotInFlight(id);
      forall k | 0 <= k < |queue| ensures w.Guarded(queue[k]) {
        assert Guarded(queue[k]) && Kept(queue[k].job);
        StillGuarded(w, queue[k]);
      }
    }

    lemma NewOwnerInv(e: Event)
      requires Inv() && !aborted && (e.Upload? || e.Launch? || e.Assemble? || e.StepAsync? || e.Unpack?)
      ensures Next(e).Inv()
    {
      match e
      case Upload(id, a) =>
        if id !in owners && a !in live {
          AddInv(id, Uploading(a));
          this.(live := live + {a}).Become(id, Uploading(a)).SubmitInv(id, {a});
        }
      case Launch(id, source, rhs, output) =>
        var o := Launching(source, rhs, output);
        if Next(e) != this {
          AddInv(id, o);
          var w := Become(id, o);
          assert w == this.(live := live + o.Owns()).Become(id, o);
          var names :=
            owners[source].Owns() + owners[output].Owns() + (if rhs.Some? then owners[rhs.value].Owns() else {});
          assert forall b :: b in o.Borrows() ==> w.owners[b] == owners[b];
          w.SubmitInv(id, names);
        }
      case Assemble(id, c, n, r) =>
        if CanMerge(id, c, n, r) {
          assert Apart(c, n) && Apart(c, r) && Apart(n, r);
          MergeInv(id, c, n, r, Held(Grid(owners[c].item.alloc, owners[n].item.alloc, owners[r].item.alloc)));
        }
      case StepAsync(id, s, r, o) =>
        if CanMerge(id, s, r, o) {
          assert Apart(s, r) && Apart(s, o) && Apart(r, o);
          MergeInv(id, s, r, o,
                   Future(Bundle(owners[s].item.alloc, owners[r].item.alloc, owners[o].item.alloc), 1, false));
        }
      case Unpack(id, s, r, o) =>
        if Next(e) != this { SplitInv(id, s, r, o); }
    }

    /** A change of owner followed by a submission of work on what it owns. */
    lemma BecomeSubmitInv(id: Id, o: Owner, names: set<Alloc>)
      requires Inv() && id in owners && !Borrowed(id) && !InFlight(id) && !o.Launching? && o.MayFly()
      requires o.Owns() <= owners[id].Owns() && o.Sound() && names <= o.Owns()
      ensures Become(id, o).Submit(id, names).Inv()
    {
      BecomeInv(id, o);
      Become(id, o).SubmitInv(id, names);
    }

    lemma CallInv(e: Event)
      requires Inv() && !aborted && policy.retained && (e.Read? || e.ExecuteReturns? || e.Advance? || e.AdvanceAsync?)
      ensures Next(e).Inv()
    {
      if Next(e) != this {
        var item := owners[e.id].item;
        assert Kept(e.id);
        IdleNotInFlight(e.id);
        match e
        case Read(id) => BecomeSubmitInv(id, Reading(item, false), item.Copied());
        case Advance(id, steps) => BecomeSubmitInv(id, Advancing(item, steps), item.Allocs());
        case AdvanceAsync(id, steps) => BecomeInv(id, Future(item, steps, false));
      }
    }

    lemma ResumeInv(id: Id, ok: bool)
      requires Inv() && id in owners && owners[id].Future?
      ensures Resume(id, ok).Inv()
    {
      var Future(item, left, polled) := owners[id];
      assert Kept(id);
      OnlyHeldBorrowed(id);
      if !polled { IdleNotInFlight(id); }
      if InFlight(id) {
      } else if !ok && (polled || left > 0) {
        GoneInv(id);
      } else if polled {
        BecomeInv(id, Future(item.Swapped(), if left > 0 then left - 1 else 0, false));
      } else if left == 0 {
        BecomeInv(id, Held(item));
      } else {
        BecomeSubmitInv(id, Future(item, left, true), item.Allocs());
      }
    }

    lemma FinishInv(id: Id, ok: bool)
      requires Inv() && id in owners && !InFlight(id)
      ensures Finish(id, ok).Inv()
    {
      assert Kept(id);
      if !owners[id].Held? { OnlyHeldBorrowed(id); }
      match owners[id]
      case Uploading(a) => if ok { BecomeInv(id, Held(Single(a))); } else { GoneInv(id); }
      case Launching(_, _, _) => GoneInv(id);
      case Reading(item, released) =>
        if ok && item.Grid? && !released { BecomeInv(id, Held(item)); } else { GoneInv(id); }
      case Advancing(item, left) =>
        if !ok { GoneInv(id); }
        else if left <= 1 { BecomeInv(id, Held(item.Swapped())); }
        else { BecomeSubmitInv(id, Advancing(item.Swapped(), left - 1), item.Allocs()); }
      case Draining(_) => GoneInv(id);
      case _ =>
    }

    lemma EndInv(e: Event)
      requires Inv() && !aborted && policy.drains && (e.Drop? || e.Forget?)
      ensures Next(e).Inv()
    {
      if Next(e) != this {
        var id := e.id;
        assert Kept(id);
        if !owners[id].Held? { OnlyHeldBorrowed(id); }
        if !owners[id].MayFly() { IdleNotInFlight(id); }
        if e.Forget? {
          BecomeInv(id, Leaked(owners[id].Owns()));
        } else if owners[id].MayFly() {
          BecomeInv(id, Draining(owners[id].Owns()));
        } else {
          GoneInv(id);
        }
      }
    }

    lemma DeviceInv()
      requires Inv() && !aborted
      ensures Next(Device).Inv()
    {
      var w := Next(Device);
      forall i | i in w.owners ensures w.Kept(i) { assert Kept(i); }
      forall i, j | i in w.owners && j in w.owners && i != j ensures w.Apart(i, j) { assert Apart(i, j); }
      forall k | 0 <= k < |w.queue| ensures w.Guarded(w.queue[k]) {
        assert Guarded(queue[k + 1]);
        StillGuarded(w, queue[k + 1]);
      }
    }

    lemma NextInv(e: Event)
      requires Inv() && policy.retained && policy.drains
      ensures Next(e).Inv() && Next(e).policy == policy
    {
      if aborted { return; }
      match e
      case Poll(id, ok) => if id in owners && owners[id].Future? { ResumeInv(id, ok); }
      case Return(id, ok) => if id in owners && !InFlight(id) { FinishInv(id, ok); }
      case Unproven(id) => AbortInv();
      case Device => DeviceInv();
      case Drop(_) => EndInv(e);
      case Forget(_) => EndInv(e);
      case Read(_) => CallInv(e);
      case ExecuteReturns(_) => CallInv(e);
      case Advance(_, _) => CallInv(e);
      case AdvanceAsync(_, _) => CallInv(e);
      case _ => NewOwnerInv(e);
    }

    lemma AbortInv()
      requires Inv()
      ensures this.(aborted := true).Inv()
    {
      var w := this.(aborted := true);
      forall i | i in w.owners ensures w.Kept(i) { assert Kept(i); }
      forall i, j | i in w.owners && j in w.owners && i != j ensures w.Apart(i, j) { assert Apart(i, j); }
      forall k | 0 <= k < |queue| ensures w.Guarded(queue[k]) {
        assert Guarded(queue[k]);
        StillGuarded(w, queue[k]);
      }
    }

    lemma {:induction false} RunInv(events: seq<Event>)
      requires Inv() && policy.retained && policy.drains
      ensures Run(events).Inv()
      decreases |events|
    {
      if events != [] {
        NextInv(events[0]);
        Next(events[0]).RunInv(events[1..]);
      }
    }
  }

  function Start(policy: Policy): World { World(policy, {}, map[], [], false) }

  /**
   * Over every sequence of public calls, polls, drops and completions: storage that submitted,
   * uncompleted work uses is never freed, and never handed out again. This holds of exactly one
   * policy: a readback retains its storage, and dropping a future in flight drains.
   */
  lemma LifetimesAreSafe(policy: Policy)
    ensures (forall events :: Start(policy).Run(events).Safe()) <==> policy.retained && policy.drains
  {
    if policy.retained && policy.drains {
      forall events ensures Start(policy).Run(events).Safe() {
        Start(policy).RunInv(events);
        Start(policy).Run(events).InvIsSafe();
      }
    } else if !policy.retained {
      UnretainedReadback(policy);
      assert !Start(policy).Run(Fetch(0, 7) + [Read(0)] + [ExecuteReturns(0)]).Safe();
    } else {
      UndrainedDrop(policy);
      assert !Start(policy).Run(ThreeBuffers() + [StepAsync(3, 0, 1, 2)] + [Poll(3, true)] + [Drop(3)]).Safe();
    }
  }

  /** In particular no allocation ever receives an address that work in the stream still uses. */
  lemma NeverReusedInUse(policy: Policy, events: seq<Event>, id: Id, a: Alloc, k: nat)
    requires policy.retained && policy.drains
    requires var w := Start(policy).Run(events); k < |w.queue| && w.Next(Upload(id, a)) != w
    ensures a !in Start(policy).Run(events).queue[k].names
  {
    LifetimesAreSafe(policy);
    assert Start(policy).Run(events).Safe();
  }

  function Fetch(id: Id, a: Alloc): seq<Event> { [Upload(id, a), Device, Return(id, true)] }

  /** An upload run alone leaves the caller holding a fresh buffer. */
  lemma FetchHolds(w: World, id: Id, a: Alloc)
    requires id !in w.owners && a !in w.live && w.queue == [] && !w.aborted
    ensures w.Run(Fetch(id, a)) == w.(live := w.live + {a}, owners := w.owners[id := Held(Single(a))])
  {
    var first := w.Next(Upload(id, a));
    assert first == w.(live := w.live + {a}, owners := w.owners[id := Uploading(a)], queue := [Op(id, {a})]);
    var second := first.Next(Device);
    assert second == first.(queue := []);
    var third := second.Next(Return(id, true));
    assert third.owners == w.owners[id := Held(Single(a))];
    assert Fetch(id, a)[1..] == [Device, Return(id, true)];
    assert w.Run(Fetch(id, a)) == first.Run([Device, Return(id, true)]);
    assert [Device, Return(id, true)][1..] == [Return(id, true)];
    assert first.Run([Device, Return(id, true)]) == second.Run([Return(id, true)]);
    assert second.Run([Return(id, true)]) == third;
  }

  lemma {:induction false} RunAppend(w: World, first: seq<Event>, second: seq<Event>)
    ensures w.Run(first + second) == w.Run(first).Run(second)
    decreases |first|
  {
    if first == [] {
      assert first + second == second;
    } else {
      assert (first + second)[1..] == first[1..] + second;
      RunAppend(w.Next(first[0]), first[1..], second);
    }
  }

  lemma RunNext(w: World, events: seq<Event>, e: Event)
    ensures w.Run(events + [e]) == w.Run(events).Next(e)
  {
    RunAppend(w, events, [e]);
  }

  /** Without the retained owner, the copy of a single field still runs when its storage is handed out again. */
  lemma UnretainedReadback(policy: Policy)
    requires !policy.retained
    ensures var w := Start(policy).Run(Fetch(0, 7) + [Read(0)] + [ExecuteReturns(0)]);
            !w.Safe() && w.queue == [Op(0, {7})] && w.Next(Upload(1, 7)).owners == w.owners[1 := Uploading(7)]
  {
    FetchHolds(Start(policy), 0, 7);
    RunNext(Start(policy), Fetch(0, 7), Read(0));
    RunNext(Start(policy), Fetch(0, 7) + [Read(0)], ExecuteReturns(0));
    ReleasesEarly(Start(policy).Run(Fetch(0, 7)));
  }

  lemma ReleasesEarly(held: World)
    requires held == World(held.policy, {7}, map[0 := Held(Single(7))], [], false) && !held.policy.retained
    ensures var w := held.Next(Read(0)).Next(ExecuteReturns(0));
            !w.Safe() && w.queue == [Op(0, {7})] && w.Next(Upload(1, 7)).owners == w.owners[1 := Uploading(7)]
  {
    assert held.Free(0);
    var copying := held.Next(Read(0));
    assert copying == World(held.policy, {7}, map[0 := Reading(Single(7), false)], [Op(0, {7})], false);
    var dropped := copying.Next(ExecuteReturns(0));
    assert dropped == World(held.policy, {}, map[0 := Reading(Single(7), true)], [Op(0, {7})], false);
    assert !(dropped.queue[0].names <= dropped.live) by { assert 7 in dropped.queue[0].names; }
  }

  /** If dropping a future in flight did not wait, its kernel would outlive its buffers. */
  lemma UndrainedDrop(policy: Policy)
    requires !policy.drains
    ensures var w := Start(policy).Run(ThreeBuffers() + [StepAsync(3, 0, 1, 2)] + [Poll(3, true)] + [Drop(3)]);
            !w.Safe() && w.queue == [Op(3, {7, 8, 9})]
  {
    var start, events := Start(policy), ThreeBuffers();
    ThreeHeld(policy);
    RunNext(start, events, StepAsync(3, 0, 1, 2));
    RunNext(start, events + [StepAsync(3, 0, 1, 2)], Poll(3, true));
    RunNext(start, events + [StepAsync(3, 0, 1, 2)] + [Poll(3, true)], Drop(3));
    DropsInFlight(start.Run(events));
  }

  lemma DropsInFlight(held: World)
    requires held.live == {7, 8, 9} && held.queue == [] && !held.aborted
    requires held.owners == map[0 := Held(Single(7)), 1 := Held(Single(8)), 2 := Held(Single(9))]
    requires !held.policy.drains
    ensures var w := held.Next(StepAsync(3, 0, 1, 2)).Next(Poll(3, true)).Next(Drop(3));
            !w.Safe() && w.queue == [Op(3, {7, 8, 9})]
  {
    var future := held.Next(StepAsync(3, 0, 1, 2));
    assert future == World(held.policy, {7, 8, 9}, map[3 := Future(Bundle(7, 8, 9), 1, false)], [], false) by {
      assert held.CanMerge(3, 0, 1, 2);
    }
    PolledDrops(future);
  }

  lemma PolledDrops(future: World)
    requires future == World(future.policy, {7, 8, 9}, map[3 := Future(Bundle(7, 8, 9), 1, false)], [], false)
    requires !future.policy.drains
    ensures var w := future.Next(Poll(3, true)).Next(Drop(3));
            !w.Safe() && w.queue == [Op(3, {7, 8, 9})]
  {
    var polled := future.Next(Poll(3, true));
    assert polled ==
      World(future.policy, {7, 8, 9}, map[3 := Future(Bundle(7, 8, 9), 1, true)], [Op(3, {7, 8, 9})], false);
    var dropped := polled.Next(Drop(3));
    assert dropped == World(future.policy, {}, map[], [Op(3, {7, 8, 9})], false);
    assert !(dropped.queue[0].names <= dropped.live) by { assert 7 in dropped.queue[0].names; }
  }

  function ThreeBuffers(): seq<Event> { Fetch(0, 7) + Fetch(1, 8) + Fetch(2, 9) }

  lemma TwoHeld(policy: Policy)
    ensures Start(policy).Run(Fetch(0, 7) + Fetch(1, 8)) ==
            World(policy, {7, 8}, map[0 := Held(Single(7)), 1 := Held(Single(8))], [], false)
  {
    var one := World(policy, {7}, map[0 := Held(Single(7))], [], false);
    FetchHolds(Start(policy), 0, 7);
    FetchHolds(one, 1, 8);
    RunAppend(Start(policy), Fetch(0, 7), Fetch(1, 8));
    assert Start(policy).Run(Fetch(0, 7)) == one;
  }

  lemma ThreeHeld(policy: Policy)
    ensures Start(policy).Run(ThreeBuffers()) ==
            World(policy, {7, 8, 9}, map[0 := Held(Single(7)), 1 := Held(Single(8)), 2 := Held(Single(9))], [], false)
  {
    TwoHeld(policy);
    FetchHolds(Start(policy).Run(Fetch(0, 7) + Fetch(1, 8)), 2, 9);
    RunAppend(Start(policy), Fetch(0, 7) + Fetch(1, 8), Fetch(2, 9));
  }
}
