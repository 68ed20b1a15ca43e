/**
 * The executor's calls are runs of the lifetime machine: Sessions and AsyncSteps refine Lifetime.
 *
 * The machine names a buffer by its allocation. A call with no other thread beside it is the run of
 * its own points, the device working between them.
 */
module LifetimeTraces {
  import opened Grids
  import opened Errors
  import opened Shape
  import opened Stencil
  import opened Sessions
  import opened AsyncSteps
  import L = Lifetime

  /** What the library does: a readback retains its storage, and dropping a future in flight drains. */
  const LIBRARY := L.Policy(true, true)

  /** Single buffers, held by the caller. */
  ghost function Singles(names: set<Alloc>): map<L.Id, L.Owner> {
    map a | a in names :: L.Held(L.Single(a))
  }

  /** The session between calls: the caller holds each live buffer. */
  ghost function Buffers<V>(session: Session<V>): L.World
    reads session, session.device
  {
    L.World(LIBRARY, session.device.mem.Keys, Singles(session.owners.Keys), [], false)
  }

  /** The same with one future that owns three of the buffers. */
  ghost function WithFuture<V>(session: Session<V>, f: L.Id, future: StepFuture<V>): L.World
    reads session, session.device, future
  {
    Owned(Buffers(session), f, BundleOf(future), future.phase.InFlight?)
  }

  /** Three buffers move into a future, whose kernel is in the stream if it was submitted. */
  ghost function Owned(w: L.World, f: L.Id, item: L.Item, polled: bool): L.World {
    w.(owners := (w.owners - item.Allocs())[f := L.Future(item, 1, polled)],
       queue := if polled then [L.Op(f, item.Allocs())] else [])
  }

  ghost function BundleOf<V>(future: StepFuture<V>): L.Item {
    L.Bundle(future.source.tensor.alloc, future.rhs.tensor.alloc, future.output.tensor.alloc)
  }

  /** Everything the machine proves of its runs holds from here on. */
  lemma BuffersInv<V>(session: Session<V>, events: seq<L.Event>)
    requires session.Valid()
    ensures Buffers(session).Inv() && Buffers(session).Run(events).Safe()
  {
    var w := Buffers(session);
    forall i | i in w.owners ensures w.Kept(i) {}
    forall i, j | i in w.owners && j in w.owners && i != j ensures w.Apart(i, j) {}
    w.RunInv(events);
    w.Run(events).InvIsSafe();
  }

  lemma FutureInv<V>(session: Session<V>, f: L.Id, future: StepFuture<V>, events: seq<L.Event>)
    requires future.session == session && future.Valid() && f !in session.owners
    ensures WithFuture(session, f, future).Inv() && WithFuture(session, f, future).Run(events).Safe()
  {
    var w := WithFuture(session, f, future);
    forall i | i in w.owners ensures w.Kept(i) {}
    forall i, j | i in w.owners && j in w.owners && i != j ensures w.Apart(i, j) {}
    forall k | 0 <= k < |w.queue| ensures w.Guarded(w.queue[k]) {
      forall a | a in w.queue[k].names ensures w.Protects(f, a) {}
    }
    w.RunInv(events);
    w.Run(events).InvIsSafe();
  }

  ghost function AllHeld(names: set<Alloc>): L.World { L.World(LIBRARY, names, Singles(names), [], false) }

  // Runs of a few events.

  lemma RunOne(w: L.World, a: L.Event)
    ensures w.Run([a]) == w.Next(a)
  {
  }

  lemma RunThree(w: L.World, a: L.Event, b: L.Event, c: L.Event)
    ensures w.Run([a, b, c]) == w.Next(a).Next(b).Next(c)
  {
    assert [a, b, c][1..] == [b, c] && [b, c][1..] == [c];
    assert w.Run([a, b, c]) == w.Next(a).Run([b, c]);
    RunOne(w.Next(a).Next(b), c);
  }

  lemma RunFive(w: L.World, a: L.Event, b: L.Event, c: L.Event, d: L.Event, e: L.Event)
    ensures w.Run([a, b, c, d, e]) == w.Next(a).Next(b).Next(c).Next(d).Next(e)
  {
    assert [a, b, c, d, e][1..] == [b, c, d, e] && [b, c, d, e][1..] == [c, d, e];
    RunThree(w.Next(a).Next(b), c, d, e);
  }

  /** An upload that fails leaves nothing behind. */
  lemma UploadRun(w: L.World, a: Alloc, ok: bool)
    requires a !in w.owners && a !in w.live && w.queue == [] && !w.aborted
    ensures w.Run([L.Upload(a, a), L.Device, L.Return(a, ok)]) ==
            if ok then w.(live := w.live + {a}, owners := w.owners[a := L.Held(L.Single(a))]) else w
  {
    RunThree(w, L.Upload(a, a), L.Device, L.Return(a, ok));
    var second := w.(live := w.live + {a}, owners := w.owners[a := L.Uploading(a)]);
    assert w.Next(L.Upload(a, a)).Next(L.Device) == second;
    if !ok { assert second.Gone(a) == w; }
  }

  /** A launch leaves the owners and the storage as they were. */
  lemma LaunchRun(w: L.World, f: L.Id, s: L.Id, r: Option<L.Id>, o: L.Id, ok: bool)
    requires f !in w.owners && w.queue == [] && !w.aborted
    ensures w.Run([L.Launch(f, s, r, o), L.Device, L.Return(f, ok)]) == w
  {
    RunThree(w, L.Launch(f, s, r, o), L.Device, L.Return(f, ok));
    var first := w.Next(L.Launch(f, s, r, o));
    if first != w {
      var second := w.Become(f, L.Launching(s, r, o));
      assert first.Next(L.Device) == second;
      assert second.Gone(f) == w;
    }
  }

  lemma LaunchTaken(names: set<Alloc>, f: L.Id, s: Alloc, r: Alloc, o: Alloc)
    requires f !in names && {s, r, o} <= names && s != o && r != o
    ensures AllHeld(names).Next(L.Launch(f, s, Some(r), o)).queue == [L.Op(f, {s, r, o})]
  {
    assert {s} + {o} + {r} == {s, r, o};
  }

  /** A readback consumes its buffer, whatever it returns. */
  lemma ReadRun(w: L.World, a: Alloc, ok: bool)
    requires w.FreeSingle(a) && w.owners[a].item.alloc == a && w.queue == [] && !w.aborted
    ensures w.Run([L.Read(a), L.Device, L.Return(a, ok)]) == w.Gone(a)
  {
    RunThree(w, L.Read(a), L.Device, L.Return(a, ok));
    var second := w.Become(a, L.Reading(L.Single(a), false));
    assert w.Next(L.Read(a)).Next(L.Device) == second;
    assert second.Gone(a) == w.Gone(a);
  }

  /** A readback that is not begun, and any other drop. */
  lemma DropRun(w: L.World, a: Alloc)
    requires w.FreeSingle(a) && !w.aborted
    ensures w.Run([L.Drop(a)]) == w.Gone(a)
  {
    RunOne(w, L.Drop(a));
  }

  /** A future of one step, and its kernel in the stream if it was submitted. */
  ghost predicate Pends(w: L.World, f: L.Id, item: L.Item, polled: bool) {
    && w.policy == LIBRARY && !w.aborted && f in w.owners && w.owners[f] == L.Future(item, 1, polled)
    && item.Bundle? && w.queue == if polled then [L.Op(f, item.Allocs())] else []
  }

  /** The future and its storage are gone, and the stream is empty. */
  ghost function Without(w: L.World, f: L.Id, item: L.Item): L.World {
    w.(live := w.live - item.Allocs(), owners := w.owners - {f}, queue := [])
  }

  lemma PollRun(w: L.World, f: L.Id, item: L.Item, polled: bool)
    requires Pends(w, f, item, polled)
    ensures w.Run([L.Poll(f, true)]) ==
            w.(owners := w.owners[f := L.Future(item, 1, true)], queue := [L.Op(f, item.Allocs())])
    ensures Pends(w.Run([L.Poll(f, true)]), f, item, true)
  {
    RunOne(w, L.Poll(f, true));
    if polled {
      assert w.queue[0].job == f;
      assert w.owners == w.owners[f := L.Future(item, 1, true)];
    }
  }

  lemma UnboundRun(w: L.World, f: L.Id, item: L.Item)
    requires Pends(w, f, item, false)
    ensures w.Run([L.Poll(f, false)]) == Without(w, f, item)
  {
    RunOne(w, L.Poll(f, false));
  }

  lemma FailRun(w: L.World, f: L.Id, item: L.Item, polled: bool)
    requires Pends(w, f, item, polled)
    ensures w.Run([L.Poll(f, true), L.Device, L.Poll(f, false)]) == Without(w, f, item)
  {
    RunThree(w, L.Poll(f, true), L.Device, L.Poll(f, false));
    PollRun(w, f, item, polled);
    RunOne(w, L.Poll(f, true));
    assert w.Next(L.Poll(f, true)).Next(L.Device).Next(L.Poll(f, false)).owners == w.owners - {f};
  }

  lemma DropFutureRun(w: L.World, f: L.Id, item: L.Item, polled: bool)
    requires Pends(w, f, item, polled)
    ensures w.Run([L.Drop(f), L.Device, L.Return(f, true)]) == Without(w, f, item)
  {
    RunThree(w, L.Drop(f), L.Device, L.Return(f, true));
    if polled {
      var second := w.(queue := []).Become(f, L.Draining(item.Allocs()));
      assert w.Next(L.Drop(f)).Next(L.Device) == second;
      assert second.Next(L.Return(f, true)) == second.Gone(f) == Without(w, f, item);
    }
  }

  /** The future resolves, and its caller takes the three buffers apart. */
  ghost function Resolves(f: L.Id, item: L.Item): seq<L.Event>
    requires item.Bundle?
  {
    [L.Poll(f, true), L.Device, L.Poll(f, true), L.Poll(f, true), L.Unpack(f, item.source, item.right, item.output)]
  }

  lemma ResolveRun(w: L.World, f: L.Id, item: L.Item, polled: bool)
    requires Pends(w, f, item, polled) && item.Distinct() && item.Allocs() !! w.owners.Keys && !w.Borrowed(f)
    ensures w.Run(Resolves(f, item)) ==
            w.(owners := (w.owners - {f})[item.source := L.Held(L.Single(item.source))]
                         [item.right := L.Held(L.Single(item.right))][item.output := L.Held(L.Single(item.output))],
               queue := [])
  {
    var Bundle(s, r, o) := item;
    RunFive(w, L.Poll(f, true), L.Device, L.Poll(f, true), L.Poll(f, true), L.Unpack(f, s, r, o));
    PollRun(w, f, item, polled);
    RunOne(w, L.Poll(f, true));
    var idle := w.Next(L.Poll(f, true)).Next(L.Device);
    assert idle == w.(queue := []).Become(f, L.Future(item, 1, true));
    var held := idle.Next(L.Poll(f, true)).Next(L.Poll(f, true));
    assert held == w.(queue := []).Become(f, L.Held(item));
    assert !held.Borrowed(f);
    assert held.owners - {f} == w.owners - {f};
  }

  /** Dropping an argument, if it is of this session. */
  ghost function Drops<V>(session: Session<V>, b: Buffer<V>): seq<L.Event> {
    if b.session == session then [L.Drop(b.tensor.alloc)] else []
  }

  lemma AllHeldDrop<V>(names: set<Alloc>, session: Session<V>, b: Buffer<V>)
    ensures AllHeld(names).Run(Drops(session, b)) == AllHeld(names - Mine(session, b))
  {
    if b.session == session {
      var a: Alloc := b.tensor.alloc;
      RunOne(AllHeld(names), L.Drop(a));
      if a in names {
        assert AllHeld(names).Free(a);
      } else {
        assert names - {a} == names;
      }
    }
  }

  lemma DropsRun<V>(names: set<Alloc>, session: Session<V>, first: Buffer<V>, second: Buffer<V>, third: Buffer<V>)
    ensures AllHeld(names).Run(Drops(session, first) + Drops(session, second) + Drops(session, third)) ==
            AllHeld(names - Mine(session, first) - Mine(session, second) - Mine(session, third))
  {
    L.RunAppend(AllHeld(names), Drops(session, first), Drops(session, second));
    L.RunAppend(AllHeld(names), Drops(session, first) + Drops(session, second), Drops(session, third));
    AllHeldDrop(names, session, first);
    AllHeldDrop(names - Mine(session, first), session, second);
    AllHeldDrop(names - Mine(session, first) - Mine(session, second), session, third);
  }

  lemma OwnedWithout(names: set<Alloc>, f: L.Id, item: L.Item, polled: bool)
    requires f !in names
    ensures Without(Owned(AllHeld(names), f, item, polled), f, item) == AllHeld(names - item.Allocs())
  {
    assert Without(Owned(AllHeld(names), f, item, polled), f, item).owners == Singles(names - item.Allocs());
  }

  lemma OwnedResolves(names: set<Alloc>, f: L.Id, item: L.Item, polled: bool)
    requires f !in names && item.Bundle? && item.Distinct() && item.Allocs() <= names
    ensures Owned(AllHeld(names), f, item, polled).Run(Resolves(f, item)) == AllHeld(names)
  {
    ResolveRun(Owned(AllHeld(names), f, item, polled), f, item, polled);
    assert Owned(AllHeld(names), f, item, polled).Run(Resolves(f, item)).owners == Singles(names);
  }

  /** What the runs of a poll leave of a session with one future. */
  lemma PollRuns(names: set<Alloc>, f: L.Id, item: L.Item, polled: bool)
    requires f !in names && item.Bundle? && item.Distinct() && item.Allocs() <= names
    ensures var w := Owned(AllHeld(names), f, item, polled);
            && w.Run([L.Poll(f, true)]) == Owned(AllHeld(names), f, item, true)
            && w.Run([L.Poll(f, true), L.Device, L.Poll(f, false)]) == AllHeld(names - item.Allocs())
            && (!polled ==> w.Run([L.Poll(f, false)]) == AllHeld(names - item.Allocs()))
            && w.Run(Resolves(f, item)) == AllHeld(names)
  {
    var w := Owned(AllHeld(names), f, item, polled);
    PollRun(w, f, item, polled);
    FailRun(w, f, item, polled);
    if !polled { UnboundRun(w, f, item); }
    OwnedWithout(names, f, item, polled);
    OwnedResolves(names, f, item, polled);
  }

  // The calls.

  /** An upload, whatever its outcome. */
  method UploadTraced<V>(session: Session<V>, s: Shape2D, data: seq<V>, haloed: bool, fate: UploadFate)
    returns (r: Result<Buffer<V>>)
    requires session.Valid() && s.Valid() && fate.alloc !in session.device.mem
    modifies session, session.device, session.budget
    ensures Buffers(session) ==
            old(Buffers(session)).Run([L.Upload(fate.alloc, fate.alloc), L.Device, L.Return(fate.alloc, r.Ok?)])
  {
    ghost var w := Buffers(session);
    r := session.Upload(s, data, haloed, fate);
    UploadRun(w, fate.alloc, r.Ok?);
  }

  /** Storage is borrowed for the launch of step_into, f, and nothing else. */
  method StepIntoTraced<V>(session: Session<V>, ghost f: L.Id, ops: Arith<V>, source: Buffer<V>, rhs: Buffer<V>,
                           output: Buffer<V>, p: JacobiParams<V>, fate: CallFate)
    returns (r: Result<()>)
    requires session.Valid() && session.Borrowed(source, Some(rhs), Some(output)) && f !in session.owners
    modifies session.device, session.budget, output.completion
    ensures Buffers(session) ==
            old(Buffers(session)).Run([L.Launch(f, source.tensor.alloc, Some(rhs.tensor.alloc), output.tensor.alloc),
                                       L.Device, L.Return(f, r.Ok?)])
    ensures old(session.Accepts(source, Some(rhs), Some(output))) ==>
              old(Buffers(session)).Next(L.Launch(f, source.tensor.alloc, Some(rhs.tensor.alloc), output.tensor.alloc))
                .queue == [L.Op(f, {source.tensor.alloc, rhs.tensor.alloc, output.tensor.alloc})]
  {
    ghost var w := Buffers(session);
    if session.Accepts(source, Some(rhs), Some(output)) {
      LaunchTaken(session.owners.Keys, f, source.tensor.alloc, rhs.tensor.alloc, output.tensor.alloc);
    }
    r := session.StepInto(ops, source, rhs, output, p, fate);
    LaunchRun(w, f, source.tensor.alloc, Some(rhs.tensor.alloc), output.tensor.alloc, r.Ok?);
  }

  /** into_host: the copy holds the storage until it has completed; an unavailable field is only dropped. */
  method IntoHostTraced<V>(session: Session<V>, field: Buffer<V>, fate: CallFate) returns (r: Result<seq<V>>)
    requires session.Valid() && session.Owns(field) && !field.haloed
    modifies session, session.device, session.budget
    ensures var a := field.tensor.alloc;
            Buffers(session) ==
            old(Buffers(session)).Run(if field.completion.uncertain then [L.Drop(a)]
                                      else [L.Read(a), L.Device, L.Return(a, r.Ok?)])
  {
    ghost var w := Buffers(session);
    r := session.IntoHost(field, fate);
    ReadRun(w, field.tensor.alloc, r.Ok?);
    DropRun(w, field.tensor.alloc);
  }

  /** step_into_async: the future f owns the three buffers, or they are dropped where they belong. */
  method StepIntoAsyncTraced<V>(session: Session<V>, ghost f: L.Id, ops: Arith<V>, source: Buffer<V>, rhs: Buffer<V>,
                                output: Buffer<V>, p: JacobiParams<V>)
    returns (r: Result<StepFuture<V>>)
    requires session.Valid() && session.Borrowed(source, Some(rhs), Some(output)) && f !in session.owners
    modifies session, session.device, session.budget
    ensures r.Ok? ==>
              WithFuture(session, f, r.value) ==
              old(Buffers(session)).Run([L.StepAsync(f, source.tensor.alloc, rhs.tensor.alloc, output.tensor.alloc)])
    ensures r.Err? ==>
              Buffers(session) ==
              old(Buffers(session)).Run(Drops(session, source) + Drops(session, rhs) + Drops(session, output))
  {
    ghost var w := Buffers(session);
    r := StepIntoAsync(session, ops, source, rhs, output, p);
    if r.Ok? {
      RunOne(w, L.StepAsync(f, source.tensor.alloc, rhs.tensor.alloc, output.tensor.alloc));
    } else {
      DropsRun(w.live, session, source, rhs, output);
    }
  }

  /** One poll of a future. A pending one leaves its kernel in the stream. */
  method PollTraced<V>(session: Session<V>, ghost f: L.Id, future: StepFuture<V>, fate: PollFate) returns (r: Polled)
    requires future.session == session && future.Valid() && f !in session.owners
    modifies future, session, session.device, session.budget
    ensures r.StillPending? ==>
              WithFuture(session, f, future) == old(WithFuture(session, f, future)).Run([L.Poll(f, true)])
    ensures r == Ready(Ok(())) ==>
              Buffers(session) == old(WithFuture(session, f, future)).Run(Resolves(f, BundleOf(future)))
    ensures r.Ready? && r.result.Err? ==>
              Buffers(session) ==
              old(WithFuture(session, f, future)).Run(
                if old(future.phase).Unpolled? && !fate.binds then [L.Poll(f, false)]
                else [L.Poll(f, true), L.Device, L.Poll(f, false)])
  {
    PollRuns(session.owners.Keys, f, BundleOf(future), future.phase.InFlight?);
    r := future.Poll(fate);
  }

  /** Dropping a future: the kernel in flight, if there is one, is drained before the storage goes. */
  method DropTraced<V>(session: Session<V>, ghost f: L.Id, future: StepFuture<V>)
    requires future.session == session && future.Valid() && f !in session.owners
    modifies future`phase, session, session.device, session.budget
    ensures Buffers(session) == old(WithFuture(session, f, future)).Run([L.Drop(f), L.Device, L.Return(f, true)])
  {
    ghost var names, w := session.owners.Keys, WithFuture(session, f, future);
    ghost var item, polled := BundleOf(future), future.phase.InFlight?;
    future.Drop();
    DropFutureRun(w, f, item, polled);
    OwnedWithout(names, f, item, polled);
  }
}
