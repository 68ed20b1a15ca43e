/**
 * Readiness over whole sequences of public calls (src/completion.rs as src/gpu/cutile_impl.rs uses
 * it). Calls that ownership, borrowing or types forbid are ignored.
 */
module Invalidation {
  import opened Errors
  import opened Completions

  type Id = nat

  /** How a call fares once validation has accepted it. */
  datatype Fate = Refused(error: Error) | Completes | Fails(failure: Error) | Unwinds {
    /** How the call answers when its frame ends without a result. */
    function Answer(): Answer {
      match this
      case Refused(error) => Rejected(error)
      case Completes => Done
      case Fails(error) => Failed(error)
      case Unwinds => Unwound
    }
  }

  datatype Call =
    | StepInto(source: Id, rhs: Id, output: Id, fate: Fate)
    | LaplacianInto(source: Id, output: Id, fate: Fate)
    | Step(source: Id, rhs: Id, fate: Fate)
    | StepAsync(source: Id, rhs: Id, output: Id, fate: Fate)  // up to its return: fate is that of the admission
    | Resolve(future: Id, fate: Fate)                         // the poll that finds a future's kernel ended
    | DropFuture(future: Id)
    | IntoHost(field: Id, fate: Fate)
    | Upload(facts: Facts)
    | Drop(field: Id)
  {
    /** The buffers a call computes with or reads. */
    predicate Uses(id: Id) {
      match this
      case StepInto(s, r, o, _) => id == s || id == r || id == o
      case LaplacianInto(s, o, _) => id == s || id == o
      case Step(s, r, _) => id == s || id == r
      case StepAsync(s, r, o, _) => id == s || id == r || id == o
      case IntoHost(f, _) => id == f
      case _ => false
    }

    /** The output a call borrows. */
    predicate Lends(id: Id) { (StepInto? || LaplacianInto?) && output == id }
  }

  datatype Answer = Ignored | Done | Rejected(error: Error) | Failed(error: Error) | Unwound

  /**
   * fields are the buffers a caller can name, held those that unresolved futures own; futures maps
   * each of these to its source, right-hand side and output.
   */
  datatype World = World(
    ordinal: nat, fields: map<Id, Facts>, held: map<Id, Facts>, futures: map<Id, (Id, Id, Id)>, issued: nat)
  {

    ghost predicate Valid() {
      && fields.Keys !! held.Keys
      && (forall id :: id in fields ==> id < issued)
      && (forall id :: id in held ==> id < issued && !held[id].uncertain)
    }

    /** Some owner has this buffer: the caller, or a future. */
    predicate Alive(id: Id) { id in fields || id in held }

    function Add(facts: Facts): World {
      this.(fields := fields[issued := facts.(uncertain := false)], issued := issued + 1)
    }

    function Without(ids: set<Id>): World { this.(fields := fields - ids) }

    /** completion.run around the backend call of an accepted execution. */
    function InCompletion(output: Id, fate: Fate): (World, Answer)
      requires output in fields
    {
      var entered := this.(fields := fields[output := fields[output].(uncertain := true)]);
      match fate
      case Refused(_) => (this, fate.Answer())
      case Completes =>
        (entered.(fields := entered.fields[output := entered.fields[output].(uncertain := false)]), fate.Answer())
      case _ => (entered, fate.Answer())
    }

    function Validate(source: Id, rhs: Option<Id>, output: Option<Id>): Result<()>
      requires source in fields && (rhs.Some? ==> rhs.value in fields) && (output.Some? ==> output.value in fields)
    {
      ValidateFields(ordinal, fields[source],
                     if rhs.Some? then Some(fields[rhs.value]) else None,
                     if output.Some? then Some(fields[output.value]) else None)
    }

    function Execute(source: Id, rhs: Option<Id>, output: Id, fate: Fate): (World, Answer)
      requires source in fields && (rhs.Some? ==> rhs.value in fields) && output in fields
    {
      var valid := Validate(source, rhs, Some(output));
      if valid.Err? then (this, Rejected(valid.error)) else InCompletion(output, fate)
    }

    function Owned(future: Id): set<Id>
      requires future in futures
    {
      {futures[future].0, futures[future].1, futures[future].2}
    }

    /** The buffers of a future, as it was given them. */
    function Parts(future: Id): map<Id, Facts>
      requires future in futures
    {
      map id | id in held && id in Owned(future) :: held[id]
    }

    /** A new future takes three buffers. */
    function Suspend(s: Id, r: Id, o: Id): World
      requires {s, r, o} <= fields.Keys
    {
      World(ordinal, fields - {s, r, o}, held[s := fields[s]][r := fields[r]][o := fields[o]],
            futures[issued := (s, r, o)], issued + 1)
    }

    /** A future ends: it owns nothing any more. */
    function Release(future: Id): World
      requires future in futures
    {
      this.(held := held - Owned(future), futures := futures - {future})
    }

    function Next(call: Call): (World, Answer) {
      match call
      case StepInto(s, r, o, fate) =>
        if !({s, r, o} <= fields.Keys) || o == r || o == s then (this, Ignored) else Execute(s, Some(r), o, fate)
      case LaplacianInto(s, o, fate) =>
        if !({s, o} <= fields.Keys) || o == s then (this, Ignored) else Execute(s, None, o, fate)
      case Step(s, r, fate) =>
        if !({s, r} <= fields.Keys) then (this, Ignored)
        else
          var valid := Validate(s, Some(r), None);
          if valid.Err? then (this, Rejected(valid.error))
          else if fate.Completes? then (Add(fields[r]), Done)
          else (this, fate.Answer())
      case StepAsync(s, r, o, fate) =>
        if !({s, r, o} <= fields.Keys) || s == r || s == o || r == o then (this, Ignored)
        else
          var valid := Validate(s, Some(r), Some(o));
          if valid.Err? then (Without({s, r, o}), Rejected(valid.error))
          else if fate.Completes? then (Suspend(s, r, o), Done)
          else (Without({s, r, o}), fate.Answer())
      case Resolve(f, fate) =>
        if f !in futures || !(Owned(f) <= held.Keys) then (this, Ignored)
        else if fate.Completes? then (Release(f).(fields := fields + Parts(f)), Done)
        else (Release(f), fate.Answer())
      case DropFuture(f) => if f in futures then (Release(f), Done) else (this, Ignored)
      case IntoHost(f, fate) =>
        if f !in fields then (this, Ignored)
        else if fields[f].uncertain then (Without({f}), Rejected(InvalidBuffer(Field)))
        else if fate.Completes? then (Without({f}), Done)
        else (Without({f}), fate.Answer())
      case Upload(facts) => (Add(facts), Done)
      case Drop(f) => (Without({f}), Done)
    }

    function Run(calls: seq<Call>): World
      decreases |calls|
    {
      if calls == [] then this else Next(calls[0]).0.Run(calls[1..])
    }

    function Answers(calls: seq<Call>): (answers: seq<Answer>)
      ensures |answers| == |calls|
      decreases |calls|
    {
      if calls == [] then [] else [Next(calls[0]).1] + Next(calls[0]).0.Answers(calls[1..])
    }

    predicate Uncertain(id: Id) { id in fields && fields[id].uncertain }

    /** Call i borrowed the output id, and its execution failed or unwound. */
    ghost predicate Broke(calls: seq<Call>, i: nat, id: Id)
      requires i < |calls|
    {
      calls[i].Lends(id) && (Answers(calls)[i].Failed? || Answers(calls)[i].Unwound?)
    }

    /** What one call does to the readiness of one buffer. */
    ghost predicate Keeps(call: Call, id: Id) {
      var (w, answer) := Next(call);
      && w.Valid() && issued <= w.issued
      && (w.Uncertain(id) ==> Uncertain(id) || (call.Lends(id) && (answer.Failed? || answer.Unwound?)))
      && (call.Lends(id) && (answer.Failed? || answer.Unwound?) ==> w.Uncertain(id) && !Uncertain(id))
      && (Uncertain(id) ==> w.Uncertain(id) || !w.Alive(id))
      && (w.Alive(id) ==> Alive(id))
    }

    lemma FutureKeeps(call: Call, id: Id)
      requires Valid() && id < issued && (call.StepAsync? || call.Resolve? || call.DropFuture?)
      ensures Keeps(call, id)
    {
    }

    lemma ExecutionKeeps(call: Call, id: Id)
      requires Valid() && id < issued && (call.StepInto? || call.LaplacianInto?)
      ensures Keeps(call, id)
    {
    }

    /** One call: readiness is lost exactly by a broken execution, and never comes back. */
    lemma NextUncertain(call: Call, id: Id)
      requires Valid() && id < issued
      ensures Keeps(call, id)
    {
      if call.StepAsync? || call.Resolve? || call.DropFuture? { FutureKeeps(call, id); }
      if call.StepInto? || call.LaplacianInto? { ExecutionKeeps(call, id); }
    }

    /** A call naming an uncertain buffer is turned down, and changes nothing it does not consume. */
    lemma UncertainIsRejected(call: Call, id: Id)
      requires Uncertain(id) && call.Uses(id)
      ensures var (w, answer) := Next(call);
              && (answer.Ignored? || answer.Rejected?)
              && (w == this || w == Without(if call.IntoHost? then {id} else {call.source, call.rhs, call.output}))
              && (!call.IntoHost? && !call.StepAsync? ==> w == this)
    {
    }

    /** A rejected call on borrowed buffers leaves every buffer and every flag as it was. */
    lemma RejectionChangesNothing(call: Call)
      requires call.StepInto? || call.LaplacianInto? || call.Step?
      requires Next(call).1.Rejected?
      ensures Next(call).0 == this
    {
    }

    lemma {:induction false} RunUncertain(calls: seq<Call>, id: Id)
      requires Valid() && id < issued
      ensures var w := Run(calls);
              && w.Valid() && issued <= w.issued
              && (Uncertain(id) ==> w.Uncertain(id) || !w.Alive(id))
              && (w.Alive(id) ==> Alive(id))
      decreases |calls|
    {
      if calls != [] {
        NextUncertain(calls[0], id);
        Next(calls[0]).0.RunUncertain(calls[1..], id);
      }
    }

    /**
     * Absorption: from the moment an execution on a borrowed output breaks, every later call that
     * would compute with that buffer or read it back is turned down, until the buffer is gone.
     */
    lemma {:induction false} UncertainForever(calls: seq<Call>, id: Id)
      requires Valid() && Uncertain(id)
      ensures Run(calls).Uncertain(id) || !Run(calls).Alive(id)
      ensures forall i :: 0 <= i < |calls| && calls[i].Uses(id) ==>
                Answers(calls)[i].Ignored? || Answers(calls)[i].Rejected?
      decreases |calls|
    {
      RunUncertain(calls, id);
      if calls != [] {
        var w := Next(calls[0]).0;
        NextUncertain(calls[0], id);
        if calls[0].Uses(id) { UncertainIsRejected(calls[0], id); }
        if w.Alive(id) { w.UncertainForever(calls[1..], id); } else { w.GoneForever(calls[1..], id); }
        forall i | 0 <= i < |calls| && calls[i].Uses(id)
          ensures Answers(calls)[i].Ignored? || Answers(calls)[i].Rejected? {
          if i > 0 { assert calls[i] == calls[1..][i - 1]; }
        }
      }
    }

    /** A buffer that is gone stays gone: ids are never issued twice. */
    lemma {:induction false} GoneForever(calls: seq<Call>, id: Id)
      requires Valid() && id < issued && !Alive(id)
      ensures !Run(calls).Alive(id)
      ensures forall i :: 0 <= i < |calls| && calls[i].Uses(id) ==> Answers(calls)[i].Ignored?
      decreases |calls|
    {
      if calls != [] {
        NextUncertain(calls[0], id);
        Next(calls[0]).0.GoneForever(calls[1..], id);
        forall i | 0 <= i < |calls| && calls[i].Uses(id) ensures Answers(calls)[i].Ignored? {
          if i > 0 { assert calls[i] == calls[1..][i - 1]; }
        }
      }
    }

    /** One call on a buffer that does not exist yet: it cannot break it, and creates it ready if at all. */
    lemma NextFresh(call: Call, id: Id)
      requires Valid() && id >= issued
      ensures var (w, answer) := Next(call);
              w.Valid() && !w.Uncertain(id) && !(call.Lends(id) && (answer.Failed? || answer.Unwound?))
    {
      if issued > 0 { NextUncertain(call, issued - 1); }
      assert !Alive(id);
    }

    /**
     * A live buffer is uncertain if and only if some execution on it, borrowed as output, broke: any
     * buffer, those created during the run included.
     */
    lemma {:induction false} UncertainIffBroken(calls: seq<Call>, id: Id)
      requires Valid() && id in Run(calls).fields
      ensures Run(calls).Uncertain(id) <==> Uncertain(id) || exists i :: 0 <= i < |calls| && Broke(calls, i, id)
      decreases |calls|
    {
      if calls != [] {
        var w, rest := Next(calls[0]).0, calls[1..];
        if id < issued {
          NextUncertain(calls[0], id);
          w.RunUncertain(rest, id);
        } else {
          NextFresh(calls[0], id);
        }
        w.UncertainIffBroken(rest, id);
        forall i | 0 <= i < |rest| ensures w.Broke(rest, i, id) <==> Broke(calls, i + 1, id) {
          assert calls[i + 1] == rest[i];
        }
        assert Broke(calls, 0, id) <==> !Uncertain(id) && w.Uncertain(id);
        if i :| 0 <= i < |calls| && Broke(calls, i, id) {
          if i > 0 { assert w.Broke(rest, i - 1, id); }
        }
        if i :| 0 <= i < |rest| && w.Broke(rest, i, id) { assert Broke(calls, i + 1, id); }
      }
    }
  }
}
