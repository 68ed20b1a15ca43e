/** The executor's calls are transitions of the readiness machine: Sessions refines Invalidation. */
module Traces {
  import opened Errors
  import opened Stencil
  import opened Sessions
  import I = Invalidation

  /** Buffers by name, no two of them sharing a readiness flag. */
  ghost predicate Named<V>(session: Session<V>, ids: map<I.Id, Buffer<V>>)
    reads session
  {
    && (forall i :: i in ids ==> session.Known(ids[i]))
    && (forall i, j :: i in ids && j in ids && i != j ==> ids[i].completion != ids[j].completion)
  }

  /** What the machine sees of them. */
  ghost function View<V>(session: Session<V>, ids: map<I.Id, Buffer<V>>): I.World
    reads set i | i in ids :: ids[i].completion
  {
    I.World(session.ordinal, map i | i in ids :: ids[i].FactsFor(session), map[], map[], 0)
  }

  /** How the machine calls what the backend and the budget do to an accepted execution. */
  ghost function FateOf<V>(session: Session<V>, fate: CallFate): I.Fate
    reads session.budget
  {
    if session.budget.usage.operations >= session.budget.limits.operations then I.Refused(session.Denied().error)
    else if !fate.binds then I.Refused(fate.Report().error)
    else if !fate.completes then I.Fails(fate.Report().error)
    else I.Completes
  }

  /** The call and the machine answer alike, to the same error. */
  ghost predicate Alike(result: Result<()>, answer: I.Answer) {
    match result
    case Ok(_) => answer == I.Done
    case Err(error) => answer == I.Rejected(error) || answer == I.Failed(error)
  }

  method StepIntoTraced<V>(session: Session<V>, ghost ids: map<I.Id, Buffer<V>>, ghost s: I.Id, ghost r: I.Id,
                           ghost o: I.Id, ops: Arith<V>, source: Buffer<V>, rhs: Buffer<V>, output: Buffer<V>,
                           p: JacobiParams<V>, fate: CallFate)
    returns (result: Result<()>)
    requires session.Valid() && session.Borrowed(source, Some(rhs), Some(output)) && Named(session, ids)
    requires {s, r, o} <= ids.Keys && ids[s] == source && ids[r] == rhs && ids[o] == output
    modifies session.device, session.budget, output.completion
    ensures var (w, answer) := old(View(session, ids)).Next(I.StepInto(s, r, o, old(FateOf(session, fate))));
            && View(session, ids) == w && Alike(result, answer)
            && (answer.Rejected? ==> View(session, ids) == old(View(session, ids)))
  {
    ghost var before, call := View(session, ids), I.StepInto(s, r, o, FateOf(session, fate));
    var valid := session.Validate(source, Some(rhs), Some(output));
    ExecutionIs(before, call, valid);
    result := session.StepInto(ops, source, rhs, output, p, fate);
    FlagOnly(session, ids, before, o);
  }

  method LaplacianIntoTraced<V>(session: Session<V>, ghost ids: map<I.Id, Buffer<V>>, ghost s: I.Id, ghost o: I.Id,
                                ops: Arith<V>, source: Buffer<V>, output: Buffer<V>, p: LaplacianParams<V>,
                                fate: CallFate)
    returns (result: Result<()>)
    requires session.Valid() && session.Borrowed(source, None, Some(output)) && Named(session, ids)
    requires {s, o} <= ids.Keys && ids[s] == source && ids[o] == output
    modifies session.device, session.budget, output.completion
    ensures var (w, answer) := old(View(session, ids)).Next(I.LaplacianInto(s, o, old(FateOf(session, fate))));
            && View(session, ids) == w && Alike(result, answer)
            && (answer.Rejected? ==> View(session, ids) == old(View(session, ids)))
  {
    ghost var before, call := View(session, ids), I.LaplacianInto(s, o, FateOf(session, fate));
    var valid := session.Validate(source, None, Some(output));
    ExecutionIs(before, call, valid);
    result := session.LaplacianInto(ops, source, output, p, fate);
    FlagOnly(session, ids, before, o);
  }

  /** The machine's transition for a single-step call, given what validation says. */
  lemma ExecutionIs(before: I.World, call: I.Call, valid: Result<()>)
    requires call.StepInto? || call.LaplacianInto?
    requires {call.source, call.output} <= before.fields.Keys && call.source != call.output
    requires call.StepInto? ==> call.rhs in before.fields && call.rhs != call.output
    requires valid == before.Validate(call.source, if call.StepInto? then Some(call.rhs) else None, Some(call.output))
    ensures var (w, answer) := before.Next(call);
            var was := before.fields[call.output];
            && answer == (if valid.Err? then I.Rejected(valid.error) else call.fate.Answer())
            && w == before.(fields := before.fields[call.output := was.(uncertain :=
                 if valid.Err? || call.fate.Refused? then was.uncertain else !call.fate.Completes?)])
            && (answer.Rejected? ==> w == before)
  {
    if before.Next(call).1.Rejected? { before.RejectionChangesNothing(call); }
  }

  /** When only one buffer's flag may have changed, the view differs in that flag at most. */
  lemma FlagOnly<V>(session: Session<V>, ids: map<I.Id, Buffer<V>>, before: I.World, o: I.Id)
    requires o in ids && before.fields.Keys == ids.Keys && before.ordinal == session.ordinal
    requires before.held == map[] && before.futures == map[] && before.issued == 0
    requires forall i :: i in ids && i != o ==> before.fields[i] == ids[i].FactsFor(session)
    requires before.fields[o] == ids[o].FactsFor(session).(uncertain := before.fields[o].uncertain)
    ensures View(session, ids) ==
            before.(fields := before.fields[o := before.fields[o].(uncertain := ids[o].completion.uncertain)])
  {
  }
}
