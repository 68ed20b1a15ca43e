/**
 * The budget under concurrency: any number of threads admit and release guards through one mutex
 * (src/limits.rs). Each transition is one thread taking the lock or updating one counter under it,
 * so the two counter writes of a buffer can be separated by anything other threads do outside it.
 */
module Admission {
  import opened Errors
  import opened Shape
  import opened Limits

  type Thread = nat

  datatype Pc =
    | Idle
    | WantsBuffer(bytes: nat)            // past the per-buffer check, waiting for the lock
    | InBuffer(bytes: nat)               // holds the lock
    | BytesCharged(bytes: nat)           // usage.bytes written, usage.buffers not yet
    | WantsOperation
    | InOperation
    | WantsRelease(guard: Reservation)
    | InRelease(guard: Reservation)
    | BytesReturned(guard: Reservation)  // usage.bytes written, usage.buffers not yet
  {
    predicate Critical() { InBuffer? || BytesCharged? || InOperation? || InRelease? || BytesReturned? }

    predicate Releasing() { WantsRelease? || InRelease? || BytesReturned? }
  }

  datatype Event =
    | CallBuffer(t: Thread, bytes: nat)
    | CallOperation(t: Thread)
    | CallRelease(t: Thread, guard: Reservation)
    | Forget(guard: Reservation)
    | Proceed(t: Thread)

  /**
   * guards are charged and not yet released; owned are those some thread can still drop or forget.
   * underflow records a subtraction below zero.
   */
  datatype World = World(
    word: Word, limits: ResourceLimits, usage: Usage, holder: Option<Thread>, threads: map<Thread, Pc>,
    guards: set<Reservation>, owned: set<Reservation>, issued: nat, underflow: bool)
  {
    function At(t: Thread): Pc { if t in threads then threads[t] else Idle }

    function Goto(t: Thread, pc: Pc): World { this.(threads := threads[t := pc]) }

    function Lock(t: Thread, pc: Pc): World {
      if holder.None? then Goto(t, pc).(holder := Some(t)) else this
    }

    function Unlock(t: Thread): World { Goto(t, Idle).(holder := None) }

    function Issue(guard: Reservation): World {
      this.(guards := guards + {guard}, owned := owned + {guard}, issued := issued + 1)
    }

    /** The checks under the lock, in the order of the code. */
    predicate Rejects(bytes: nat) {
      || usage.bytes + bytes > word.UsizeMax()
      || usage.bytes + bytes > limits.totalBytes
      || usage.buffers >= limits.buffers
    }

    function Step(t: Thread): World {
      match At(t)
      case Idle => this
      case WantsBuffer(bytes) => Lock(t, InBuffer(bytes))
      case WantsOperation => Lock(t, InOperation)
      case WantsRelease(guard) => Lock(t, InRelease(guard))
      case InBuffer(bytes) =>
        if Rejects(bytes) then
          Unlock(t)
        else
          Goto(t, BytesCharged(bytes)).(usage := usage.(bytes := usage.bytes + bytes))
      case BytesCharged(bytes) =>
        Unlock(t).(usage := usage.(buffers := usage.buffers + 1)).Issue(Reservation(issued, bytes, true))
      case InOperation =>
        if usage.operations >= limits.operations then Unlock(t)
        else Unlock(t).(usage := usage.(operations := usage.operations + 1)).Issue(Reservation(issued, 0, false))
      case InRelease(guard) =>
        if guard.buffer then
          if usage.bytes < guard.bytes then this.(underflow := true)
          else Goto(t, BytesReturned(guard)).(usage := usage.(bytes := usage.bytes - guard.bytes))
        else
          if usage.operations < 1 then this.(underflow := true)
          else Unlock(t).(usage := usage.(operations := usage.operations - 1), guards := guards - {guard})
      case BytesReturned(guard) =>
        if usage.buffers < 1 then this.(underflow := true)
        else Unlock(t).(usage := usage.(buffers := usage.buffers - 1), guards := guards - {guard})
    }

    /** Events that are not enabled change nothing. */
    function Next(e: Event): World {
      match e
      case CallBuffer(t, bytes) =>
        if At(t).Idle? && bytes <= limits.bufferBytes then Goto(t, WantsBuffer(bytes)) else this
      case CallOperation(t) =>
        if At(t).Idle? then Goto(t, WantsOperation) else this
      case CallRelease(t, guard) =>
        if At(t).Idle? && guard in owned then Goto(t, WantsRelease(guard)).(owned := owned - {guard}) else this
      case Forget(guard) => this.(owned := owned - {guard})
      case Proceed(t) => Step(t)
    }

    function Run(events: seq<Event>): World
      decreases |events|
    {
      if events == [] then this else Next(events[0]).Run(events[1..])
    }

    /** The counters against the exact total of the charged guards. */
    ghost predicate Accounted() { Matches(Charges(guards)) }

    ghost predicate Matches(total: Usage) {
      var pc := if holder.Some? then At(holder.value) else Idle;
      && total.Within(limits) && usage.Within(limits)
      && usage.operations == total.operations && usage.buffers == total.buffers
      && match pc
         case BytesCharged(bytes) => usage.bytes == total.bytes + bytes && usage.buffers < limits.buffers
         case BytesReturned(guard) => guard.buffer && usage.bytes + guard.bytes == total.bytes
         case _ => usage.bytes == total.bytes
    }

    ghost predicate Owned() {
      && owned <= guards
      && (forall g :: g in guards ==> g.id < issued)
      && (forall t: Thread :: At(t).Releasing() ==> At(t).guard in guards && At(t).guard !in owned)
      && (forall t: Thread, t': Thread :: At(t).Releasing() && At(t').Releasing() && At(t).guard == At(t').guard ==>
          t == t')
    }

    ghost predicate Exclusive() {
      && (forall t: Thread :: At(t).Critical() ==> holder == Some(t))
      && (holder.Some? ==> At(holder.value).Critical())
    }

    // A buffer is compared with its own limit before the lock is asked for.
    ghost predicate Checked() {
      forall t: Thread :: At(t).WantsBuffer? || At(t).InBuffer? ==> At(t).bytes <= limits.bufferBytes
    }

    ghost predicate Inv() {
      limits.Valid(word) && !underflow && Exclusive() && Owned() && Checked() && Accounted()
    }

    /** The usage once the thread inside the lock has finished the write it has begun. */
    function Settled(): Usage {
      match if holder.Some? then At(holder.value) else Idle
      case BytesCharged(_) => usage.(buffers := usage.buffers + 1)
      case BytesReturned(_) => usage.(buffers := Minus(usage.buffers, 1))
      case _ => usage
    }

    /** What a transition decides, if it decides: the point at which its call takes effect. */
    function Decides(e: Event): seq<Decision> {
      match e
      case CallBuffer(t, bytes) => if At(t).Idle? && bytes > limits.bufferBytes then [Refused(bytes)] else []
      case Proceed(t) =>
        (match At(t)
         case InBuffer(bytes) =>
           if Rejects(bytes) then [Refused(bytes)] else [Admitted(bytes)]
         case InOperation => if usage.operations >= limits.operations then [Denied] else [Began]
         case InRelease(guard) => [Returned(guard)]
         case _ => [])
      case _ => []
    }

    /** The call an event makes for thread t, if it is enabled. */
    function Calls(t: Thread, e: Event): seq<Request> {
      match e
      case CallBuffer(x, bytes) => if x == t && At(t).Idle? then [ForBuffer(bytes)] else []
      case CallOperation(x) => if x == t && At(t).Idle? then [ForOperation] else []
      case CallRelease(x, guard) => if x == t && At(t).Idle? && guard in owned then [ForRelease(guard)] else []
      case _ => []
    }

    /** The call of thread t that has not taken effect yet. */
    function Undecided(t: Thread): seq<Request> {
      match At(t)
      case WantsBuffer(bytes) => [ForBuffer(bytes)]
      case InBuffer(bytes) => [ForBuffer(bytes)]
      case WantsOperation => [ForOperation]
      case InOperation => [ForOperation]
      case WantsRelease(guard) => [ForRelease(guard)]
      case InRelease(guard) => [ForRelease(guard)]
      case _ => []
    }

    function DecidesFor(t: Thread, e: Event): seq<Decision> {
      if !e.Forget? && e.t == t then Decides(e) else []
    }

    /** The guard an event issues to thread t. */
    function Grants(t: Thread, e: Event): seq<Reservation> {
      if e != Proceed(t) then []
      else if At(t).BytesCharged? then [Reservation(issued, At(t).bytes, true)]
      else if At(t).InOperation? && usage.operations < limits.operations then [Reservation(issued, 0, false)]
      else []
    }

    /** The guard thread t was admitted for and has not been issued yet. */
    function Promised(t: Thread): seq<Grant> {
      if At(t).BytesCharged? then [Grant(At(t).bytes, true)] else []
    }

    function CallsOf(t: Thread, events: seq<Event>): seq<Request>
      decreases |events|
    {
      if events == [] then [] else Calls(t, events[0]) + Next(events[0]).CallsOf(t, events[1..])
    }

    function DecisionsFor(t: Thread, events: seq<Event>): seq<Decision>
      decreases |events|
    {
      if events == [] then [] else DecidesFor(t, events[0]) + Next(events[0]).DecisionsFor(t, events[1..])
    }

    function GrantsOf(t: Thread, events: seq<Event>): seq<Reservation>
      decreases |events|
    {
      if events == [] then [] else Grants(t, events[0]) + Next(events[0]).GrantsOf(t, events[1..])
    }

    function Decisions(events: seq<Event>): seq<Decision>
      decreases |events|
    {
      if events == [] then [] else Decides(events[0]) + Next(events[0]).Decisions(events[1..])
    }
  }

  datatype Request = ForBuffer(bytes: nat) | ForOperation | ForRelease(guard: Reservation)

  /** What a guard is for, whatever its id. */
  datatype Grant = Grant(bytes: nat, buffer: bool)

  /** One call on a budget that nobody else uses, with its outcome. */
  datatype Decision =
    | Admitted(bytes: nat)
    | Refused(bytes: nat)
    | Began
    | Denied
    | Returned(guard: Reservation)
  {
    /** The call decided. */
    function Call(): Request {
      match this
      case Admitted(bytes) => ForBuffer(bytes)
      case Refused(bytes) => ForBuffer(bytes)
      case Began => ForOperation
      case Denied => ForOperation
      case Returned(guard) => ForRelease(guard)
    }

    /** The guard it promises. */
    function Promise(): seq<Grant> {
      match this
      case Admitted(bytes) => [Grant(bytes, true)]
      case Began => [Grant(0, false)]
      case _ => []
    }

    /** The usage after the call, or None if a budget at u would not have decided so. */
    function Serially(word: Word, limits: ResourceLimits, u: Usage): Option<Usage> {
      match this
      case Admitted(bytes) => var r := AdmitBuffer(word, limits, u, bytes); if r.Ok? then Some(r.value) else None
      case Refused(bytes) => if AdmitBuffer(word, limits, u, bytes).Err? then Some(u) else None
      case Began => var r := AdmitOperation(limits, u); if r.Ok? then Some(r.value) else None
      case Denied => if AdmitOperation(limits, u).Err? then Some(u) else None
      case Returned(guard) =>
        var rest := u.Less(guard.Charge());
        if u == rest.Plus(guard.Charge()) then Some(rest) else None
    }
  }

  function CallsDecided(decisions: seq<Decision>): seq<Request> {
    if decisions == [] then [] else [decisions[0].Call()] + CallsDecided(decisions[1..])
  }

  function Promises(decisions: seq<Decision>): seq<Grant> {
    if decisions == [] then [] else decisions[0].Promise() + Promises(decisions[1..])
  }

  function Kinds(guards: seq<Reservation>): seq<Grant> {
    if guards == [] then [] else [Grant(guards[0].bytes, guards[0].buffer)] + Kinds(guards[1..])
  }

  function SerialRun(word: Word, limits: ResourceLimits, u: Usage, decisions: seq<Decision>): Option<Usage>
    decreases |decisions|
  {
    if decisions == [] then Some(u)
    else
      var next := decisions[0].Serially(word, limits, u);
      if next.None? then None else SerialRun(word, limits, next.value, decisions[1..])
  }

  function Initial(word: Word, limits: ResourceLimits): World {
    World(word, limits, NoUsage(), None, map[], {}, {}, 0, false)
  }

  /** How a step moves the exact total. */
  ghost predicate Moves(w: World, t: Thread, total: Usage, total': Usage) {
    match w.At(t)
    case BytesCharged(bytes) => total' == OneBuffer(bytes).Plus(total)
    case InOperation => total' == if w.usage.operations < w.limits.operations then OneOperation().Plus(total) else total
    case InRelease(guard) =>
      if guard.buffer then total' == total && total.bytes >= guard.bytes && total.buffers >= 1
      else total == OneOperation().Plus(total')
    case BytesReturned(guard) => total == guard.Charge().Plus(total')
    case _ => total' == total
  }

  lemma StepMatches(w: World, t: Thread, total: Usage, total': Usage)
    requires w.limits.Valid(w.word) && !w.underflow && w.Exclusive() && w.Matches(total) && Moves(w, t, total, total')
    ensures w.Step(t).Matches(total') && !w.Step(t).underflow
  {
    match w.At(t)
    case BytesCharged(bytes) => assert w.holder == Some(t);
    case InRelease(guard) => assert w.holder == Some(t);
    case BytesReturned(guard) => assert w.holder == Some(t);
    case _ =>
  }

  lemma StepMoves(w: World, t: Thread)
    requires w.Inv()
    ensures Moves(w, t, Charges(w.guards), Charges(w.Step(t).guards))
  {
    var total := Charges(w.guards);
    match w.At(t)
    case BytesCharged(bytes) =>
      ChargesWith(w.guards, Reservation(w.issued, bytes, true));
    case InOperation =>
      ChargesWith(w.guards, Reservation(w.issued, 0, false));
    case InRelease(guard) =>
      ChargesWithout(w.guards, guard);
    case BytesReturned(guard) =>
      ChargesWithout(w.guards, guard);
      assert w.Matches(total) && w.holder == Some(t);
    case _ =>
  }

  lemma StepOthers(w: World, t: Thread)
    ensures forall x: Thread :: x != t ==> w.Step(t).At(x) == w.At(x)
  {
    forall x: Thread | x != t ensures w.Step(t).At(x) == w.At(x) { StepOther(w, t, x); }
  }

  lemma StepOther(w: World, t: Thread, x: Thread)
    requires x != t
    ensures w.Step(t).At(x) == w.At(x)
  {
  }

  lemma StepExclusive(w: World, t: Thread)
    requires w.Exclusive()
    ensures w.Step(t).Exclusive()
  {
    StepOthers(w, t);
  }

  lemma StepChecked(w: World, t: Thread)
    requires w.Checked()
    ensures w.Step(t).Checked()
  {
    StepOthers(w, t);
  }

  /** A step keeps the guards, issues one, or returns the one being released. */
  ghost predicate Keeps(w: World, w': World, t: Thread) {
    && w'.guards == w.guards && w'.owned == w.owned && w'.issued == w.issued
    && (w'.At(t).Releasing() ==> w.At(t).Releasing() && w'.At(t).guard == w.At(t).guard)
  }

  ghost predicate Issues(w: World, w': World, t: Thread, guard: Reservation) {
    && guard.id == w.issued && w'.issued == w.issued + 1
    && w'.guards == w.guards + {guard} && w'.owned == w.owned + {guard}
    && !w'.At(t).Releasing()
  }

  ghost predicate Returns(w: World, w': World, t: Thread) {
    && w.At(t).Releasing() && !w'.At(t).Releasing()
    && w'.guards == w.guards - {w.At(t).guard} && w'.owned == w.owned && w'.issued == w.issued
  }

  lemma StepGuards(w: World, t: Thread)
    ensures var w' := w.Step(t);
            || Keeps(w, w', t) || Returns(w, w', t)
            || (w.At(t).BytesCharged? && Issues(w, w', t, Reservation(w.issued, w.At(t).bytes, true)))
            || Issues(w, w', t, Reservation(w.issued, 0, false))
  {
    var w' := w.Step(t);
    match w.At(t)
    case BytesCharged(bytes) => assert Issues(w, w', t, Reservation(w.issued, bytes, true));
    case InOperation => assert Keeps(w, w', t) || Issues(w, w', t, Reservation(w.issued, 0, false));
    case InRelease(guard) => assert Keeps(w, w', t) || Returns(w, w', t);
    case BytesReturned(guard) => assert Keeps(w, w', t) || Returns(w, w', t);
    case _ => assert Keeps(w, w', t);
  }

  lemma StepOwned(w: World, w': World, t: Thread, guard: Reservation)
    requires w.Owned() && (Keeps(w, w', t) || Returns(w, w', t) || Issues(w, w', t, guard))
    requires forall x: Thread :: x != t ==> w'.At(x) == w.At(x)
    ensures w'.Owned()
  {
  }

  lemma CallInv(w: World, e: Event)
    requires w.Inv() && !e.Proceed?
    ensures w.Next(e).Owned() && w.Next(e).Exclusive() && w.Next(e).Checked()
    ensures w.Next(e).guards == w.guards && forall total :: w.Matches(total) ==> w.Next(e).Matches(total)
  {
    var w' := w.Next(e);
    if e.Forget? {
      assert forall x: Thread :: w'.At(x) == w.At(x);
    } else {
      assert forall x: Thread :: x != e.t ==> w'.At(x) == w.At(x);
    }
  }

  lemma StepAccounted(w: World, t: Thread)
    requires w.Inv()
    ensures w.Step(t).Accounted() && !w.Step(t).underflow
  {
    StepMoves(w, t);
    StepMatches(w, t, Charges(w.guards), Charges(w.Step(t).guards));
  }

  lemma StepKeepsOwned(w: World, t: Thread)
    requires w.Owned()
    ensures w.Step(t).Owned()
  {
    StepGuards(w, t);
    StepOthers(w, t);
    var bytes := if w.At(t).BytesCharged? then w.At(t).bytes else 0;
    StepOwned(w, w.Step(t), t, Reservation(w.issued, bytes, w.At(t).BytesCharged?));
  }

  lemma StepInv(w: World, t: Thread)
    requires w.Inv()
    ensures w.Step(t).Inv()
  {
    StepAccounted(w, t);
    StepExclusive(w, t);
    StepChecked(w, t);
    StepKeepsOwned(w, t);
    assert w.Step(t).limits == w.limits && w.Step(t).word == w.word;
  }

  lemma NextInv(w: World, e: Event)
    requires w.Inv()
    ensures w.Next(e).Inv()
  {
    if e.Proceed? {
      StepInv(w, e.t);
    } else {
      CallInv(w, e);
    }
  }

  /**
   * In every reachable state, whatever the interleaving: at most one thread is between its counter
   * writes, the counters are the exact totals of the charged guards up to that thread's pending
   * write, the limits hold, and no subtraction has underflowed.
   */
  lemma {:induction false} Conservation(w: World, events: seq<Event>)
    requires w.Inv()
    ensures w.Run(events).Inv()
    decreases |events|
  {
    if events != [] {
      NextInv(w, events[0]);
      Conservation(w.Next(events[0]), events[1..]);
    }
  }

  /** With the lock free, usage is exactly the charge of the guards neither released nor lost. */
  lemma ExactWhenUnlocked(word: Word, limits: ResourceLimits, events: seq<Event>)
    requires limits.Valid(word)
    ensures var w := Initial(word, limits).Run(events);
            && !w.underflow && w.usage.Within(limits) && w.limits == limits
            && (w.holder.None? ==> w.usage == Charges(w.guards))
  {
    Conservation(Initial(word, limits), events);
    LimitsFixed(Initial(word, limits), events);
    var w := Initial(word, limits).Run(events);
    var total := Charges(w.guards);
    assert w.holder.None? ==> w.usage == Usage(total.bytes, total.buffers, total.operations);
  }

  lemma {:induction false} LimitsFixed(w: World, events: seq<Event>)
    ensures w.Run(events).limits == w.limits && w.Run(events).word == w.word
    decreases |events|
  {
    if events != [] { LimitsFixed(w.Next(events[0]), events[1..]); }
  }

  lemma OtherWaits(w: World, t: Thread, e: Event)
    requires w.Exclusive() && w.At(t).Critical() && e != Proceed(t)
    ensures var w' := w.Next(e);
            w'.At(t) == w.At(t) && w'.holder == w.holder && w'.usage == w.usage && w'.limits == w.limits
  {
    if e.Proceed? {
      StepOther(w, e.t, t);
      assert !w.At(e.t).Critical();
    }
  }

  /** Whatever other threads do meanwhile, a thread inside the lock finds everything as it left it. */
  lemma {:induction false} OthersWait(w: World, t: Thread, events: seq<Event>)
    requires w.Inv() && w.At(t).Critical()
    requires forall i :: 0 <= i < |events| ==> events[i] != Proceed(t)
    ensures var w' := w.Run(events);
            && w'.Inv() && w'.At(t) == w.At(t) && w'.holder == w.holder
            && w'.usage == w.usage && w'.limits == w.limits
    decreases |events|
  {
    if events != [] {
      var w' := w.Next(events[0]);
      NextInv(w, events[0]);
      OtherWaits(w, t, events[0]);
      assert forall i :: 0 <= i < |events[1..]| ==> events[1..][i] == events[i + 1];
      OthersWait(w', t, events[1..]);
    }
  }

  /**
   * The two counter writes of an admission act as one: with any events of other threads between
   * them the usage ends as AdmitBuffer says, and a refused admission leaves no trace.
   */
  lemma AdmissionIsAtomic(w: World, t: Thread, events: seq<Event>)
    requires w.Inv() && w.At(t).InBuffer?
    requires forall i :: 0 <= i < |events| ==> events[i] != Proceed(t)
    ensures var admitted := AdmitBuffer(w.word, w.limits, w.usage, w.At(t).bytes);
            && (admitted.Ok? ==>
                  var w' := w.Step(t).Run(events).Step(t);
                  w'.usage == admitted.value && w'.holder == None && w'.At(t) == Idle)
            && (admitted.Err? ==> w.Step(t) == w.Unlock(t))
  {
    if AdmitBuffer(w.word, w.limits, w.usage, w.At(t).bytes).Ok? {
      NextInv(w, Proceed(t));
      assert w.Next(Proceed(t)) == w.Step(t) && w.Step(t).At(t).Critical();
      OthersWait(w.Step(t), t, events);
    }
  }

  lemma DecidesOne(w: World, e: Event)
    ensures SerialRun(w.word, w.limits, w.Settled(), w.Decides(e)) ==
            if w.Decides(e) == [] then Some(w.Settled()) else w.Decides(e)[0].Serially(w.word, w.limits, w.Settled())
  {
    assert w.Decides(e) != [] ==> w.Decides(e)[1..] == [];
  }

  lemma StepDecides(w: World, t: Thread, total: Usage, total': Usage)
    requires w.limits.Valid(w.word) && !w.underflow && w.Exclusive() && w.Checked()
    requires w.Matches(total) && Moves(w, t, total, total')
    ensures var decisions, settled := w.Decides(Proceed(t)), Some(w.Step(t).Settled());
            if decisions == [] then Some(w.Settled()) == settled
            else decisions[0].Serially(w.word, w.limits, w.Settled()) == settled
  {
    var w' := w.Step(t);
    match w.At(t)
    case InBuffer(bytes) =>
      AdmitDecides(w, t, bytes);
    case BytesCharged(bytes) =>
      assert w.holder == Some(t) && w'.holder == None;
    case InOperation =>
      assert w.holder == Some(t) && w.Settled() == w.usage && w'.holder == None;
    case InRelease(guard) =>
      assert w.holder == Some(t) && w.Settled() == w.usage;
      ReturnDecides(w, t, guard, total, total');
    case BytesReturned(guard) =>
      assert w.holder == Some(t) && w'.holder == None;
    case _ =>
  }

  lemma AdmitDecides(w: World, t: Thread, bytes: nat)
    requires w.limits.Valid(w.word) && w.Exclusive() && w.Checked() && w.At(t) == InBuffer(bytes)
    ensures w.Decides(Proceed(t))[0].Serially(w.word, w.limits, w.Settled()) == Some(w.Step(t).Settled())
  {
    var w' := w.Step(t);
    assert w.holder == Some(t) && w.Settled() == w.usage;
    if w.Rejects(bytes) {
      assert w'.holder == None;
    } else {
      assert w'.holder == Some(t) && w'.At(t) == BytesCharged(bytes);
    }
  }

  lemma ReturnDecides(w: World, t: Thread, guard: Reservation, total: Usage, total': Usage)
    requires w.Exclusive() && w.At(t) == InRelease(guard) && w.Matches(total) && Moves(w, t, total, total')
    ensures Returned(guard).Serially(w.word, w.limits, w.usage) == Some(w.Step(t).Settled())
  {
    var u, w' := w.usage, w.Step(t);
    assert w.holder == Some(t);
    if guard.buffer {
      assert u.bytes >= guard.bytes && u.buffers >= 1;
      assert w'.holder == Some(t) && w'.At(t) == BytesReturned(guard);
      assert w'.Settled() == Usage(u.bytes - guard.bytes, u.buffers - 1, u.operations);
    } else {
      assert u.operations >= 1;
      assert w'.holder == None;
      assert w'.Settled() == Usage(u.bytes, u.buffers, u.operations - 1);
    }
  }

  /** A transition decides what a budget used serially would, or nothing is decided and nothing changes. */
  lemma NextDecides(w: World, e: Event)
    requires w.Inv()
    ensures SerialRun(w.word, w.limits, w.Settled(), w.Decides(e)) == Some(w.Next(e).Settled())
  {
    DecidesOne(w, e);
    if e.Proceed? {
      StepMoves(w, e.t);
      StepDecides(w, e.t, Charges(w.guards), Charges(w.Step(e.t).guards));
    } else {
      assert w.Next(e).Settled() == w.Settled();
    }
  }

  lemma {:induction false} SerialAppend(word: Word, limits: ResourceLimits, u: Usage, first: seq<Decision>,
                                        second: seq<Decision>)
    requires SerialRun(word, limits, u, first).Some?
    ensures SerialRun(word, limits, u, first + second) ==
              SerialRun(word, limits, SerialRun(word, limits, u, first).value, second)
    decreases |first|
  {
    if first == [] {
      assert first + second == second;
    } else {
      assert (first + second)[1..] == first[1..] + second;
      SerialAppend(word, limits, first[0].Serially(word, limits, u).value, first[1..], second);
    }
  }

  /**
   * Linearizability: in any interleaving each call takes effect at one of its own transitions, and
   * those effects, in that order, are a run of a budget used by one caller at a time, with the same
   * outcome for every call.
   */
  lemma {:induction false} Linearizable(w: World, events: seq<Event>)
    requires w.Inv()
    ensures SerialRun(w.word, w.limits, w.Settled(), w.Decisions(events)) == Some(w.Run(events).Settled())
    decreases |events|
  {
    if events != [] {
      var w' := w.Next(events[0]);
      NextInv(w, events[0]);
      NextDecides(w, events[0]);
      LimitsFixed(w, [events[0]]);
      assert w.Run([events[0]]) == w';
      Linearizable(w', events[1..]);
      SerialAppend(w.word, w.limits, w.Settled(), w.Decides(events[0]), w'.Decisions(events[1..]));
    }
  }

  /** One transition decides the call its thread has under way, or leaves it undecided. */
  ghost predicate CallsMatch(w: World, t: Thread, e: Event) {
    w.Undecided(t) + w.Calls(t, e) == CallsDecided(w.DecidesFor(t, e)) + w.Next(e).Undecided(t)
  }

  /** It issues the guard its thread was admitted for, or leaves it promised. */
  ghost predicate GrantsMatch(w: World, t: Thread, e: Event) {
    w.Promised(t) + Promises(w.DecidesFor(t, e)) == Kinds(w.Grants(t, e)) + w.Next(e).Promised(t)
  }

  lemma ProceedMatches(w: World, t: Thread)
    requires !w.Step(t).underflow
    ensures CallsMatch(w, t, Proceed(t))
  {
    var after := w.Step(t).Undecided(t);
    match w.At(t)
    case InBuffer(bytes) => assert after == [];
    case InOperation => assert after == [];
    case InRelease(guard) => assert after == [];
    case BytesReturned(guard) => assert after == [];
    case BytesCharged(bytes) => assert after == [];
    case _ =>
  }

  lemma ProceedGrants(w: World, t: Thread)
    ensures GrantsMatch(w, t, Proceed(t))
  {
    var after := w.Step(t).Promised(t);
    match w.At(t)
    case InBuffer(bytes) => assert after == if w.Rejects(bytes) then [] else [Grant(bytes, true)];
    case BytesCharged(bytes) => assert after == [];
    case InOperation => assert after == [];
    case _ => assert after == [];
  }

  lemma OtherMatches(w: World, t: Thread, e: Event)
    requires e.Forget? || e.t != t
    ensures CallsMatch(w, t, e) && GrantsMatch(w, t, e)
  {
    assert w.Next(e).At(t) == w.At(t) by {
      if e.Proceed? { StepOther(w, e.t, t); }
    }
    assert w.Calls(t, e) == [] && w.DecidesFor(t, e) == [] && w.Grants(t, e) == [];
  }

  lemma CallMatches(w: World, t: Thread, e: Event)
    requires !e.Forget? && !e.Proceed? && e.t == t
    ensures CallsMatch(w, t, e) && GrantsMatch(w, t, e)
  {
    if !w.At(t).Idle? { assert w.Next(e) == w && w.Calls(t, e) == [] && w.DecidesFor(t, e) == []; }
  }

  lemma NextMatches(w: World, t: Thread, e: Event)
    requires w.Inv()
    ensures CallsMatch(w, t, e) && GrantsMatch(w, t, e)
  {
    if e == Proceed(t) {
      NextInv(w, e);
      ProceedMatches(w, t);
      ProceedGrants(w, t);
    } else if !e.Forget? && e.t == t {
      CallMatches(w, t, e);
    } else {
      OtherMatches(w, t, e);
    }
  }

  lemma Chain<T>(before: seq<T>, first: seq<T>, more: seq<T>, done: seq<T>, rest: seq<T>, middle: seq<T>, last: seq<T>)
    requires before + first == done + middle && middle + more == rest + last
    ensures before + (first + more) == (done + rest) + last
  {
    calc {
      before + (first + more);
      (before + first) + more;
      (done + middle) + more;
      done + (middle + more);
      done + (rest + last);
      (done + rest) + last;
    }
  }

  /**
   * Every thread's calls, in order, are its decisions and then at most the one call it has under way:
   * a call that has returned was decided exactly once.
   */
  lemma {:induction false} DecidedOnce(w: World, t: Thread, events: seq<Event>)
    requires w.Inv()
    ensures w.Undecided(t) + w.CallsOf(t, events) ==
              CallsDecided(w.DecisionsFor(t, events)) + w.Run(events).Undecided(t)
    decreases |events|
  {
    if events != [] {
      var w', e, rest := w.Next(events[0]), events[0], events[1..];
      NextInv(w, e);
      NextMatches(w, t, e);
      DecidedOnce(w', t, rest);
      AppendCalls(w.DecidesFor(t, e), w'.DecisionsFor(t, rest));
      Chain(w.Undecided(t), w.Calls(t, e), w'.CallsOf(t, rest), CallsDecided(w.DecidesFor(t, e)),
            CallsDecided(w'.DecisionsFor(t, rest)), w'.Undecided(t), w.Run(events).Undecided(t));
    }
  }

  /** Its guards, in order, are what its calls were admitted for, but for at most the one about to be issued. */
  lemma {:induction false} GrantedAsDecided(w: World, t: Thread, events: seq<Event>)
    requires w.Inv()
    ensures w.Promised(t) + Promises(w.DecisionsFor(t, events)) ==
              Kinds(w.GrantsOf(t, events)) + w.Run(events).Promised(t)
    decreases |events|
  {
    if events != [] {
      var w', e, rest := w.Next(events[0]), events[0], events[1..];
      NextInv(w, e);
      NextMatches(w, t, e);
      GrantedAsDecided(w', t, rest);
      AppendPromises(w.DecidesFor(t, e), w'.DecisionsFor(t, rest));
      AppendKinds(w.Grants(t, e), w'.GrantsOf(t, rest));
      Chain(w.Promised(t), Promises(w.DecidesFor(t, e)), Promises(w'.DecisionsFor(t, rest)), Kinds(w.Grants(t, e)),
            Kinds(w'.GrantsOf(t, rest)), w'.Promised(t), w.Run(events).Promised(t));
    }
  }

  lemma {:induction false} AppendCalls(first: seq<Decision>, second: seq<Decision>)
    ensures CallsDecided(first + second) == CallsDecided(first) + CallsDecided(second)
  {
    if first == [] {
      assert first + second == second;
    } else {
      assert (first + second)[1..] == first[1..] + second;
      AppendCalls(first[1..], second);
    }
  }

  lemma {:induction false} AppendPromises(first: seq<Decision>, second: seq<Decision>)
    ensures Promises(first + second) == Promises(first) + Promises(second)
  {
    if first == [] {
      assert first + second == second;
    } else {
      assert (first + second)[1..] == first[1..] + second;
      AppendPromises(first[1..], second);
    }
  }

  lemma {:induction false} AppendKinds(first: seq<Reservation>, second: seq<Reservation>)
    ensures Kinds(first + second) == Kinds(first) + Kinds(second)
  {
    if first == [] {
      assert first + second == second;
    } else {
      assert (first + second)[1..] == first[1..] + second;
      AppendKinds(first[1..], second);
    }
  }

  /** A grant is a new guard, charged and owned from the transition on. */
  lemma GrantIsNew(w: World, t: Thread)
    requires w.Inv() && w.Grants(t, Proceed(t)) != []
    ensures var guard, w' := w.Grants(t, Proceed(t))[0], w.Step(t);
            guard !in w.guards && w'.guards == w.guards + {guard} && guard in w'.owned
  {
  }

  /** No deadlock: if any call is unfinished, some thread can take a step that changes the state. */
  lemma NoDeadlock(w: World, t: Thread) returns (next: Thread)
    requires w.Inv() && !w.At(t).Idle?
    ensures w.Step(next) != w
  {
    next := if w.holder.Some? then w.holder.value else t;
    StepMoves(w, next);
    StepMatches(w, next, Charges(w.guards), Charges(w.Step(next).guards));
    assert w.Step(next).At(next) != w.At(next);
  }
}
