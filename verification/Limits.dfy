/** Admission limits and the budget of one session (src/limits.rs). */
module Limits {
  import opened Errors
  import opened Shape

  datatype ResourceLimits = ResourceLimits(bufferBytes: nat, totalBytes: nat, buffers: nat, operations: nat) {
    ghost predicate Valid(word: Word) {
      && 0 < bufferBytes <= totalBytes <= word.UsizeMax()
      && 0 < buffers <= word.UsizeMax()
      && 0 < operations <= word.UsizeMax()
    }

    /** Whether one more buffer fits beside what is already charged. */
    ghost predicate Room(u: Usage, bytes: nat) {
      bytes <= bufferBytes && u.bytes + bytes <= totalBytes && u.buffers < buffers
    }
  }

  function NewLimits(bufferBytes: nat, totalBytes: nat, buffers: nat, operations: nat): Result<ResourceLimits> {
    if bufferBytes == 0 || totalBytes == 0 || buffers == 0 || operations == 0 || bufferBytes > totalBytes then
      Err(InvalidResourceLimits)
    else
      Ok(ResourceLimits(bufferBytes, totalBytes, buffers, operations))
  }

  /** The constructor accepts exactly the valid limits, and stores what it was given. */
  lemma NewLimitsIff(word: Word, bufferBytes: nat, totalBytes: nat, buffers: nat, operations: nat)
    requires bufferBytes <= word.UsizeMax() && totalBytes <= word.UsizeMax() && buffers <= word.UsizeMax()
    requires operations <= word.UsizeMax()
    ensures var r := NewLimits(bufferBytes, totalBytes, buffers, operations);
            && (r.Ok? <==> ResourceLimits(bufferBytes, totalBytes, buffers, operations).Valid(word))
            && (r.Ok? ==> r.value == ResourceLimits(bufferBytes, totalBytes, buffers, operations))
            && (r.Err? ==> r == Err(InvalidResourceLimits))
  {
  }

  function Check(resource: Resource, amount: nat, maximum: nat): Result<()> {
    if amount > maximum then Err(ResourceLimit(resource, maximum)) else Ok(())
  }

  /** The static check of one haloed and two interior buffers. */
  function CheckShape(word: Word, limits: ResourceLimits, s: Shape2D): Result<()> {
    var _ :- Check(BufferBytes, s.haloedBytes, limits.bufferBytes);
    if 2 * s.interiorBytes > word.UsizeMax() || 2 * s.interiorBytes + s.haloedBytes > word.UsizeMax() then
      Err(ResourceLimit(DeviceBytes, limits.totalBytes))
    else
      var _ :- Check(DeviceBytes, 2 * s.interiorBytes + s.haloedBytes, limits.totalBytes);
      Check(LiveBuffers, 3, limits.buffers)
  }

  function Minus(a: nat, b: nat): nat { if a < b then 0 else a - b }

  datatype Usage = Usage(bytes: nat, buffers: nat, operations: nat) {
    function Plus(other: Usage): Usage {
      Usage(bytes + other.bytes, buffers + other.buffers, operations + other.operations)
    }

    function Less(other: Usage): Usage {
      Usage(Minus(bytes, other.bytes), Minus(buffers, other.buffers), Minus(operations, other.operations))
    }

    ghost predicate Within(limits: ResourceLimits) {
      bytes <= limits.totalBytes && buffers <= limits.buffers && operations <= limits.operations
    }
  }

  function NoUsage(): Usage { Usage(0, 0, 0) }

  function OneOperation(): Usage { Usage(0, 0, 1) }

  function OneBuffer(bytes: nat): Usage { Usage(bytes, 1, 0) }

  /** What a double grid charges: two haloed buffers and one interior buffer. */
  function GridCharge(s: Shape2D): Usage { Usage(2 * s.haloedBytes + s.interiorBytes, 3, 0) }

  function AdmitBuffer(word: Word, limits: ResourceLimits, u: Usage, bytes: nat): Result<Usage> {
    var _ :- Check(BufferBytes, bytes, limits.bufferBytes);
    if u.bytes + bytes > word.UsizeMax() then Err(ResourceLimit(DeviceBytes, limits.totalBytes))
    else
      var _ :- Check(DeviceBytes, u.bytes + bytes, limits.totalBytes);
      if u.buffers >= limits.buffers then Err(ResourceLimit(LiveBuffers, limits.buffers))
      else Ok(u.Plus(OneBuffer(bytes)))
  }

  function AdmitOperation(limits: ResourceLimits, u: Usage): Result<Usage> {
    if u.operations >= limits.operations then Err(ResourceLimit(Operations, limits.operations))
    else Ok(u.Plus(OneOperation()))
  }

  function AdmitBuffers(word: Word, limits: ResourceLimits, u: Usage, sizes: seq<nat>): Result<Usage>
    decreases |sizes|
  {
    if sizes == [] then Ok(u)
    else
      var u' :- AdmitBuffer(word, limits, u, sizes[0]);
      AdmitBuffers(word, limits, u', sizes[1..])
  }

  function Sum(sizes: seq<nat>): nat {
    if sizes == [] then 0 else sizes[0] + Sum(sizes[1..])
  }

  /** A run of admissions succeeds exactly when its total does: neither order nor overflow matters. */
  lemma {:induction false} AdmitBuffersIff(word: Word, limits: ResourceLimits, u: Usage, sizes: seq<nat>)
    requires limits.Valid(word) && u.Within(limits)
    ensures var r := AdmitBuffers(word, limits, u, sizes);
            && (r.Ok? <==>
                && (forall i :: 0 <= i < |sizes| ==> sizes[i] <= limits.bufferBytes)
                && u.bytes + Sum(sizes) <= limits.totalBytes
                && u.buffers + |sizes| <= limits.buffers)
            && (r.Ok? ==> r.value == Usage(u.bytes + Sum(sizes), u.buffers + |sizes|, u.operations))
    decreases |sizes|
  {
    if sizes != [] {
      var first := AdmitBuffer(word, limits, u, sizes[0]);
      if first.Ok? {
        AdmitBuffersIff(word, limits, first.value, sizes[1..]);
        assert forall i :: 1 <= i < |sizes| ==> sizes[i] == sizes[1..][i - 1];
      }
    }
  }

  /** The static check holds exactly when an empty budget admits the three buffers, in any order. */
  lemma StaticCheckAgrees(word: Word, limits: ResourceLimits, s: Shape2D, sizes: seq<nat>)
    requires limits.Valid(word) && s.Valid()
    requires
      || sizes == [s.haloedBytes, s.interiorBytes, s.interiorBytes]
      || sizes == [s.interiorBytes, s.haloedBytes, s.interiorBytes]
      || sizes == [s.interiorBytes, s.interiorBytes, s.haloedBytes]
    ensures CheckShape(word, limits, s).Ok? <==> AdmitBuffers(word, limits, NoUsage(), sizes).Ok?
  {
    var large, small := s.haloedBytes, s.interiorBytes;
    assert small <= large by { HaloedDominates(s.height, s.width); }
    AdmitBuffersIff(word, limits, NoUsage(), sizes);
    SumOfThree(sizes);
    assert large == sizes[0] || large == sizes[1] || large == sizes[2];
  }

  lemma SumOfThree(sizes: seq<nat>)
    requires |sizes| == 3
    ensures Sum(sizes) == sizes[0] + sizes[1] + sizes[2]
  {
    assert Sum(sizes[1..]) == sizes[1] + Sum(sizes[1..][1..]);
    assert Sum(sizes[1..][1..]) == sizes[2] + Sum(sizes[1..][1..][1..]);
  }

  /** A guard: releasing it returns what it charged. The id stands for its being unclonable. */
  datatype Reservation = Reservation(id: nat, bytes: nat, buffer: bool) {
    function Charge(): Usage { if buffer then OneBuffer(bytes) else OneOperation() }
  }

  ghost function Pick(guards: set<Reservation>): Reservation
    requires guards != {}
    ensures Pick(guards) in guards
  {
    var g :| g in guards; g
  }

  /** The exact total charged by a set of guards. */
  ghost function Charges(guards: set<Reservation>): Usage {
    if guards == {} then NoUsage()
    else Pick(guards).Charge().Plus(Charges(guards - {Pick(guards)}))
  }

  lemma {:induction false} ChargesWithout(guards: set<Reservation>, g: Reservation)
    requires g in guards
    ensures Charges(guards) == g.Charge().Plus(Charges(guards - {g}))
    decreases |guards|
  {
    var p := Pick(guards);
    if p != g {
      var rest := guards - {p} - {g};
      assert guards - {g} - {p} == rest;
      ChargesWithout(guards - {p}, g);
      ChargesWithout(guards - {g}, p);
      assert Charges(guards - {p}) == g.Charge().Plus(Charges(rest));
      assert Charges(guards - {g}) == p.Charge().Plus(Charges(rest));
    }
  }

  lemma ChargesWith(guards: set<Reservation>, g: Reservation)
    requires g !in guards
    ensures Charges(guards + {g}) == g.Charge().Plus(Charges(guards))
  {
    ChargesWithout(guards + {g}, g);
    assert guards + {g} - {g} == guards;
  }

  /** Returning a guard just taken restores what was outstanding and what was used. */
  lemma Returned(guards: set<Reservation>, u: Usage, g: Reservation)
    requires g !in guards
    ensures guards + {g} - {g} == guards && u.Plus(g.Charge()).Less(g.Charge()) == u
  {
  }

  class Budget {
    const word: Word
    const limits: ResourceLimits
    var usage: Usage
    var issued: nat
    ghost var outstanding: set<Reservation>

    /** The counters are the exact sums over the outstanding guards, forgotten ones included. */
    ghost predicate Valid()
      reads this
    {
      && limits.Valid(word)
      && usage == Charges(outstanding)
      && usage.Within(limits)
      && forall g :: g in outstanding ==> g.id < issued
    }

    constructor (word: Word, limits: ResourceLimits)
      requires limits.Valid(word)
      ensures Valid() && this.word == word && this.limits == limits
      ensures outstanding == {} && usage == NoUsage()
    {
      this.word := word;
      this.limits := limits;
      usage := NoUsage();
      issued := 0;
      outstanding := {};
    }

    /** Charges one buffer, or changes nothing. The overflow check never decides. */
    method Buffer(bytes: nat) returns (r: Result<Reservation>)
      requires Valid()
      modifies this
      ensures Valid()
      ensures r.Ok? <==> limits.Room(old(usage), bytes)
      ensures r.Ok? ==>
                && r.value !in old(outstanding) && outstanding == old(outstanding) + {r.value}
                && r.value.buffer && r.value.bytes == bytes
                && usage == old(usage).Plus(OneBuffer(bytes))
      ensures r.Err? ==>
                usage == old(usage) && outstanding == old(outstanding) && r.error.ResourceLimit? &&
                  r.error.resource != Operations
    {
      var fits := Check(BufferBytes, bytes, limits.bufferBytes);
      if fits.Err? { return Err(fits.error); }
      // usage.bytes.checked_add(bytes)
      if usage.bytes + bytes > word.UsizeMax() { return Err(ResourceLimit(DeviceBytes, limits.totalBytes)); }
      var total := usage.bytes + bytes;
      var available := Check(DeviceBytes, total, limits.totalBytes);
      if available.Err? { return Err(available.error); }
      if usage.buffers >= limits.buffers { return Err(ResourceLimit(LiveBuffers, limits.buffers)); }
      var guard := Reservation(issued, bytes, true);
      ghost var guards := outstanding + {guard};
      assert Charges(guards) == OneBuffer(bytes).Plus(usage) by { ChargesWith(outstanding, guard); }
      usage := usage.(bytes := total);
      usage := usage.(buffers := usage.buffers + 1);
      issued := issued + 1;
      outstanding := guards;
      return Ok(guard);
    }

    /** Charges one operation, or changes nothing. */
    method Operation() returns (r: Result<Reservation>)
      requires Valid()
      modifies this
      ensures Valid()
      ensures r.Ok? <==> old(usage.operations) < limits.operations
      ensures r.Ok? ==>
                && r.value !in old(outstanding) && outstanding == old(outstanding) + {r.value}
                && !r.value.buffer
                && usage == old(usage).Plus(OneOperation())
      ensures r.Err? ==>
                usage == old(usage) && outstanding == old(outstanding) &&
                  r == Err(ResourceLimit(Operations, limits.operations))
    {
      if usage.operations >= limits.operations { return Err(ResourceLimit(Operations, limits.operations)); }
      var guard := Reservation(issued, 0, false);
      ghost var guards := outstanding + {guard};
      assert Charges(guards) == OneOperation().Plus(usage) by { ChargesWith(outstanding, guard); }
      usage := usage.(operations := usage.operations + 1);
      issued := issued + 1;
      outstanding := guards;
      return Ok(guard);
    }

    /** Dropping a guard: the subtractions never underflow. */
    method Release(guard: Reservation)
      requires Valid() && guard in outstanding
      modifies this
      ensures Valid()
      ensures outstanding == old(outstanding) - {guard}
      ensures old(usage) == usage.Plus(guard.Charge()) && usage == old(usage).Less(guard.Charge())
    {
      ghost var guards := outstanding - {guard};
      ghost var rest := Charges(guards);
      assert usage == guard.Charge().Plus(rest) by { ChargesWithout(outstanding, guard); }
      if guard.buffer {
        usage := usage.(bytes := usage.bytes - guard.bytes);
        usage := usage.(buffers := usage.buffers - 1);
      } else {
        usage := usage.(operations := usage.operations - 1);
      }
      assert usage == Usage(rest.bytes, rest.buffers, rest.operations);
      outstanding := guards;
    }
  }
}
