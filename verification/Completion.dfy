/** The readiness of a borrowed output (src/completion.rs) and the validation that consults it. */
module Completions {
  import opened Errors
  import opened Shape
  import opened Views

  class Completion {
    ghost const home: nat  // the allocation whose content this is about
    var uncertain: bool

    constructor (ghost home: nat)
      ensures !uncertain && this.home == home
    {
      this.home := home;
      uncertain := false;
    }

    function EnsureReady(buffer: Role): Result<()>
      reads this
    {
      if uncertain then Err(InvalidBuffer(buffer)) else Ok(())
    }

    /** Before the backend call: whatever happens in it, the output is not published. */
    method Enter()
      modifies this
      ensures uncertain
    {
      uncertain := true;
    }

    /** After a backend call that returned. An unwinding call never gets here. */
    method Leave(outcome: Result<()>)
      requires uncertain
      modifies this
      ensures uncertain <==> outcome.Err?
    {
      if outcome.Err? { return; }
      uncertain := false;
    }
  }

  /** What validation reads of a buffer: local says that it belongs to the executor's session. */
  datatype Facts = Facts(shape: Shape2D, uncertain: bool, local: bool, tensor: Tensor)

  function CheckShapes(s: Shape2D, role: Role, field: Option<Facts>): Result<()> {
    if field.Some? && field.value.shape != s then Err(ShapeMismatch(role)) else Ok(())
  }

  function CheckField(ordinal: nat, s: Shape2D, role: Role, field: Option<Facts>): Result<()> {
    if field.None? then Ok(())
    else if field.value.uncertain then Err(InvalidBuffer(role))
    else if !field.value.local then Err(ContextMismatch(role))
    else
      var extent := if role == Source then (s.haloHeight, s.haloWidth) else (s.height, s.width);
      if field.value.tensor.device != ordinal
         || !MatchesMetadata(field.value.tensor.dims, extent)
         || !MatchesMetadata(field.value.tensor.strides, (extent.1, 1))
      then Err(Backend(Metadata))
      else Ok(())
  }

  /** validate_fields: both shapes first, then each buffer's readiness, session and metadata in turn. */
  function ValidateFields(ordinal: nat, source: Facts, rhs: Option<Facts>, output: Option<Facts>): Result<()> {
    var s := source.shape;
    var _ :- CheckShapes(s, Rhs, rhs);
    var _ :- CheckShapes(s, Output, output);
    var _ :- CheckField(ordinal, s, Source, Some(source));
    var _ :- CheckField(ordinal, s, Rhs, rhs);
    CheckField(ordinal, s, Output, output)
  }

  /** The metadata every constructor gives a buffer of its session. */
  ghost predicate WellMade(ordinal: nat, f: Facts, haloed: bool) {
    f.local ==> f.tensor == (if haloed then Compact(f.tensor.alloc, f.shape.haloHeight, f.shape.haloWidth, ordinal)
                             else Compact(f.tensor.alloc, f.shape.height, f.shape.width, ordinal))
  }

  /** For buffers the library made, validation accepts exactly ready buffers of one shape and session. */
  lemma ValidateAccepts(ordinal: nat, source: Facts, rhs: Option<Facts>, output: Option<Facts>)
    requires WellMade(ordinal, source, true)
    requires rhs.Some? ==> WellMade(ordinal, rhs.value, false)
    requires output.Some? ==> WellMade(ordinal, output.value, false)
    ensures ValidateFields(ordinal, source, rhs, output).Ok? <==>
            && !source.uncertain && source.local
            && (rhs.Some? ==> rhs.value.shape == source.shape && !rhs.value.uncertain && rhs.value.local)
            && (output.Some? ==> output.value.shape == source.shape && !output.value.uncertain && output.value.local)
  {
  }
}
