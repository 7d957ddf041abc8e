/** `ParseResult` and `AnalysisResult`: a status flag and an append-only
  * list of parse errors. */
module Results {
  import opened Wrappers
  import opened ParseErrors
  import Exceptions
  import Tokens

  type ResultStatus = Tokens.ResultStatus

  /** Enumerating errors that are built one by one as they are asked for,
    * where building one may throw: the errors built before the first
    * exception, and that exception. */
  function Enumerate(pending: seq<Result<ParseError, Exceptions.Exception>>)
    : (r: (seq<ParseError>, Option<Exceptions.Exception>))
    ensures |r.0| <= |pending|
    ensures forall i :: 0 <= i < |r.0| ==> pending[i] == Ok(r.0[i])
    ensures r.1.None? <==> forall i :: 0 <= i < |pending| ==> pending[i].Ok?
    ensures r.1.None? ==> |r.0| == |pending|
    ensures r.1.Some? ==> |r.0| < |pending| && pending[|r.0|] == Err(r.1.value)
  {
    if pending == [] then ([], None)
    else if pending[0].Err? then ([], Some(pending[0].error))
    else
      var rest := Enumerate(pending[1..]);
      ([pending[0].value] + rest.0, rest.1)
  }

  class ParseResult {
    var status: ResultStatus
    var errors: seq<ParseError>

    /** A result that holds errors has failed. */
    ghost predicate Valid()
      reads this
    {
      errors != [] ==> status == Tokens.Failure
    }

    /** `new ParseResult(status)`; the status defaults to Success. */
    constructor (status: ResultStatus)
      ensures Valid()
      ensures this.status == status && errors == []
    {
      this.status := status;
      errors := [];
    }

    /** `AddError`: null is rejected before anything changes; otherwise the
      * error goes to the end and the result has failed, which makes the
      * result consistent again after an interrupted `AddErrors`. */
    method AddError(error: Option<ParseError>) returns (thrown: Option<Exceptions.Exception>)
      modifies this
      ensures error.Some? || old(Valid()) ==> Valid()
      ensures error.None? ==> thrown == Some(Exceptions.ArgumentNull("error"))
      ensures error.None? ==> status == old(status) && errors == old(errors)
      ensures error.Some? ==> thrown.None?
      ensures error.Some? ==> errors == old(errors) + [error.value] && status == Tokens.Failure
    {
      if error.None? {
        return Some(Exceptions.ArgumentNull("error"));
      }
      status := Tokens.Failure;
      errors := errors + [error.value];
      thrown := None;
    }

    /** `AddErrors`: appends the errors one by one and, when there was at
      * least one, marks the result as failed. */
    method AddErrors(newErrors: Option<seq<ParseError>>) returns (thrown: Option<Exceptions.Exception>)
      requires Valid()
      modifies this
      ensures Valid()
      ensures newErrors.None? ==> thrown == Some(Exceptions.ArgumentNull("errors"))
      ensures newErrors.None? || newErrors.value == [] ==> status == old(status) && errors == old(errors)
      ensures newErrors.Some? ==> thrown.None? && errors == old(errors) + newErrors.value
      ensures newErrors.Some? && newErrors.value != [] ==> status == Tokens.Failure
    {
      if newErrors.None? {
        return Some(Exceptions.ArgumentNull("errors"));
      }
      thrown := None;
      var es := newErrors.value;
      if es != [] {
        var i := 0;
        while i < |es|
          invariant 0 <= i <= |es|
          invariant errors == old(errors) + es[..i]
          invariant status == old(status)
        {
          errors := errors + [es[i]];
          i := i + 1;
        }
        assert es[..|es|] == es;
        status := Tokens.Failure;
      }
    }

    /** `AddErrors` given a lazily built sequence: `Any()` builds the first
      * error, then the loop builds them all again and appends each; an
      * exception while building leaves the errors appended so far and the
      * status as it was, so the result may hold errors while not failed. */
    method AddErrorsFrom(pending: seq<Result<ParseError, Exceptions.Exception>>) returns (thrown: Option<Exceptions.Exception>)
      requires Valid()
      modifies this
      ensures thrown.None? ==> Valid()
      ensures errors == old(errors) + Enumerate(pending).0 && thrown == Enumerate(pending).1
      ensures status == if thrown.None? && pending != [] then Tokens.Failure else old(status)
    {
      if pending == [] {
        return None;
      }
      if pending[0].Err? {
        assert Enumerate(pending) == ([], Some(pending[0].error));
        return Some(pending[0].error);
      }
      ghost var full := Enumerate(pending);
      var added: seq<ParseError> := [];
      var i := 0;
      while i < |pending|
        invariant 0 <= i <= |pending| && i <= |full.0|
        invariant forall j :: 0 <= j < i ==> pending[j].Ok?
        invariant added == full.0[..i]
      {
        if pending[i].Err? {
          assert |full.0| == i;
          assert added == full.0;
          errors := errors + added;
          return Some(pending[i].error);
        }
        added := added + [pending[i].value];
        i := i + 1;
      }
      assert added == full.0;
      errors := errors + added;
      status := Tokens.Failure;
      thrown := None;
    }
  }

  class AnalysisResult {
    var status: ResultStatus
    var errors: seq<ParseError>
    var hasCommandsDefined: bool

    /** The status is Failure exactly when errors were recorded. */
    ghost predicate Valid()
      reads this
    {
      status == Tokens.Failure <==> errors != []
    }

    constructor ()
      ensures Valid()
      ensures status == Tokens.Success && errors == [] && !hasCommandsDefined
    {
      status := Tokens.Success;
      errors := [];
      hasCommandsDefined := false;
    }

    function Success(): bool
      reads this
    {
      status == Tokens.Success
    }

    function Failure(): bool
      reads this
    {
      status == Tokens.Failure
    }

    /** `Success` and `Failure` never agree. */
    lemma SuccessIsNotFailure()
      ensures Success() == !Failure()
    {
    }

    method AddError(error: Option<ParseError>) returns (thrown: Option<Exceptions.Exception>)
      requires Valid()
      modifies this`status, this`errors
      ensures Valid()
      ensures error.None? ==> thrown == Some(Exceptions.ArgumentNull("error"))
      ensures error.None? ==> status == old(status) && errors == old(errors)
      ensures error.Some? ==> thrown.None?
      ensures error.Some? ==> errors == old(errors) + [error.value] && status == Tokens.Failure
    {
      if error.None? {
        return Some(Exceptions.ArgumentNull("error"));
      }
      status := Tokens.Failure;
      errors := errors + [error.value];
      thrown := None;
    }

    method AddErrors(newErrors: Option<seq<ParseError>>) returns (thrown: Option<Exceptions.Exception>)
      requires Valid()
      modifies this`status, this`errors
      ensures Valid()
      ensures newErrors.None? ==> thrown == Some(Exceptions.ArgumentNull("errors"))
      ensures newErrors.None? || newErrors.value == [] ==> status == old(status) && errors == old(errors)
      ensures newErrors.Some? ==> thrown.None? && errors == old(errors) + newErrors.value
      ensures newErrors.Some? && newErrors.value != [] ==> status == Tokens.Failure
    {
      if newErrors.None? {
        return Some(Exceptions.ArgumentNull("errors"));
      }
      thrown := None;
      var es := newErrors.value;
      if es != [] {
        var i := 0;
        while i < |es|
          invariant 0 <= i <= |es|
          invariant errors == old(errors) + es[..i]
          invariant status == old(status)
        {
          errors := errors + [es[i]];
          i := i + 1;
        }
        assert es[..|es|] == es;
        status := Tokens.Failure;
      }
    }
  }
}
