/**
 * The validation pass shared by `WarehouseManager` and `TypeManager`: every
 * registered validator runs, in order, and the errors of each failing one
 * are collected; the pass succeeds exactly when nothing was collected.
 */
module Validation {
  import opened Wrappers
  import opened WarehouseResults

  /** A validator: its verdict on a subject, or the exception it throws. */
  type Validator<!E> = E -> Outcome<WarehouseResult>

  /** `List.AddRange(null)` throws, naming its parameter. */
  const NullErrors: Exception := Exception(ArgumentNull, "collection")

  /** Enumerating a null validator sequence dereferences it. */
  const NullValidators: Exception := NullDereference

  /**
   * The errors the loop has collected after running `validators` in order:
   * a throwing validator ends the pass with its exception, a success adds
   * nothing, a failure adds its errors (and a null error array makes
   * `AddRange` throw).
   */
  function Collected<E>(validators: seq<Validator<E>>, subject: E): Outcome<seq<WarehouseError>> {
    if |validators| == 0 then Return([])
    else match Collected(validators[..|validators| - 1], subject)
      case Throw(e) => Throw(e)
      case Return(errors) =>
        match validators[|validators| - 1](subject)
        case Throw(e) => Throw(e)
        case Return(result) =>
          if result.succeeded then Return(errors)
          else if result.errors.None? then Throw(NullErrors)
          else Return(errors + result.errors.value)
  }

  /** The outcome of the pass: the shared `Success` when no error was collected, otherwise `Failed(errors)`. */
  function Verdict<E>(validators: Option<seq<Validator<E>>>, subject: E): Outcome<WarehouseResult> {
    if validators.None? then Throw(NullValidators)
    else match Collected(validators.value, subject)
      case Throw(e) => Throw(e)
      case Return(errors) => Return(if |errors| == 0 then Success() else Failed(errors))
  }

  /** `ValidateAsync`: the foreach loop over the validators. */
  method Validate<E>(validators: Option<seq<Validator<E>>>, subject: E) returns (r: Outcome<WarehouseResult>)
    ensures r == Verdict(validators, subject)
  {
    if validators.None? {
      return Throw(NullValidators);
    }
    var vs := validators.value;
    var errors: seq<WarehouseError> := [];
    var i := 0;
    while i < |vs|
      invariant 0 <= i <= |vs|
      invariant Collected(vs[..i], subject) == Return(errors)
    {
      assert vs[..i + 1][..i] == vs[..i];
      var result := vs[i](subject);
      if result.Throw? {
        PrefixThrowPersists(vs, i + 1, subject);
        return Throw(result.exception);
      }
      if !result.value.succeeded {
        if result.value.errors.None? {
          PrefixThrowPersists(vs, i + 1, subject);
          return Throw(NullErrors);
        }
        errors := errors + result.value.errors.value;
      }
      i := i + 1;
    }
    assert vs[..i] == vs;
    return Return(if |errors| == 0 then Success() else Failed(errors));
  }

  /** Once a prefix of the validators throws, the whole pass throws the same exception. */
  lemma {:induction false} PrefixThrowPersists<E>(vs: seq<Validator<E>>, k: nat, subject: E)
    requires k <= |vs| && Collected(vs[..k], subject).Throw?
    ensures Collected(vs, subject) == Collected(vs[..k], subject)
    decreases |vs| - k
  {
    if k < |vs| {
      assert vs[..k + 1][..k] == vs[..k];
      PrefixThrowPersists(vs, k + 1, subject);
    } else {
      assert vs[..k] == vs;
    }
  }

  /** The errors of the failing results, in order. */
  function FailureErrors(results: seq<WarehouseResult>): seq<WarehouseError> {
    if |results| == 0 then []
    else
      var last := results[|results| - 1];
      FailureErrors(results[..|results| - 1])
        + (if last.succeeded || last.errors.None? then [] else last.errors.value)
  }

  /** The verdicts of the validators on the subject, when none of them throws. */
  function Verdicts<E>(vs: seq<Validator<E>>, subject: E): (rs: seq<WarehouseResult>)
    requires forall i :: 0 <= i < |vs| ==> vs[i](subject).Return?
    ensures |rs| == |vs|
    ensures forall i :: 0 <= i < |vs| ==> rs[i] == vs[i](subject).value
  {
    seq(|vs|, i requires 0 <= i < |vs| => vs[i](subject).value)
  }

  /**
   * No short circuit: when no validator throws and every failure carries an
   * error array, the pass collects the errors of every failing validator,
   * in registration order, not only those of the first.
   */
  lemma {:induction false} NoShortCircuit<E>(vs: seq<Validator<E>>, subject: E)
    requires forall i :: 0 <= i < |vs| ==> vs[i](subject).Return?
    requires forall i :: 0 <= i < |vs| ==> vs[i](subject).value.succeeded || vs[i](subject).value.errors.Some?
    ensures Collected(vs, subject) == Return(FailureErrors(Verdicts(vs, subject)))
  {
    if |vs| > 0 {
      var init := vs[..|vs| - 1];
      NoShortCircuit(init, subject);
      var rs := Verdicts(vs, subject);
      assert rs[..|rs| - 1] == Verdicts(init, subject);
      var final := vs[|vs| - 1](subject);
      assert final.Return? && (final.value.succeeded || final.value.errors.Some?);
      var last := final.value;
      assert rs[|rs| - 1] == last;
      var before := FailureErrors(Verdicts(init, subject));
      assert Collected(init, subject) == Return(before);
      if last.succeeded {
        assert before + [] == before;
        assert Collected(vs, subject) == Return(before);
      } else {
        assert Collected(vs, subject) == Return(before + last.errors.value);
      }
      assert FailureErrors(rs) == before + (if last.succeeded then [] else last.errors.value);
    }
  }

  /**
   * A validator that fails with an empty error array does not block: when
   * every failure has no errors, the pass is the shared `Success`.
   */
  lemma {:induction false} EmptyFailuresDoNotBlock<E>(vs: seq<Validator<E>>, subject: E)
    requires forall i :: 0 <= i < |vs| ==> vs[i](subject).Return?
    requires forall i :: 0 <= i < |vs| ==> vs[i](subject).value.succeeded || vs[i](subject).value.errors == Some([])
    ensures Collected(vs, subject) == Return([])
    ensures Verdict(Some(vs), subject) == Return(Success())
  {
    if |vs| > 0 {
      var init := vs[..|vs| - 1];
      EmptyFailuresDoNotBlock(init, subject);
      var final := vs[|vs| - 1](subject);
      assert final.Return? && (final.value.succeeded || final.value.errors == Some([]));
      var none: seq<WarehouseError> := [];
      assert none + none == none;
      assert Collected(vs, subject) == Return([]);
    }
  }

  /** A failure with at least one error always makes the pass fail, wherever it sits. */
  lemma FailureWithErrorsBlocks<E>(vs: seq<Validator<E>>, subject: E, k: nat)
    requires forall i :: 0 <= i < |vs| ==> vs[i](subject).Return?
    requires forall i :: 0 <= i < |vs| ==> vs[i](subject).value.succeeded || vs[i](subject).value.errors.Some?
    requires k < |vs| && !vs[k](subject).value.succeeded && |vs[k](subject).value.errors.value| > 0
    ensures Verdict(Some(vs), subject).Return? && !Verdict(Some(vs), subject).value.succeeded
  {
    NoShortCircuit(vs, subject);
    FailureErrorsContains(Verdicts(vs, subject), k);
  }

  /** The collected errors include those of every failing result. */
  lemma {:induction false} FailureErrorsContains(results: seq<WarehouseResult>, k: nat)
    requires k < |results| && !results[k].succeeded && results[k].errors.Some?
    ensures |FailureErrors(results)| >= |results[k].errors.value|
  {
    var init := results[..|results| - 1];
    if k < |results| - 1 {
      assert init[k] == results[k];
      FailureErrorsContains(init, k);
    }
  }
}
