/**
 * The WPF value converters of the installer's window,
 * Monitoring.Setup.Wpf/Converters.cs. A binding hands a converter boxed
 * objects; the model keeps what the converters look at: null, a boxed bool,
 * or some other object.
 */
module Converters {
  import opened Telemetry

  /** A C# `object` as a converter receives it. */
  datatype Obj = NullObj | Boxed(b: bool) | OtherObj

  /** System.Windows.Visibility. */
  datatype Visibility = Visible | Hidden | Collapsed

  /** The cast `(bool)value`: null throws NullReferenceException, any other non-bool InvalidCastException. */
  function Unbox(o: Obj): (r: Result<bool, Fault>)
    ensures r.Ok? <==> o.Boxed?
    ensures r.Ok? ==> r.value == o.b
    ensures o == NullObj ==> r == Err(NullReference)
    ensures o == OtherObj ==> r == Err(InvalidCast)
  {
    match o
    case NullObj => Err(NullReference)
    case Boxed(b) => Ok(b)
    case OtherObj => Err(InvalidCast)
  }

  // ---------------------------------------------------------------------
  // ReverseBoolConverter
  // ---------------------------------------------------------------------

  /**
   * ReverseBoolConverter.Convert, and ConvertBack, whose body is the same:
   * `value != null && !(bool)value`. The null test short-circuits, so null
   * reads as false; only a non-bool object makes the cast throw.
   */
  function ReverseBool(value: Obj): (r: Result<bool, Fault>)
    ensures r.Err? <==> value == OtherObj
    ensures r.Err? ==> r.error == InvalidCast
    ensures r.Ok? ==> (r.value <==> value == Boxed(false))
  {
    if value == NullObj then Ok(false)
    else match Unbox(value)
      case Err(f) => Err(f)
      case Ok(b) => Ok(!b)
  }

  /** For a bool, ConvertBack undoes Convert. */
  lemma ReverseBoolRoundTrip(b: bool)
    ensures ReverseBool(Boxed(b)).Ok?
    ensures ReverseBool(Boxed(ReverseBool(Boxed(b)).value)) == Ok(b)
  {
  }

  /** A null source is not restored: Convert gives false and ConvertBack of that gives true. */
  lemma ReverseBoolNullNotRestored()
    ensures ReverseBool(NullObj) == Ok(false)
    ensures ReverseBool(Boxed(ReverseBool(NullObj).value)) == Ok(true)
  {
  }

  // ---------------------------------------------------------------------
  // MultiBoolAndConverterToVisibility
  // ---------------------------------------------------------------------

  predicate AllTrue(values: seq<Obj>) {
    forall i :: 0 <= i < |values| ==> values[i] == Boxed(true)
  }

  /**
   * The `foreach (bool value in values)` scan: each element is cast in turn;
   * the first false gives Collapsed, a failed cast throws, and a scan that
   * reaches the end gives Visible.
   */
  function Conjunction(values: seq<Obj>): (r: Result<Visibility, Fault>)
    ensures r.Ok? ==> r.value != Hidden
  {
    if values == [] then Ok(Visible)
    else match Unbox(values[0])
      case Err(f) => Err(f)
      case Ok(b) => if !b then Ok(Collapsed) else Conjunction(values[1..])
  }

  /** What one element decides when the scan stops at it: its cast's exception, or Collapsed for false. */
  function Verdict(o: Obj): Result<Visibility, Fault> {
    match Unbox(o)
    case Err(f) => Err(f)
    case Ok(b) => if b then Ok(Visible) else Ok(Collapsed)
  }

  /**
   * The scan's outcome is decided by the first element that is not a boxed
   * true: Visible when there is none, Collapsed when it is a boxed false,
   * and the cast's exception otherwise.
   */
  lemma {:induction false} ConjunctionFirstDeciding(values: seq<Obj>)
    ensures AllTrue(values) <==> Conjunction(values) == Ok(Visible)
    ensures !AllTrue(values) ==>
      (exists i :: 0 <= i < |values| && values[i] != Boxed(true) && AllTrue(values[..i]) &&
         Conjunction(values) == Verdict(values[i]))
  {
    if values != [] {
      ConjunctionFirstDeciding(values[1..]);
      if values[0] == Boxed(true) {
        assert AllTrue(values) <==> AllTrue(values[1..]) by {
          if AllTrue(values[1..]) {
            forall i | 0 <= i < |values| ensures values[i] == Boxed(true) {
              if i > 0 { assert values[i] == values[1..][i - 1]; }
            }
          }
        }
        if !AllTrue(values) {
          var j :| 0 <= j < |values[1..]| && values[1..][j] != Boxed(true) && AllTrue(values[1..][..j]) &&
            Conjunction(values[1..]) == Verdict(values[1..][j]);
          assert values[..j + 1] == [values[0]] + values[1..][..j];
          assert values[j + 1] == values[1..][j];
        }
      } else {
        assert values[..0] == [];
      }
    }
  }

  /** For boxed bools only, the converter is the conjunction: Visible exactly when all are true. */
  lemma ConjunctionOfBools(values: seq<Obj>)
    requires forall i :: 0 <= i < |values| ==> values[i].Boxed?
    ensures Conjunction(values).Ok?
    ensures Conjunction(values) == Ok(Visible) <==> forall i :: 0 <= i < |values| ==> values[i].b
    ensures Conjunction(values) == Ok(Collapsed) <==> exists i :: 0 <= i < |values| && !values[i].b
  {
    ConjunctionFirstDeciding(values);
    if !AllTrue(values) {
      var i :| 0 <= i < |values| && values[i] != Boxed(true) && AllTrue(values[..i]) &&
        Conjunction(values) == Verdict(values[i]);
      assert !values[i].b;
    }
  }

  /** MultiBoolAndConverterToVisibility.Convert, the loop as written. */
  method MultiBoolAndConvert(values: seq<Obj>) returns (r: Result<Visibility, Fault>)
    ensures r == Conjunction(values)
  {
    var i := 0;
    while i < |values|
      invariant 0 <= i <= |values|
      invariant Conjunction(values) == Conjunction(values[i..])
    {
      assert values[i..][1..] == values[i + 1..];
      match Unbox(values[i])
      case Err(f) =>
        return Err(f);
      case Ok(value) =>
        if !value {
          return Ok(Collapsed);
        }
      i := i + 1;
    }
    assert values[i..] == [];
    return Ok(Visible);
  }

  /**
   * ConvertBack of ProgressPercentageConverter and of
   * MultiBoolAndConverterToVisibility: both throw NotImplementedException
   * whatever they are given.
   */
  function ConvertBackUnsupported(value: Obj): (r: Result<seq<Obj>, Fault>)
    ensures r.Err? && r.error == NotImplemented
  {
    Err(NotImplemented)
  }
}
