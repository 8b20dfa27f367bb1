/**
 * The static entry points woven checks call: a null reference produces one
 * report to the global runtime verifier, under the checker name "Nullness".
 * A Java reference is an Option: None is null.
 */
module NullnessRuntimeVerifier {
  import opened Wrappers
  import opened Runtime

  const CHECKER_NAME := "Nullness"

  /** The violation a check of o reports: one for null, none for any object. */
  function NullViolation<T>(o: Option<T>, message: string, attribution: AttributionKind): (r: Option<Violation>)
    ensures r.None? <==> o.Some?
    ensures r.Some? ==> r.value.checkerName == CHECKER_NAME && r.value.message == message && r.value.attribution == attribution
  {
    if o.None? then Some(Violation(CHECKER_NAME, message, attribution)) else None
  }

  /** checkNotNull(Object, String, AttributionKind): a null reference is reported to the handler current at the call. */
  method CheckNotNull<T>(rv: RuntimeVerifier, o: Option<T>, message: string, attribution: AttributionKind) returns (d: Option<Delivery>)
    ensures o.Some? ==> d.None?
    ensures o.None? ==> d == Some(Delivery(rv.handler, NullViolation(o, message, attribution).value))
  {
    d := None;
    if o.None? {
      var delivered := rv.ReportViolation(CHECKER_NAME, message, attribution);
      d := Some(delivered);
    }
  }

  /** checkNotNull(Object, String): the three-argument form with LOCAL attribution. */
  method CheckNotNullLocal<T>(rv: RuntimeVerifier, o: Option<T>, message: string) returns (d: Option<Delivery>)
    ensures o.Some? ==> d.None?
    ensures o.None? ==> d == Some(Delivery(rv.handler, Violation(CHECKER_NAME, message, Local)))
  {
    d := CheckNotNull(rv, o, message, Local);
  }
}
