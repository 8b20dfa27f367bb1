/**
 * The runtime side reached by woven checks: the attribution of a violation,
 * the global, swappable violation handler and the report that reaches it.
 */
module Runtime {
  import opened Wrappers

  /** Which stack frame a violation is blamed on. */
  datatype AttributionKind = Local | Caller

  /** Enum.name() of an attribution kind. */
  function AttributionName(k: AttributionKind): string {
    match k
    case Local => "LOCAL"
    case Caller => "CALLER"
  }

  /** Enum.valueOf for attribution kinds. */
  function AttributionNamed(name: string): Option<AttributionKind> {
    if name == "LOCAL" then Some(Local)
    else if name == "CALLER" then Some(Caller)
    else None
  }

  /** A failed check: the checker that found it, its message and its attribution. */
  datatype Violation = Violation(checkerName: string, message: string, attribution: AttributionKind)

  /**
   * A violation handler, identified by its kind: the built-in throwing and
   * logging handlers, the test handler, or a user class. What a handler does
   * with a violation (throw, print) is not modelled.
   */
  datatype ViolationHandler =
    | ThrowingViolationHandler
    | LoggingViolationHandler
    | TestViolationHandler
    | CustomViolationHandler(className: string)

  /** A report delivered to a handler. */
  datatype Delivery = Delivery(handler: ViolationHandler, violation: Violation)

  /** The holder of the process-wide handler (a static volatile field in the source). */
  class RuntimeVerifier {
    var handler: ViolationHandler

    constructor ()
      ensures handler == ThrowingViolationHandler
    {
      handler := ThrowingViolationHandler;
    }

    /** Replaces the handler; a null handler is refused and leaves the current one in place. */
    method SetViolationHandler(newHandler: Option<ViolationHandler>) returns (r: Result<()>)
      modifies this
      ensures newHandler.None? ==> r == Raised(IllegalArgument("ViolationHandler cannot be null")) && handler == old(handler)
      ensures newHandler.Some? ==> r == Ok(()) && handler == newHandler.value
    {
      if newHandler.None? {
        return Raised(IllegalArgument("ViolationHandler cannot be null"));
      }
      handler := newHandler.value;
      r := Ok(());
    }

    /** Forwards a violation to whichever handler is current at the time of the call. */
    method ReportViolation(checkerName: string, message: string, attribution: AttributionKind) returns (d: Delivery)
      ensures d.handler == handler
      ensures d.violation.checkerName == checkerName && d.violation.message == message
      ensures d.violation.attribution == attribution
    {
      d := Delivery(handler, Violation(checkerName, message, attribution));
    }
  }

  /** After a successful SetViolationHandler, every report goes to the new handler. */
  method SwapThenReport(rv: RuntimeVerifier, h: ViolationHandler, name: string, msg: string, k: AttributionKind)
    returns (d: Delivery)
    modifies rv
    ensures d == Delivery(h, Violation(name, msg, k))
  {
    var _ := rv.SetViolationHandler(Some(h));
    d := rv.ReportViolation(name, msg, k);
  }
}
