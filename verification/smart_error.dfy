/** BDSmartError: the three error kinds the plugin reports through its GError
    domain. */
module SmartError {

  datatype Error =
    | TechUnavail      // SMART support, or the requested operation, is not available
    | Failed           // general error
    | InvalidArgument  // the caller passed something the plugin cannot use
  {
    /** The C enumerator value (implicit, in declaration order). */
    function Code(): nat {
      match this
      case TechUnavail => 0
      case Failed => 1
      case InvalidArgument => 2
    }
  }

  lemma ErrorCodesDistinct(e1: Error, e2: Error)
    requires e1.Code() == e2.Code()
    ensures e1 == e2
  {
  }
}
