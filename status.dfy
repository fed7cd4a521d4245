/**
 * The four payment states of `enums/PaymentStatus.java`, stored in the
 * `payment.status` column by name (`@Enumerated(EnumType.STRING)`).
 */
module Status {
  import opened Common

  datatype PaymentStatus = Pending | Completed | Failed | Refunded {

    /** `Enum.name()`: the text written to the column. */
    function Name(): (s: string)
      ensures 0 < |s| <= 20
    {
      match this
      case Pending => "PENDING"
      case Completed => "COMPLETED"
      case Failed => "FAILED"
      case Refunded => "REFUNDED"
    }
  }

  /** `PaymentStatus.valueOf`: how a stored name is read back. */
  function ValueOf(name: string): (r: Option<PaymentStatus>)
    ensures r.Some? ==> r.value.Name() == name
  {
    if name == "PENDING" then Some(Pending)
    else if name == "COMPLETED" then Some(Completed)
    else if name == "FAILED" then Some(Failed)
    else if name == "REFUNDED" then Some(Refunded)
    else None
  }

  /** Writing a status by name and reading it back gives the same status. */
  lemma NameRoundTrip(s: PaymentStatus)
    ensures ValueOf(s.Name()) == Some(s)
  {
  }

  /** Only the four names are ever read back: ValueOf is the inverse of Name. */
  lemma ValueOfOnlyNames(name: string)
    ensures ValueOf(name).Some? <==> exists s: PaymentStatus :: s.Name() == name
  {
    if exists s: PaymentStatus :: s.Name() == name {
      var s: PaymentStatus :| s.Name() == name;
      NameRoundTrip(s);
    }
  }
}
