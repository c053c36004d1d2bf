/** The three statuses a booking can show, and the strings the pages compare them with. */
module BookingStatuses {

  datatype BookingStatus = Pending | Approved | Rejected

  /** The status as the mock data spells it. */
  function StatusName(s: BookingStatus): (name: string)
    ensures name in {"pending", "approved", "rejected"}
  {
    match s
    case Pending => "pending"
    case Approved => "approved"
    case Rejected => "rejected"
  }

  /** Distinct statuses have distinct names, and "all" names none of them. */
  lemma StatusNameInjective(s: BookingStatus, t: BookingStatus)
    ensures StatusName(s) == StatusName(t) <==> s == t
    ensures StatusName(s) != "all"
  {
  }

  /** `statusFilter === "all" || booking.status === statusFilter`. */
  predicate MatchesStatus(s: BookingStatus, filter: string)
    ensures filter !in {"all", "pending", "approved", "rejected"} ==> !MatchesStatus(s, filter)
    ensures forall t :: filter == StatusName(t) ==> (MatchesStatus(s, filter) <==> s == t)
  {
    filter == "all" || StatusName(s) == filter
  }
}
