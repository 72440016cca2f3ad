/** The connection badge of components/connection-status.tsx. */
module ConnectionBadge {
  import SerialData

  datatype Variant = Default | Secondary | Destructive | Outline

  /** The badge's variant and label for a connection status. */
  function Badge(status: SerialData.ConnectionStatus): (badge: (Variant, string))
    ensures badge.1 != "Unknown"
    ensures badge.0 == Destructive <==> status.Error?
  {
    match status
    case Connected => (Default, "Connected")
    case Connecting => (Secondary, "Connecting...")
    case Disconnected => (Outline, "Disconnected")
    case Error => (Destructive, "Error")
  }

  /** Every status gets its own label and its own variant. */
  lemma BadgeDistinguishesStatuses(s1: SerialData.ConnectionStatus, s2: SerialData.ConnectionStatus)
    ensures Badge(s1).1 == Badge(s2).1 <==> s1 == s2
    ensures Badge(s1).0 == Badge(s2).0 <==> s1 == s2
  {
  }
}
