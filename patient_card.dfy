/** The patient record and the two status mappings of the patient card. */
module PatientCard {
  import opened Common

  /** A patient's latest vital signs; heart rate and oxygen saturation are whole numbers in
      every record the dashboard produces, temperature is a decimal reading shown as is. */
  datatype Vitals = Vitals(heartRate: int, temperature: real, bloodPressure: string, oxygenSaturation: int)

  /** One patient. `status` is one of "critical", "warning", "stable", "good" in the data the
      dashboard produces, but the card's helpers accept any string. */
  datatype Patient = Patient(
    id: string, name: string, age: int, room: string,
    status: string, lastUpdate: string, vitals: Vitals)

  const KnownStatuses: set<string> := {"critical", "warning", "stable", "good"}

  /** The badge variant for a patient status; unrecognised statuses fall back to `Secondary`. */
  function StatusColor(status: string): (v: Variant)
    ensures v == Destructive <==> status == "critical"
    ensures v == Warning <==> status == "warning"
    ensures v == Info <==> status == "stable"
    ensures v == Success <==> status == "good"
    ensures v == Secondary <==> status !in KnownStatuses
  {
    match status
    case "critical" => Destructive
    case "warning" => Warning
    case "stable" => Info
    case "good" => Success
    case _ => Secondary
  }

  const CriticalIcon: string := "\U{1F6A8}"
  const WarningIcon: string := "\U{26A0}\U{FE0F}"
  const StableIcon: string := "\U{1F4CA}"
  const GoodIcon: string := "\U{2705}"
  const FallbackIcon: string := "\U{1F4CB}"

  /** The emoji shown in front of a status; unrecognised statuses get the clipboard fallback. */
  function StatusIcon(status: string): (icon: string)
    ensures icon == CriticalIcon <==> status == "critical"
    ensures icon == WarningIcon <==> status == "warning"
    ensures icon == StableIcon <==> status == "stable"
    ensures icon == GoodIcon <==> status == "good"
    ensures icon == FallbackIcon <==> status !in KnownStatuses
  {
    match status
    case "critical" => CriticalIcon
    case "warning" => WarningIcon
    case "stable" => StableIcon
    case "good" => GoodIcon
    case _ => FallbackIcon
  }

  /** Distinct known statuses get distinct badge variants and distinct icons, and none of them
      shares the fallback of an unrecognised status. */
  lemma StatusMappingsInjective(s: string, t: string)
    requires s in KnownStatuses
    ensures StatusColor(s) != Secondary && StatusIcon(s) != FallbackIcon
    ensures t != s ==> StatusColor(t) != StatusColor(s) && StatusIcon(t) != StatusIcon(s)
  {
  }

  /** What a patient card shows: the badge, the raw vitals, and the id its "View Details"
      button reports. */
  datatype Card = Card(
    title: string, room: string, badgeVariant: Variant, badgeIcon: string,
    vitals: Vitals, lastUpdate: string, viewDetailsId: string)

  /** The card one patient renders as. */
  function RenderCard(p: Patient): (c: Card)
    ensures c.viewDetailsId == p.id && c.title == p.name
    ensures c.badgeVariant == Destructive <==> p.status == "critical"
    ensures c.badgeIcon == FallbackIcon <==> p.status !in KnownStatuses
    ensures c.badgeVariant == StatusColor(p.status) && c.badgeIcon == StatusIcon(p.status)
    ensures c.room == p.room && c.lastUpdate == p.lastUpdate
    ensures c.vitals == p.vitals
  {
    Card(p.name, p.room, StatusColor(p.status), StatusIcon(p.status), p.vitals, p.lastUpdate, p.id)
  }
}
