/** The alert record and what the alerts panel derives from a list of alerts. */
module AlertsPanel {
  import opened Common
  import opened Seqs

  /** One alert. `severity` is one of "critical", "warning", "info" in the data the dashboard
      produces, but the panel's helpers accept any string. Ids are not required to be unique. */
  datatype Alert = Alert(
    id: string, patientName: string, patientId: string,
    severity: string, message: string, timestamp: string, acknowledged: bool)

  const KnownSeverities: set<string> := {"critical", "warning", "info"}

  /** The icons the panel puts in front of an alert. */
  datatype Icon = AlertTriangle | Clock | CheckCircle

  /** The icon for a severity; an unrecognised severity gets no icon (`null`). */
  function SeverityIcon(severity: string): (icon: Option<Icon>)
    ensures icon == Some(AlertTriangle) <==> severity == "critical"
    ensures icon == Some(Clock) <==> severity == "warning"
    ensures icon == Some(CheckCircle) <==> severity == "info"
    ensures icon == None <==> severity !in KnownSeverities
  {
    match severity
    case "critical" => Some(AlertTriangle)
    case "warning" => Some(Clock)
    case "info" => Some(CheckCircle)
    case _ => None
  }

  /** The badge variant for a severity; an unrecognised severity falls back to `Secondary`. */
  function SeverityVariant(severity: string): (v: Variant)
    ensures v == Destructive <==> severity == "critical"
    ensures v == Warning <==> severity == "warning"
    ensures v == Info <==> severity == "info"
    ensures v == Secondary <==> severity !in KnownSeverities
    ensures v != Success
  {
    match severity
    case "critical" => Destructive
    case "warning" => Warning
    case "info" => Info
    case _ => Secondary
  }

  /** The alerts still waiting for acknowledgement, in list order. */
  function UnacknowledgedAlerts(alerts: seq<Alert>): (r: seq<Alert>)
    ensures |r| <= |alerts|
    ensures forall a :: a in r <==> a in alerts && !a.acknowledged
  {
    Filter(alerts, (a: Alert) => !a.acknowledged)
  }

  /** The alerts already acknowledged, in list order. */
  function AcknowledgedAlerts(alerts: seq<Alert>): (r: seq<Alert>)
    ensures |r| <= |alerts|
    ensures forall a :: a in r <==> a in alerts && a.acknowledged
  {
    Filter(alerts, (a: Alert) => a.acknowledged)
  }

  /** The two groups partition the list: every alert lands in exactly one of them, as often as
      it occurs in the list. */
  lemma PartitionAlerts(alerts: seq<Alert>)
    ensures multiset(UnacknowledgedAlerts(alerts)) + multiset(AcknowledgedAlerts(alerts)) == multiset(alerts)
    ensures |UnacknowledgedAlerts(alerts)| + |AcknowledgedAlerts(alerts)| == |alerts|
    ensures forall a :: a in UnacknowledgedAlerts(alerts) <==> a in alerts && !a.acknowledged
    ensures forall a :: a in AcknowledgedAlerts(alerts) <==> a in alerts && a.acknowledged
    ensures |UnacknowledgedAlerts(alerts)| > 0 <==> exists a :: a in alerts && !a.acknowledged
    ensures |AcknowledgedAlerts(alerts)| > 0 <==> exists a :: a in alerts && a.acknowledged
  {
    FilterSplit(alerts, (a: Alert) => !a.acknowledged, (a: Alert) => a.acknowledged);
    if |UnacknowledgedAlerts(alerts)| > 0 {
      assert UnacknowledgedAlerts(alerts)[0] in UnacknowledgedAlerts(alerts);
    }
    if |AcknowledgedAlerts(alerts)| > 0 {
      assert AcknowledgedAlerts(alerts)[0] in AcknowledgedAlerts(alerts);
    }
  }

  /** Each group keeps the relative order of the list it is taken from. */
  lemma GroupsKeepOrder(front: seq<Alert>, back: seq<Alert>)
    ensures UnacknowledgedAlerts(front + back) == UnacknowledgedAlerts(front) + UnacknowledgedAlerts(back)
    ensures AcknowledgedAlerts(front + back) == AcknowledgedAlerts(front) + AcknowledgedAlerts(back)
  {
    FilterConcat(front, back, (a: Alert) => !a.acknowledged);
    FilterConcat(front, back, (a: Alert) => a.acknowledged);
  }

  /** The buttons an alert entry offers; each carries the id it reports back. */
  datatype Button = AckButton(alertId: string) | DismissButton(alertId: string)

  /** One rendered alert: its icon, its severity badge (only unacknowledged entries have one)
      and its buttons. */
  datatype Entry = Entry(alert: Alert, icon: Option<Icon>, severityBadge: Option<Variant>, buttons: seq<Button>)

  /** The panel's content: the empty state, or the unacknowledged entries followed by the
      acknowledged section (its header count, when shown, and its entries). */
  datatype Body =
    | NoRecentAlerts
    | Listing(unacknowledged: seq<Entry>, acknowledgedHeader: Option<nat>, acknowledged: seq<Entry>)

  /** The whole panel: the "New" badge count, when shown, and the body. */
  datatype Panel = Panel(newBadge: Option<nat>, body: Body)

  /** At most this many acknowledged alerts are rendered. */
  const AcknowledgedShown: nat := 3

  /** An unacknowledged alert renders with its severity badge, "Ack" and dismiss. */
  function UnacknowledgedEntry(a: Alert): (e: Entry)
    ensures e.alert == a && e.icon == SeverityIcon(a.severity)
    ensures e.severityBadge == Some(SeverityVariant(a.severity))
    ensures AckButton(a.id) in e.buttons && DismissButton(a.id) in e.buttons
    ensures forall b :: b in e.buttons ==> b.alertId == a.id
  {
    Entry(a, SeverityIcon(a.severity), Some(SeverityVariant(a.severity)), [AckButton(a.id), DismissButton(a.id)])
  }

  /** An acknowledged alert renders without a severity badge and offers only dismiss. */
  function AcknowledgedEntry(a: Alert): (e: Entry)
    ensures e.alert == a && e.icon == SeverityIcon(a.severity)
    ensures e.severityBadge.None?
    ensures DismissButton(a.id) in e.buttons
    ensures forall b :: b in e.buttons ==> b == DismissButton(a.id)
  {
    Entry(a, SeverityIcon(a.severity), None, [DismissButton(a.id)])
  }

  /** The `unacknowledgedAlerts.map` of the panel: one unacknowledged entry per alert. */
  function UnacknowledgedEntries(group: seq<Alert>): (r: seq<Entry>)
    ensures EntryAlerts(r) == group
    ensures forall e :: e in r ==> e == UnacknowledgedEntry(e.alert)
  {
    seq(|group|, i requires 0 <= i < |group| => UnacknowledgedEntry(group[i]))
  }

  /** The `.map` over the acknowledged alerts that are shown: one acknowledged entry per alert. */
  function AcknowledgedEntries(group: seq<Alert>): (r: seq<Entry>)
    ensures EntryAlerts(r) == group
    ensures forall e :: e in r ==> e == AcknowledgedEntry(e.alert)
  {
    seq(|group|, i requires 0 <= i < |group| => AcknowledgedEntry(group[i]))
  }

  /** The alerts a list of entries shows, in order. */
  function EntryAlerts(entries: seq<Entry>): (r: seq<Alert>)
  {
    seq(|entries|, i requires 0 <= i < |entries| => entries[i].alert)
  }

  /** The panel for a list of alerts. */
  function RenderPanel(alerts: seq<Alert>): (p: Panel)
    // the "New" badge appears exactly when some alert is unacknowledged, and shows their number
    ensures p.newBadge.Some? <==> exists a :: a in alerts && !a.acknowledged
    ensures p.newBadge.Some? ==> p.newBadge.value == |UnacknowledgedAlerts(alerts)| && p.newBadge.value > 0
    // the empty state is taken exactly for an empty list
    ensures p.body.NoRecentAlerts? <==> alerts == []
    // otherwise: every unacknowledged alert, then the first three acknowledged ones
    ensures p.body.Listing? ==>
      && EntryAlerts(p.body.unacknowledged) == UnacknowledgedAlerts(alerts)
      && EntryAlerts(p.body.acknowledged) == AcknowledgedAlerts(alerts)[..Min(AcknowledgedShown, |AcknowledgedAlerts(alerts)|)]
    // the acknowledged section has a header with the full count exactly when it is non-empty
    ensures p.body.Listing? ==>
      && (p.body.acknowledgedHeader.Some? <==> exists a :: a in alerts && a.acknowledged)
      && (p.body.acknowledgedHeader.Some? ==> p.body.acknowledgedHeader.value == |AcknowledgedAlerts(alerts)|)
      && (p.body.acknowledgedHeader.None? ==> p.body.acknowledged == [])
    // each entry is rendered according to its group
    ensures p.body.Listing? ==>
      && (forall e :: e in p.body.unacknowledged ==> e == UnacknowledgedEntry(e.alert))
      && (forall e :: e in p.body.acknowledged ==> e == AcknowledgedEntry(e.alert))
  {
    var unacked := UnacknowledgedAlerts(alerts);
    var acked := AcknowledgedAlerts(alerts);
    var badge := if |unacked| > 0 then Some(|unacked|) else None;
    PartitionAlerts(alerts);
    if |alerts| == 0 then
      Panel(badge, NoRecentAlerts)
    else
      var header := if |acked| > 0 then Some(|acked|) else None;
      var shown := if |acked| > 0 then acked[..Min(AcknowledgedShown, |acked|)] else [];
      Panel(badge, Listing(UnacknowledgedEntries(unacked), header, AcknowledgedEntries(shown)))
  }

  /** The alerts in the order the panel renders them. */
  function Rendered(p: Panel): (r: seq<Alert>)
  {
    match p.body
    case NoRecentAlerts => []
    case Listing(unacked, _, acked) => EntryAlerts(unacked) + EntryAlerts(acked)
  }

  /** The panel renders every unacknowledged alert before the acknowledged ones, never renders
      an alert more often than the list holds it, and renders all of them when at most three
      are acknowledged. */
  lemma RenderedAlerts(alerts: seq<Alert>)
    ensures Rendered(RenderPanel(alerts)) ==
      UnacknowledgedAlerts(alerts) + AcknowledgedAlerts(alerts)[..Min(AcknowledgedShown, |AcknowledgedAlerts(alerts)|)]
    ensures |Rendered(RenderPanel(alerts))| == |UnacknowledgedAlerts(alerts)| + Min(3, |AcknowledgedAlerts(alerts)|)
    ensures multiset(Rendered(RenderPanel(alerts))) <= multiset(alerts)
    ensures |AcknowledgedAlerts(alerts)| <= 3 ==> multiset(Rendered(RenderPanel(alerts))) == multiset(alerts)
  {
    var unacked, acked := UnacknowledgedAlerts(alerts), AcknowledgedAlerts(alerts);
    var n := Min(AcknowledgedShown, |acked|);
    var p := RenderPanel(alerts);
    PartitionAlerts(alerts);
    if alerts == [] {
      assert unacked == [] && acked == [];
    } else {
      assert Rendered(p) == EntryAlerts(p.body.unacknowledged) + EntryAlerts(p.body.acknowledged);
    }
    assert Rendered(p) == unacked + acked[..n];
    calc {
      multiset(alerts);
      multiset(unacked) + multiset(acked);
      { assert acked == acked[..n] + acked[n..]; }
      multiset(unacked) + multiset(acked[..n]) + multiset(acked[n..]);
      multiset(Rendered(p)) + multiset(acked[n..]);
    }
    if |acked| <= 3 {
      assert acked[n..] == [];
    }
  }

  /** An entry in the unacknowledged group is for an unacknowledged alert and offers both
      "Ack" and dismiss, each reporting that alert's own id. */
  lemma UnacknowledgedEntryButtons(alerts: seq<Alert>, e: Entry)
    requires RenderPanel(alerts).body.Listing?
    requires e in RenderPanel(alerts).body.unacknowledged
    ensures e.alert in alerts && !e.alert.acknowledged
    ensures AckButton(e.alert.id) in e.buttons && DismissButton(e.alert.id) in e.buttons
    ensures forall b :: b in e.buttons ==> b.alertId == e.alert.id
  {
    var body := RenderPanel(alerts).body;
    var i :| 0 <= i < |body.unacknowledged| && body.unacknowledged[i] == e;
    assert e.alert == EntryAlerts(body.unacknowledged)[i];
    assert e.alert in UnacknowledgedAlerts(alerts);
  }

  /** An entry in the acknowledged group is for an acknowledged alert and offers only dismiss,
      reporting that alert's own id: no "Ack" button. */
  lemma AcknowledgedEntryButtons(alerts: seq<Alert>, e: Entry)
    requires RenderPanel(alerts).body.Listing?
    requires e in RenderPanel(alerts).body.acknowledged
    ensures e.alert in alerts && e.alert.acknowledged
    ensures DismissButton(e.alert.id) in e.buttons
    ensures forall b :: b in e.buttons ==> b == DismissButton(e.alert.id)
  {
    var body := RenderPanel(alerts).body;
    var i :| 0 <= i < |body.acknowledged| && body.acknowledged[i] == e;
    var acked := AcknowledgedAlerts(alerts);
    var shown := acked[..Min(AcknowledgedShown, |acked|)];
    assert e.alert == EntryAlerts(body.acknowledged)[i] == shown[i];
    assert e.alert in acked;
  }

  /** The two groups of [a, b, c] when only b is acknowledged. */
  lemma ThreeAlertGroups(a: Alert, b: Alert, c: Alert)
    requires !a.acknowledged && b.acknowledged && !c.acknowledged
    ensures UnacknowledgedAlerts([a, b, c]) == [a, c]
    ensures AcknowledgedAlerts([a, b, c]) == [b]
  {
    var xs := [a, b, c];
    assert xs[2..][1..] == [] && xs[1..][1..] == xs[2..];
    assert UnacknowledgedAlerts(xs[2..]) == [c];
    assert UnacknowledgedAlerts(xs[1..]) == [c];
    assert AcknowledgedAlerts(xs[2..]) == [];
    assert AcknowledgedAlerts(xs[1..]) == [b];
  }

  /** Display order for a three-alert list: unacknowledged A and C come before acknowledged B. */
  lemma DisplayOrderExample(a: Alert, b: Alert, c: Alert)
    requires !a.acknowledged && b.acknowledged && !c.acknowledged
    ensures Rendered(RenderPanel([a, b, c])) == [a, c, b]
  {
    ThreeAlertGroups(a, b, c);
    RenderedAlerts([a, b, c]);
    assert Min(AcknowledgedShown, 1) == 1;
    assert [b][..1] == [b];
  }
}
