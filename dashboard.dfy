/** The dashboard's single `data` state record, the two alert updaters it applies to it, and
    the summary statistics computed when a snapshot is produced. */
module Dashboard {
  import opened Common
  import opened Seqs
  import opened PatientCard
  import opened AlertsPanel

  // ---------------------------------------------------------------------------------------
  // Alert updaters

  /** The alert list after "Ack" on `alertId`: every alert with that id (ids need not be
      unique) becomes acknowledged; all others are left as they were. */
  function Acknowledge(alerts: seq<Alert>, alertId: string): (r: seq<Alert>)
    ensures |r| == |alerts|
    ensures forall i :: 0 <= i < |alerts| ==> r[i].id == alerts[i].id
    ensures forall i :: 0 <= i < |alerts| && alerts[i].id == alertId ==>
      r[i].acknowledged && r[i] == alerts[i].(acknowledged := true)
    ensures forall i :: 0 <= i < |alerts| && alerts[i].id != alertId ==> r[i] == alerts[i]
  {
    if alerts == [] then []
    else
      [if alerts[0].id == alertId then alerts[0].(acknowledged := true) else alerts[0]]
      + Acknowledge(alerts[1..], alertId)
  }

  /** The alert list after dismissing `alertId`: every alert with that id is removed. */
  function Dismiss(alerts: seq<Alert>, alertId: string): (r: seq<Alert>)
    ensures forall a :: a in r ==> a in alerts && a.id != alertId
    ensures forall a :: a in alerts && a.id != alertId ==> a in r
  {
    Filter(alerts, (a: Alert) => a.id != alertId)
  }

  /** The alerts carrying `alertId`. */
  function WithId(alerts: seq<Alert>, alertId: string): (r: seq<Alert>)
  {
    Filter(alerts, (a: Alert) => a.id == alertId)
  }

  /** Dismissing removes exactly the alerts carrying the id: the length drops by their number,
      and every other alert stays, as often as before. */
  lemma DismissRemovesExactlyMatching(alerts: seq<Alert>, alertId: string)
    ensures |Dismiss(alerts, alertId)| == |alerts| - |WithId(alerts, alertId)|
    ensures multiset(Dismiss(alerts, alertId)) + multiset(WithId(alerts, alertId)) == multiset(alerts)
  {
    FilterSplit(alerts, (a: Alert) => a.id != alertId, (a: Alert) => a.id == alertId);
  }

  /** Dismissing keeps the survivors' relative order. */
  lemma DismissKeepsOrder(front: seq<Alert>, back: seq<Alert>, alertId: string)
    ensures Dismiss(front + back, alertId) == Dismiss(front, alertId) + Dismiss(back, alertId)
  {
    FilterConcat(front, back, (a: Alert) => a.id != alertId);
  }

  /** Dismissing an id no alert carries leaves the list as it was. */
  lemma DismissAbsent(alerts: seq<Alert>, alertId: string)
    requires forall a :: a in alerts ==> a.id != alertId
    ensures Dismiss(alerts, alertId) == alerts
  {
    FilterKeepsAll(alerts, (a: Alert) => a.id != alertId);
  }

  /** Dismissing twice is dismissing once. */
  lemma DismissIdempotent(alerts: seq<Alert>, alertId: string)
    ensures Dismiss(Dismiss(alerts, alertId), alertId) == Dismiss(alerts, alertId)
  {
    DismissAbsent(Dismiss(alerts, alertId), alertId);
  }

  /** Acknowledging twice is acknowledging once. */
  lemma AcknowledgeIdempotent(alerts: seq<Alert>, alertId: string)
    ensures Acknowledge(Acknowledge(alerts, alertId), alertId) == Acknowledge(alerts, alertId)
  {
  }

  /** Acknowledging before dismissing the same id makes no difference to the result. */
  lemma {:induction false} DismissAfterAcknowledge(alerts: seq<Alert>, alertId: string)
    ensures Dismiss(Acknowledge(alerts, alertId), alertId) == Dismiss(alerts, alertId)
  {
    if alerts != [] {
      DismissAfterAcknowledge(alerts[1..], alertId);
      assert Acknowledge(alerts, alertId)[1..] == Acknowledge(alerts[1..], alertId);
    }
  }

  /** The unacknowledged alerts after "Ack" on an id are those before it without that id, in
      the same order. */
  lemma {:induction false} UnacknowledgedAfterAcknowledge(alerts: seq<Alert>, alertId: string)
    ensures UnacknowledgedAlerts(Acknowledge(alerts, alertId)) == Dismiss(UnacknowledgedAlerts(alerts), alertId)
  {
    if alerts != [] {
      var head, rest := alerts[0], alerts[1..];
      UnacknowledgedAfterAcknowledge(rest, alertId);
      var acked := Acknowledge(alerts, alertId);
      assert acked == [acked[0]] + Acknowledge(rest, alertId);
      assert acked[1..] == Acknowledge(rest, alertId);
      var before := UnacknowledgedAlerts(alerts);
      assert before == UnacknowledgedAlerts([head]) + UnacknowledgedAlerts(rest) by {
        assert alerts == [head] + rest;
        GroupsKeepOrder([head], rest);
      }
      DismissKeepsOrder(UnacknowledgedAlerts([head]), UnacknowledgedAlerts(rest), alertId);
      assert [head][1..] == [];
      assert [acked[0]][1..] == [];
    }
  }

  /** "Ack" never raises the number of unacknowledged alerts, and lowers it exactly when some
      unacknowledged alert carried the id. */
  lemma {:induction false} UnacknowledgedCountAfterAcknowledge(alerts: seq<Alert>, alertId: string)
    ensures |UnacknowledgedAlerts(Acknowledge(alerts, alertId))| <= |UnacknowledgedAlerts(alerts)|
    ensures |UnacknowledgedAlerts(Acknowledge(alerts, alertId))| < |UnacknowledgedAlerts(alerts)| <==>
      exists a :: a in alerts && !a.acknowledged && a.id == alertId
  {
    UnacknowledgedAfterAcknowledge(alerts, alertId);
    var before := UnacknowledgedAlerts(alerts);
    var matching := WithId(before, alertId);
    DismissRemovesExactlyMatching(before, alertId);
    assert |matching| > 0 <==> exists a :: a in alerts && !a.acknowledged && a.id == alertId by {
      PartitionAlerts(alerts);
      if |matching| > 0 {
        assert matching[0] in matching;
      }
      if exists a :: a in alerts && !a.acknowledged && a.id == alertId {
        var a :| a in alerts && !a.acknowledged && a.id == alertId;
        assert a in before;
        assert a in matching;
      }
    }
  }

  // ---------------------------------------------------------------------------------------
  // Statistics

  /** A JavaScript number as far as the statistics need one: an integer, or NaN. */
  datatype Number = Int(value: int) | NaN

  /** The summary shown above the patient cards. */
  datatype Stats = Stats(totalPatients: nat, criticalPatients: nat, activeAlerts: nat, averageHeartRate: Number)

  /** Every patient's heart rate is at least 0. */
  predicate NonNegativeRates(patients: seq<Patient>)
  {
    forall i :: 0 <= i < |patients| ==> patients[i].vitals.heartRate >= 0
  }

  /** The `reduce` of the heart rates from 0. */
  function SumHeartRates(patients: seq<Patient>): (sum: int)
    ensures patients == [] ==> sum == 0
    ensures |patients| == 1 ==> sum == patients[0].vitals.heartRate
    ensures NonNegativeRates(patients) ==> sum >= 0
  {
    if patients == [] then 0
    else
      assert NonNegativeRates(patients) ==> NonNegativeRates(patients[1..]) by {
        if NonNegativeRates(patients) {
          forall i | 0 <= i < |patients[1..]| ensures patients[1..][i].vitals.heartRate >= 0 {
            assert patients[1..][i] == patients[i + 1];
          }
        }
      }
      patients[0].vitals.heartRate + SumHeartRates(patients[1..])
  }

  /** The sum is the left-to-right `reduce`: appending a patient adds its heart rate last. */
  lemma {:induction false} SumHeartRatesAppend(patients: seq<Patient>, p: Patient)
    ensures SumHeartRates(patients + [p]) == SumHeartRates(patients) + p.vitals.heartRate
  {
    if patients != [] {
      assert (patients + [p])[1..] == patients[1..] + [p];
      SumHeartRatesAppend(patients[1..], p);
    }
  }

  /** `Math.round(sum / n)`: the integer nearest to sum / n, halves rounded up. */
  function RoundedMean(sum: int, n: nat): (r: int)
    requires n > 0
    ensures n * (2 * r - 1) <= 2 * sum < n * (2 * r + 1)
  {
    var r := (2 * sum + n) / (2 * n);
    assert 2 * n * r <= 2 * sum + n < 2 * n * r + 2 * n;
    r
  }

  /** The rounded mean heart rate; the mean of no patients is 0/0, which is NaN. */
  function AverageHeartRate(patients: seq<Patient>): (avg: Number)
    ensures avg.NaN? <==> patients == []
    ensures avg.Int? ==>
      |patients| * (2 * avg.value - 1) <= 2 * SumHeartRates(patients) < |patients| * (2 * avg.value + 1)
  {
    if |patients| == 0 then NaN else Int(RoundedMean(SumHeartRates(patients), |patients|))
  }

  /** The patients whose status is "critical", in list order. */
  function CriticalPatients(patients: seq<Patient>): (r: seq<Patient>)
    ensures |r| <= |patients|
    ensures forall p :: p in r <==> p in patients && p.status == "critical"
  {
    Filter(patients, (p: Patient) => p.status == "critical")
  }

  /** The critical patients and the others together hold every patient exactly as often as the
      list does, so the critical count is the number of critical records, duplicates included. */
  lemma CriticalPatientsPartition(patients: seq<Patient>)
    ensures multiset(CriticalPatients(patients)) + multiset(Filter(patients, (p: Patient) => p.status != "critical"))
      == multiset(patients)
    ensures |CriticalPatients(patients)| + |Filter(patients, (p: Patient) => p.status != "critical")| == |patients|
  {
    FilterSplit(patients, (p: Patient) => p.status == "critical", (p: Patient) => p.status != "critical");
  }

  /** The statistics of a snapshot. */
  function ComputeStats(patients: seq<Patient>, alerts: seq<Alert>): (s: Stats)
    ensures s.totalPatients == |patients|
    ensures s.criticalPatients <= s.totalPatients
    ensures s.criticalPatients == |CriticalPatients(patients)|
    ensures s.activeAlerts <= |alerts|
    ensures s.activeAlerts + |AcknowledgedAlerts(alerts)| == |alerts|
    ensures s.averageHeartRate.NaN? <==> patients == []
    ensures s.averageHeartRate.Int? ==>
      |patients| * (2 * s.averageHeartRate.value - 1) <= 2 * SumHeartRates(patients)
      < |patients| * (2 * s.averageHeartRate.value + 1)
  {
    PartitionAlerts(alerts);
    Stats(|patients|, |CriticalPatients(patients)|, |UnacknowledgedAlerts(alerts)|, AverageHeartRate(patients))
  }

  lemma {:induction false} SumHeartRatesBounds(patients: seq<Patient>, lo: int, hi: int)
    requires forall p :: p in patients ==> lo <= p.vitals.heartRate <= hi
    ensures |patients| * lo <= SumHeartRates(patients) <= |patients| * hi
  {
    if patients != [] {
      var rest := patients[1..];
      SumHeartRatesBounds(rest, lo, hi);
      assert patients[0] in patients;
      Distribute(|rest|, lo);
      Distribute(|rest|, hi);
    }
  }

  /** With at least one patient, the average heart rate is a number between any lower and any
      upper bound of the patients' heart rates, in particular between their minimum and maximum. */
  lemma AverageWithinRange(patients: seq<Patient>, lo: int, hi: int)
    requires patients != []
    requires forall p :: p in patients ==> lo <= p.vitals.heartRate <= hi
    ensures AverageHeartRate(patients).Int?
    ensures lo <= AverageHeartRate(patients).value <= hi
  {
    SumHeartRatesBounds(patients, lo, hi);
    MeanBetweenBounds(|patients|, SumHeartRates(patients), AverageHeartRate(patients).value, lo, hi);
  }

  /** A value rounded from sum / n, where sum lies between n * lo and n * hi, lies between lo
      and hi. */
  lemma MeanBetweenBounds(n: int, sum: int, r: int, lo: int, hi: int)
    requires n > 0
    requires n * lo <= sum <= n * hi
    requires n * (2 * r - 1) <= 2 * sum < n * (2 * r + 1)
    ensures lo <= r <= hi
  {
    // n * (2r - 1) <= 2 sum <= n * 2hi, so 2r - 1 <= 2hi, so r <= hi
    assert n * (2 * hi) == 2 * (n * hi);
    ScaleCancel(n, 2 * r - 1, 2 * hi);
    // n * 2lo <= 2 sum < n * (2r + 1), so 2lo <= 2r, so lo <= r
    assert n * (2 * lo) == 2 * (n * lo);
    ScaleCancel(n, 2 * lo, 2 * r + 1);
  }

  /** Multiplication distributes over a successor. */
  lemma Distribute(n: int, k: int)
    ensures (n + 1) * k == n * k + k
  {
  }

  /** A positive factor can be cancelled from both sides of an inequality. */
  lemma ScaleCancel(n: int, a: int, b: int)
    requires n > 0
    ensures n * a <= n * b ==> a <= b
  {
    if a > b {
      assert n * a - n * b == n * (a - b);
    }
  }

  /** The critical count is the number of cards whose badge is `Destructive`. */
  lemma {:induction false} CriticalMatchesDestructiveBadges(patients: seq<Patient>)
    ensures CriticalPatients(patients) == Filter(patients, (p: Patient) => RenderCard(p).badgeVariant == Destructive)
  {
    if patients != [] {
      CriticalMatchesDestructiveBadges(patients[1..]);
    }
  }

  /** The active-alert count is the number in the panel's "New" badge (none when it is 0). */
  lemma ActiveAlertsMatchNewBadge(patients: seq<Patient>, alerts: seq<Alert>)
    ensures RenderPanel(alerts).newBadge ==
      if ComputeStats(patients, alerts).activeAlerts > 0 then Some(ComputeStats(patients, alerts).activeAlerts) else None
  {
    PartitionAlerts(alerts);
  }

  /** "Ack" on an unacknowledged alert lowers the true active-alert count; because the updater
      carries the old statistics over, the stored count then overstates it. */
  lemma AcknowledgeMakesActiveAlertsStale(patients: seq<Patient>, alerts: seq<Alert>, alertId: string)
    requires exists a :: a in alerts && !a.acknowledged && a.id == alertId
    ensures ComputeStats(patients, Acknowledge(alerts, alertId)).activeAlerts < ComputeStats(patients, alerts).activeAlerts
  {
    UnacknowledgedCountAfterAcknowledge(alerts, alertId);
  }

  // ---------------------------------------------------------------------------------------
  // The snapshot the dashboard generates

  /** The four patients every snapshot holds. */
  function MockPatients(): (ps: seq<Patient>)
    ensures |ps| == 4
    ensures [ps[0].id, ps[1].id, ps[2].id, ps[3].id] == ["1", "2", "3", "4"]
    ensures [ps[0].status, ps[1].status, ps[2].status, ps[3].status] == ["critical", "warning", "stable", "good"]
    ensures [ps[0].vitals.heartRate, ps[1].vitals.heartRate, ps[2].vitals.heartRate, ps[3].vitals.heartRate] == [125, 95, 72, 68]
  {
    [ Patient("1", "Sarah Johnson", 67, "ICU-101", "critical", "2 min ago", Vitals(125, 101.2, "160/95", 88)),
      Patient("2", "Michael Chen", 45, "202", "warning", "5 min ago", Vitals(95, 99.8, "140/85", 94)),
      Patient("3", "Emma Rodriguez", 32, "305", "stable", "8 min ago", Vitals(72, 98.6, "120/78", 98)),
      Patient("4", "James Wilson", 58, "156", "good", "12 min ago", Vitals(68, 98.4, "115/72", 99)) ]
  }

  /** The three alerts every snapshot holds; their timestamps depend on the clock and are given. */
  function MockAlerts(stamp1: string, stamp2: string, stamp3: string): (alerts: seq<Alert>)
    ensures |alerts| == 3
    ensures [alerts[0].id, alerts[1].id, alerts[2].id] == ["1", "2", "3"]
    ensures [alerts[0].patientId, alerts[1].patientId, alerts[2].patientId] == ["1", "1", "2"]
    ensures [alerts[0].severity, alerts[1].severity, alerts[2].severity] == ["critical", "critical", "warning"]
    ensures !alerts[0].acknowledged && !alerts[1].acknowledged && alerts[2].acknowledged
    ensures [alerts[0].timestamp, alerts[1].timestamp, alerts[2].timestamp] == [stamp1, stamp2, stamp3]
  {
    [ Alert("1", "Sarah Johnson", "1", "critical", "Heart rate exceeding 120 bpm for 10+ minutes", stamp1, false),
      Alert("2", "Sarah Johnson", "1", "critical", "Oxygen saturation dropped below 90%", stamp2, false),
      Alert("3", "Michael Chen", "2", "warning", "Elevated temperature detected", stamp3, true) ]
  }

  /** The generated snapshot's statistics: 4 patients, 1 critical, 2 active alerts, and a mean
      heart rate of (125 + 95 + 72 + 68) / 4 = 90. */
  lemma MockSnapshotStats(stamp1: string, stamp2: string, stamp3: string)
    ensures ComputeStats(MockPatients(), MockAlerts(stamp1, stamp2, stamp3)) == Stats(4, 1, 2, Int(90))
  {
    MockPatientFigures();
    MockActiveAlerts(stamp1, stamp2, stamp3);
  }

  /** The generated patients' heart-rate sum and critical count. */
  lemma MockPatientFigures()
    ensures SumHeartRates(MockPatients()) == 360
    ensures |CriticalPatients(MockPatients())| == 1
  {
    var ps := MockPatients();
    assert ps[3..][1..] == [] && ps[2..][1..] == ps[3..] && ps[1..][1..] == ps[2..];
    assert SumHeartRates(ps[3..]) == 68;
    assert SumHeartRates(ps[2..]) == 140;
    assert SumHeartRates(ps[1..]) == 235;
    assert CriticalPatients(ps[3..]) == [];
    assert CriticalPatients(ps[2..]) == [];
    assert CriticalPatients(ps[1..]) == [];
  }

  /** The generated alerts' unacknowledged count. */
  lemma MockActiveAlerts(stamp1: string, stamp2: string, stamp3: string)
    ensures |UnacknowledgedAlerts(MockAlerts(stamp1, stamp2, stamp3))| == 2
  {
    var alerts := MockAlerts(stamp1, stamp2, stamp3);
    assert alerts[2..][1..] == [] && alerts[1..][1..] == alerts[2..];
    assert UnacknowledgedAlerts(alerts[2..]) == [];
    assert UnacknowledgedAlerts(alerts[1..]) == [alerts[1]];
  }

  /** In the generated snapshot, "Ack" on alert "1" leaves one alert active; dismissing it as
      well leaves two alerts, one of them active. */
  lemma MockAcknowledgeThenDismiss(stamp1: string, stamp2: string, stamp3: string)
    ensures |UnacknowledgedAlerts(Acknowledge(MockAlerts(stamp1, stamp2, stamp3), "1"))| == 1
    ensures |Dismiss(Acknowledge(MockAlerts(stamp1, stamp2, stamp3), "1"), "1")| == 2
    ensures |UnacknowledgedAlerts(Dismiss(Acknowledge(MockAlerts(stamp1, stamp2, stamp3), "1"), "1"))| == 1
  {
    var alerts := MockAlerts(stamp1, stamp2, stamp3);
    var acked := Acknowledge(alerts, "1");
    assert acked == [alerts[0].(acknowledged := true), alerts[1], alerts[2]];
    assert acked[2..][1..] == [] && acked[1..][1..] == acked[2..];
    assert UnacknowledgedAlerts(acked) == [alerts[1]] by {
      assert UnacknowledgedAlerts(acked[2..]) == [];
      assert UnacknowledgedAlerts(acked[1..]) == [alerts[1]];
    }
    var rest := Dismiss(acked, "1");
    assert rest == [alerts[1], alerts[2]] by {
      assert Dismiss(acked[2..], "1") == [alerts[2]];
      assert Dismiss(acked[1..], "1") == [alerts[1], alerts[2]];
    }
    assert UnacknowledgedAlerts(rest) == [alerts[1]] by {
      assert rest[1..][1..] == [];
      assert UnacknowledgedAlerts(rest[1..]) == [];
    }
  }

  // ---------------------------------------------------------------------------------------
  // The dashboard's state

  /** One point of a trend chart; its value is carried, never interpreted. */
  datatype Sample = Sample(timestamp: string, value: real)

  /** The dashboard's `data` state: a snapshot and the statistics computed with it. */
  class DashboardState {
    var patients: seq<Patient>
    var alerts: seq<Alert>
    var heartRateData: seq<Sample>
    var temperatureData: seq<Sample>
    var stats: Stats

    /** The stored statistics agree with the current patients and alerts. */
    ghost predicate StatsCurrent()
      reads this
    {
      stats == ComputeStats(patients, alerts)
    }

    /** The initial state: a freshly produced snapshot. */
    constructor (patients: seq<Patient>, alerts: seq<Alert>, heartRateData: seq<Sample>, temperatureData: seq<Sample>)
      ensures this.patients == patients && this.alerts == alerts
      ensures this.heartRateData == heartRateData && this.temperatureData == temperatureData
      ensures StatsCurrent()
    {
      this.patients := patients;
      this.alerts := alerts;
      this.heartRateData := heartRateData;
      this.temperatureData := temperatureData;
      this.stats := ComputeStats(patients, alerts);
    }

    /** A refresh replaces the whole record, acknowledgements included, with a new snapshot. */
    method Refresh(patients: seq<Patient>, alerts: seq<Alert>, heartRateData: seq<Sample>, temperatureData: seq<Sample>)
      modifies this
      ensures this.patients == patients && this.alerts == alerts
      ensures this.heartRateData == heartRateData && this.temperatureData == temperatureData
      ensures StatsCurrent()
    {
      this.patients := patients;
      this.alerts := alerts;
      this.heartRateData := heartRateData;
      this.temperatureData := temperatureData;
      this.stats := ComputeStats(patients, alerts);
    }

    /** "Ack": only the alert list changes; the statistics are carried over as they were. */
    method AcknowledgeAlert(alertId: string)
      modifies this`alerts
      ensures alerts == Acknowledge(old(alerts), alertId)
      ensures patients == old(patients) && stats == old(stats)
      ensures heartRateData == old(heartRateData) && temperatureData == old(temperatureData)
      ensures old(StatsCurrent()) ==> stats.activeAlerts >= |UnacknowledgedAlerts(alerts)|
    {
      UnacknowledgedCountAfterAcknowledge(alerts, alertId);
      alerts := Acknowledge(alerts, alertId);
    }

    /** Dismiss: only the alert list changes; the statistics are carried over as they were. */
    method DismissAlert(alertId: string)
      modifies this`alerts
      ensures alerts == Dismiss(old(alerts), alertId)
      ensures patients == old(patients) && stats == old(stats)
      ensures heartRateData == old(heartRateData) && temperatureData == old(temperatureData)
    {
      alerts := Dismiss(alerts, alertId);
    }
  }

  /** A session on the generated snapshot: "Ack" on alert "1", then dismiss it. The stored
      active-alert count still says 2 while only one alert is active. */
  method MockSession(stamp1: string, stamp2: string, stamp3: string) returns (d: DashboardState)
    ensures d.stats == Stats(4, 1, 2, Int(90))
    ensures |d.alerts| == 2 && |UnacknowledgedAlerts(d.alerts)| == 1
    ensures !d.StatsCurrent()
  {
    d := new DashboardState(MockPatients(), MockAlerts(stamp1, stamp2, stamp3), [], []);
    MockSnapshotStats(stamp1, stamp2, stamp3);
    MockAcknowledgeThenDismiss(stamp1, stamp2, stamp3);
    d.AcknowledgeAlert("1");
    d.DismissAlert("1");
  }
}
