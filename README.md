# Patient-monitoring dashboard: alert store and derived statistics

This project models the part of the care-watch dashboard that has behaviour of its own.

- The dashboard keeps one `data` record: the patients, the alerts, two trend series and summary
  statistics. The "Ack" and dismiss buttons update the alert list in that record.
- When a snapshot is generated, the statistics are computed from it: the patient count, the
  critical count, the active-alert count and the rounded mean heart rate.
- The alerts panel splits the alert list into unacknowledged and acknowledged groups. It renders
  them in that order, shows at most three acknowledged alerts, and shows a "New" badge with the
  unacknowledged count.
- The alerts panel and the patient card map severities and statuses to badge variants and icons.
  Each mapping has a fallback for values it does not recognise.

Modules, one per source file, plus two shared ones:

- `Common` (common.dfy): `Option`, the badge `Variant` names and `Min`.
- `Seqs` (seqs.dfy): `Filter`, which is `Array.prototype.filter`, and lemmas about it. They cover
  concatenation (order is kept), splitting by a predicate and its negation (a partition), and a
  filter every element passes.
- `PatientCard` (patient_card.dfy): `Patient`, `Vitals`, `StatusColor`, `StatusIcon`, `RenderCard`.
- `AlertsPanel` (alerts_panel.dfy): `Alert`, `SeverityIcon`, `SeverityVariant`, the two groups,
  and the rendered panel as a value (`Panel`, `Body`, `Entry`, `Button`).
- `Dashboard` (dashboard.dfy): the updaters `Acknowledge` and `Dismiss`, `ComputeStats`, the
  generated snapshot, and the class `DashboardState`. The class holds the `data` record. Its
  methods `AcknowledgeAlert` and `DismissAlert` change only `alerts`.

Modelling choices:

- Severities and statuses are strings. The source's mapping functions take any `string` and have
  a default branch.
- Alert ids are not assumed unique. "Ack" and dismiss act on every alert that carries the id.
- Heart rates are integers. `Math.round(sum / n)` is `(2*sum + n) / (2*n)`. With a positive
  divisor, Dafny's division is floor division, so this is floor(sum/n + 1/2), which is what
  `Math.round` computes.
- With no patients, the source computes `Math.round(0 / 0)`, which is NaN. The model keeps that
  value: `averageHeartRate` is a `Number`, either `Int(v)` or `NaN`. It does not require a
  non-empty list.
- The statistics are not recomputed after "Ack" or dismiss. The updaters spread the previous
  record, so the old `stats` is carried over (src/pages/Dashboard.tsx:140-141, 151-152). The
  model does the same: `AcknowledgeAlert` and `DismissAlert` keep `stats`. The intended
  behaviour is that the statistics always describe the current collections. The code departs
  from that, and the model follows the code. `AcknowledgeMakesActiveAlertsStale` and
  `MockSession` show the stored active-alert count drifting from the true one.
- Dismiss is meant to remove the one alert with the given id. Ids are not checked for
  uniqueness, so the code removes every alert with that id, and the model follows the code.
- `Math.random()` and `Date.now()` feed the trend series and the alert timestamps. These parts
  of a snapshot are parameters: `DashboardState`'s constructor and `Refresh` receive the series,
  and `MockAlerts` receives the timestamps.

## Model

| member | source | states |
|---|---|---|
| `PatientCard.StatusColor` | src/components/PatientCard.tsx:26-39 | critical gives destructive, warning gives warning, stable gives info, good gives success. Each holds in both directions. Any other status gives secondary, so the mapping is total. |
| `PatientCard.StatusIcon` | src/components/PatientCard.tsx:41-54 | The four known statuses get their own emoji, in both directions. Any other status gets the clipboard fallback. |
| `PatientCard.StatusMappingsInjective` | src/components/PatientCard.tsx:26-54 | The four known statuses get pairwise-distinct variants and pairwise-distinct icons. No known status gets the secondary fallback or the fallback icon. |
| `PatientCard.RenderCard` | src/components/PatientCard.tsx:56-124 | The badge shows `StatusColor` and `StatusIcon` of the patient's status, so it is destructive exactly for a critical patient and carries the fallback icon exactly for an unrecognised status. The title, room, last update and vitals are the patient's own. "View Details" reports the displayed patient's own id. |
| `AlertsPanel.SeverityIcon` | src/components/AlertsPanel.tsx:22-33 | critical gives AlertTriangle, warning gives Clock, info gives CheckCircle, each in both directions. Every other severity gets no icon (null). |
| `AlertsPanel.SeverityVariant` | src/components/AlertsPanel.tsx:35-46 | critical gives destructive, warning gives warning, info gives info, each in both directions. Every other severity gives secondary, and success is never returned. |
| `AlertsPanel.UnacknowledgedAlerts` | src/components/AlertsPanel.tsx:49 | An alert is in the result exactly when it is in the list and unacknowledged. The result is no longer than the list. |
| `AlertsPanel.AcknowledgedAlerts` | src/components/AlertsPanel.tsx:50 | An alert is in the result exactly when it is in the list and acknowledged. The result is no longer than the list. |
| `AlertsPanel.UnacknowledgedEntry` | src/components/AlertsPanel.tsx:74-113 | An unacknowledged entry shows its alert with the severity's icon and the severity's badge variant. It offers "Ack" and dismiss, and every button carries the alert's own id. |
| `AlertsPanel.AcknowledgedEntry` | src/components/AlertsPanel.tsx:122-149 | An acknowledged entry shows its alert with the severity's icon and no severity badge. Its only button is dismiss with the alert's own id. |
| `AlertsPanel.PartitionAlerts` | src/components/AlertsPanel.tsx:49-50 | The two groups hold every alert of the list exactly as often as the list does (multiset equality). Their lengths sum to the list's length. An alert is in a group exactly when it is in the list with the matching flag. A group is non-empty exactly when such an alert exists. |
| `AlertsPanel.GroupsKeepOrder` | src/components/AlertsPanel.tsx:49-50 | Each group of a concatenation is the concatenation of the parts' groups, so each group keeps list order. |
| `AlertsPanel.RenderPanel` | src/components/AlertsPanel.tsx:48-157 | The "New" badge is shown exactly when some alert is unacknowledged, and it shows their count. The empty state is shown exactly for an empty list. Otherwise all unacknowledged alerts render, then the first min(3, n) acknowledged ones. The "Acknowledged (n)" header appears exactly when n > 0, with the full count n. Every entry is rendered as its group prescribes. |
| `AlertsPanel.RenderedAlerts` | src/components/AlertsPanel.tsx:74-122 | The render order is the unacknowledged group, then the first three of the acknowledged group. The count is the unacknowledged count plus min(3, acknowledged count). No alert renders more often than the list holds it. Every alert renders when at most three are acknowledged. |
| `AlertsPanel.UnacknowledgedEntryButtons` | src/components/AlertsPanel.tsx:74-113 | An entry in the first group shows an unacknowledged alert of the list. It offers "Ack" and dismiss, both with that alert's own id. |
| `AlertsPanel.AcknowledgedEntryButtons` | src/components/AlertsPanel.tsx:122-149 | An entry in the acknowledged section shows an acknowledged alert of the list. It offers only dismiss, with that alert's own id, and no "Ack". |
| `AlertsPanel.DisplayOrderExample` | src/components/AlertsPanel.tsx:74-122 | Alerts [A unacknowledged, B acknowledged, C unacknowledged] render as [A, C, B]. |
| `Dashboard.Acknowledge` | src/pages/Dashboard.tsx:142-146 | Length and the id at every position are unchanged. Every alert with the id becomes acknowledged and otherwise stays equal. Every alert with another id is unchanged. |
| `Dashboard.Dismiss` | src/pages/Dashboard.tsx:153 | No alert with the id remains. Every remaining alert comes from the input. Every alert with another id remains. |
| `Dashboard.DismissRemovesExactlyMatching` | src/pages/Dashboard.tsx:153 | The length drops by exactly the number of alerts with the id. The survivors plus the removed alerts are the input as a multiset. |
| `Dashboard.DismissKeepsOrder` | src/pages/Dashboard.tsx:153 | Dismissing distributes over concatenation, so the survivors keep their relative order. |
| `Dashboard.DismissAbsent` | src/pages/Dashboard.tsx:153 | Dismissing an id that no alert carries returns the identical list. |
| `Dashboard.DismissIdempotent` | src/pages/Dashboard.tsx:153 | Dismissing the same id twice equals dismissing it once. |
| `Dashboard.AcknowledgeIdempotent` | src/pages/Dashboard.tsx:142-146 | Acknowledging the same id twice equals acknowledging it once. |
| `Dashboard.DismissAfterAcknowledge` | src/pages/Dashboard.tsx:142-153 | Dismissing an id after acknowledging it gives the same list as dismissing it directly. |
| `Dashboard.UnacknowledgedAfterAcknowledge` | src/pages/Dashboard.tsx:142-146 | After "Ack" on an id, the unacknowledged alerts are exactly the previous unacknowledged alerts without that id, in the same order. |
| `Dashboard.UnacknowledgedCountAfterAcknowledge` | src/pages/Dashboard.tsx:142-146 | "Ack" never raises the unacknowledged count. It lowers the count exactly when some unacknowledged alert carried the id. |
| `Dashboard.SumHeartRates` | src/pages/Dashboard.tsx:114 | The `reduce` starts from 0: no patients sum to 0 and one patient sums to its own rate. Non-negative rates give a non-negative sum. |
| `Dashboard.CriticalPatients` | src/pages/Dashboard.tsx:112 | A patient is in the result exactly when it is in the list with status critical. The result is no longer than the list. |
| `Dashboard.CriticalPatientsPartition` | src/pages/Dashboard.tsx:112 | The critical patients and the non-critical patients together hold every patient exactly as often as the list does (multiset equality), and their lengths sum to the list's length. So the critical count counts duplicate critical records. |
| `Dashboard.SumHeartRatesAppend` | src/pages/Dashboard.tsx:114 | Appending a patient adds its heart rate to the sum. With the empty-list case this fixes the sum of every list and matches the left-to-right order of `reduce`. |
| `Dashboard.RoundedMean` | src/pages/Dashboard.tsx:114 | The result r is `Math.round(sum / n)`: r - 1/2 <= sum/n < r + 1/2, with halves rounded up. |
| `Dashboard.AverageHeartRate` | src/pages/Dashboard.tsx:114 | The result is NaN exactly when there are no patients. Otherwise it is the integer v with v - 1/2 <= sum/n < v + 1/2 for the heart-rate sum and patient count n. |
| `Dashboard.SumHeartRatesBounds` | src/pages/Dashboard.tsx:114 | The `reduce` sum lies between n times any lower bound and n times any upper bound of the heart rates. |
| `Dashboard.AverageWithinRange` | src/pages/Dashboard.tsx:114 | With at least one patient, the average is a number. It lies between any lower and upper bound of the heart rates, so between their minimum and maximum. |
| `Dashboard.ComputeStats` | src/pages/Dashboard.tsx:110-115 | totalPatients is the patient count. criticalPatients is the number of patients with status critical, so at most totalPatients. activeAlerts is at most the alert count and equals it minus the acknowledged count. averageHeartRate is NaN exactly for no patients, and otherwise the integer r with n(2r-1) <= 2·sum < n(2r+1), which is `Math.round(sum / n)`. |
| `Dashboard.CriticalMatchesDestructiveBadges` | src/pages/Dashboard.tsx:112 | The patients counted as critical are exactly those whose card badge is destructive, in the same order. |
| `Dashboard.ActiveAlertsMatchNewBadge` | src/pages/Dashboard.tsx:113 | For freshly computed statistics, the panel's "New" badge shows activeAlerts, and it is absent when activeAlerts is 0. |
| `Dashboard.AcknowledgeMakesActiveAlertsStale` | src/pages/Dashboard.tsx:139-148 | "Ack" on an id that an unacknowledged alert carries lowers the recomputed activeAlerts. The carried-over statistics then overstate it. |
| `Dashboard.MockPatients` | src/pages/Dashboard.tsx:11-68 | The generated snapshot holds four patients with ids "1" to "4". Their statuses are critical, warning, stable and good, and their heart rates are 125, 95, 72 and 68. The other fields are the literal's values. |
| `Dashboard.MockAlerts` | src/pages/Dashboard.tsx:70-98 | The generated snapshot holds three alerts with ids "1", "2", "3", for patients "1", "1", "2". Their severities are critical, critical, warning. Alerts "1" and "2" are unacknowledged and "3" is acknowledged. The timestamps are the given ones, and the names and messages are the literal's values. |
| `Dashboard.MockSnapshotStats` | src/pages/Dashboard.tsx:110-115 | The generated snapshot's statistics are 4 patients, 1 critical, 2 active alerts and an average heart rate of 90. |
| `Dashboard.MockAcknowledgeThenDismiss` | src/pages/Dashboard.tsx:139-155 | After "Ack" on alert "1", one alert is active. After dismissing "1" as well, two alerts remain, one of them active. |
| `Dashboard.DashboardState.constructor` | src/pages/Dashboard.tsx:121 | The initial state holds the given snapshot, with statistics computed from it. |
| `Dashboard.DashboardState.Refresh` | src/pages/Dashboard.tsx:124-127 | A refresh replaces the whole record with the new snapshot, dropping earlier acknowledgements. The statistics are recomputed. |
| `Dashboard.DashboardState.AcknowledgeAlert` | src/pages/Dashboard.tsx:139-148 | alerts becomes `Acknowledge(old alerts, id)`. patients, both series and stats are unchanged. If the statistics were current, the stored activeAlerts now bounds the true count from above. |
| `Dashboard.DashboardState.DismissAlert` | src/pages/Dashboard.tsx:150-155 | alerts becomes `Dismiss(old alerts, id)`. patients, both series and stats are unchanged. |
| `Dashboard.MockSession` | src/pages/Dashboard.tsx:139-155 | On the generated snapshot, "Ack" then dismiss of alert "1" leaves two alerts, one active. The stored statistics still say 2 active, so they are no longer current. |

## Left out

- The JSX markup, CSS classes, lucide icon components and the Badge, Card and Button components
  are presentation. The model keeps only which entries, badges, icons and buttons appear, and in
  what order.
- `Math.random()` and `Date.now()` in `generateMockData` are nondeterministic. The trend series
  and alert timestamps are parameters, and the sample values are carried without being
  interpreted.
- The `lastRefresh` clock, the 30-second `setInterval` and its `clearInterval` teardown are timer
  plumbing. `Refresh` models a refresh as wholesale replacement of the record.
- `handleViewPatientDetails` only writes to the console. The card models the id it is called
  with.
- `Dashboard.AverageHeartRate` does not model floating-point division. Heart rates are integers,
  and for sums and counts of realistic size the rounded quotient is exact.
- `toLocaleString`, `toLocaleTimeString` and `toUpperCase` depend on locale and library
  behaviour. They only format text.
- React's `key={alert.id}` bookkeeping is not modelled. Duplicate ids only affect React's
  reconciliation, not the lists computed here.
- src/components/HealthMetricsChart.tsx is not part of this model. It is a chart wrapper, and
  its value checks compare floating-point readings and are unused.
- src/components/StatsOverview.tsx is not part of this model. It only displays the computed
  statistics.
