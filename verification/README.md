# Verified model of the maritime intelligence service

This project models the state-heavy core of the maritime intelligence service and proves what its
operations promise over every input, every run and every interleaving. Each operation that changes
state is a method of a class whose fields are the program's own; its contract equates the new state
with a specification function, and the laws are lemmas about those functions and about whole runs.

| files | what they model |
|---|---|
| `Base`, `Classification` | small datatypes, identifiers, the ordered sensitivity labels |
| `Geo`, `GeoLaws` | even-odd polygon containment and its laws, over exact reals |
| `FusionModel`, `FusionEngine` | the track-fusion engine: the state as values, and the engine with its mutable tracks, method by method |
| `FusionRuns`, `FusionReplay`, `FusionRestart` | runs and their invariant, replay after a restart, the restarted engine beside the original |
| `FusionHistory`, `FusionMeaning`, `FusionAlerts`, `FusionLabels`, `FusionIdentity` | what points, clocks, latches, labels and MMSI bindings mean in terms of the full history |
| `FusionRebuild` | exactly when a replay rebuilds the state |
| `FusionFacts` | what points, labels and alerts carry, field by field |
| `TrackStore`, `TrackWrites`, `LostAlerts` | what fusion persists, what overlapping requests make of it, which alerts are lost, and what a startup replays |
| `Utf16`, `Jcs`, `JcsNumber`, `JcsParser`, `Provenance` | canonical JSON (RFC 8785): printer, number layouts, a parser that undoes them, the signed payload |
| `Outbox`, `OutboxProtocol` | the leased outbox tables, the publisher, and any number of workers over them |
| `Feed`, `FeedLaws` | feed trust anchors, key rotation, admissions of events and detections |
| `Access` | clearance-filtered reads of admitted detections |
| `Ledger`, `LedgerLaws` | the dual-control outcome ledger and its TigerBeetle transfers |
| `Incident`, `IncidentLaws` | the incident lifecycle under optimistic concurrency |

Conventions. A Go `range` over a map is an arbitrary enumeration of its keys: specification functions
take the order as an argument, methods choose it nondeterministically, and every theorem holds for all
orders. Clocks, fresh identities, broker answers, crashes and lost responses are arguments or steps. A fusion run
begins with an engine whose startup has replayed any log, be it empty, so its theorems hold in every
lifetime of the service (`FusionReplay.Booted`).
Times are integer nanoseconds; the zero time is 0. Strings are sequences of Unicode scalar values, and
the limits the program puts on their lengths in bytes are counted in these.
Coordinates are exact reals and the ground distance is an arbitrary function. Hashes, signatures and
the shortest-double algorithm are arguments; where a theorem needs injectivity it says so.

## What the proofs found in the code

Where a promise fails, the code is modelled as it is and the exact condition is proved.

- `associate` compares times with a saturating subtraction and a wrapping negation, so a report more
  than 2^63 ns older than a track passes any window (`FusionIdentity.WindowExact`).
- `Detection.Validate` fills in the MMSI of a copy, and accepts two MMSI fields that contradict each
  other; AIS reports that carry it only in the payload are placed by position alone, and one track may
  absorb two vessels. Placement is safe exactly for detections whose two fields are the same
  (`FusionIdentity.PayloadOnlyMmsiMixes`, `FusionIdentity.OneMmsiExactly`).
- A track opened by a report whose two MMSI fields contradict each other is rebuilt under the other
  MMSI, and later reports may go to another track than before the restart
  (`FusionRebuild.RebuildsExactly`, `FusionRebuild.RestartMovesVessel`).
- Alerts of one kind raised by one report share an identity; only the first is stored and announced,
  and the others never are before a restart, since their latches are set (`TrackStore.OneAlertPerKindIsKept`,
  `LostAlerts.SecondAlertIsLost`, `LostAlerts.SecondZoneNeverStored`).
- Two overlapping requests on one track may write their snapshots in the opposite order; the row then
  keeps a label below the track's, and too few points, until a newer snapshot is written
  (`TrackWrites.RowAgreesExactly`, `TrackWrites.OvertakenRow`).
- A startup replays in the order of observation, not of fusion, so a report that arrived late is
  replayed early and the rebuilt track differs (`TrackStore.ReplaysTheLog`,
  `TrackStore.RebuiltOnlyInOrder`, `TrackStore.LateReportIsReordered`).
- The comment of `ListAssociationsForReplay` promises an error for a missing detection; the inner join
  skips the row (`TrackStore.NothingSkippedExactly`).
- `json.Decoder.More` lets a closing bracket or brace pass after the document
  (`Provenance.TrailingDataExactly`); a value with a NaN or an infinity anywhere in it gets a text that
  is not JSON (`JcsParser.TextIsJsonExactly`).
- A revocation of a source that is active again and has a revocation on record succeeds and leaves it
  active (`FeedLaws.RevocationExactly`, `FeedLaws.SecondRevocationDoesNothing`); an admission receipt
  names the active key even when a rotated-out key verified (`FeedLaws.ReceiptNamesActiveKey`,
  `FeedLaws.GraceReceiptMisleads`). Three keys of a source are acceptable
  at some instant exactly when two keys other than the active one were rotated out at one instant and
  both outlive the grace of every key rotated out later (`FeedLaws.AtMostTwoKeysExactly`,
  `FeedLaws.SimultaneousRotations`).
- `ListDetections` decodes the stored JSONB document again, which need not yield what admission decoded
  from the signed text; a row passes its second check for every reader exactly when the label has not
  risen (`Access.PassesAllReadersExactly`).
- An UNCLASSIFIED outcome is posted to TigerBeetle and can never be confirmed, and a SECRET one is
  announced as CONFIDENTIAL (`LedgerLaws.CommitsExactly`, `LedgerLaws.UnclassifiedIsStranded`,
  `LedgerLaws.OutboxLabelExactly`).
- Creating an incident again is a conflict when its time has a sub-microsecond part, because the column
  drops it (`IncidentLaws.ReplayedCreateExactly`).
- An outbox row that is claimed again, after its lease has run out, before each holder's mark is sent
  for ever and never published, and a younger row is never claimed. With the workers' clock ahead of the
  database's by more than the lease every claim may come so early (`OutboxProtocol.OvertakenForEver`,
  `OutboxProtocol.SkewedClocksStarve`); an effective publish mark in between ends it, whatever the clocks
  (`OutboxProtocol.OfferedAgainExactly`).
- Nothing keeps two publisher processes from sharing one worker identity; then a late failure of one
  gives back the row the other holds (`OutboxProtocol.MarkCountsExactly`,
  `OutboxProtocol.SharedIdentityFreesRow`).

## Model

| member | source | states |
|---|---|---|
| Base.IdentifiersExactly | internal/incident/model.go:36 | identifiers by character codes and length |
| Classification.MaxIsLeastUpperBound | internal/isr/classification.go:66-83 | a clearance covers the more sensitive of two labels exactly when it covers both |
| Geo.NewZone | internal/geo/geo.go:68-90 | a zone is accepted exactly when identifier, kind, vertex count, coordinates and distinct neighbours are right |
| Geo.ZonesExactly | internal/geo/geo.go:68-90 | those rules in figures: identifier of up to 256 characters, 3 to 10000 vertices in range, each unlike its successor around the cycle |
| Geo.Contains | internal/geo/geo.go:94-119 | the loops compute: at least three vertices, and on the boundary or inside by even-odd parity |
| Geo.CrossingLoop | internal/geo/geo.go:104-118 | the toggling loop computes the crossing parity of the closed vertex cycle |
| Geo.ZonesContaining | internal/geo/geo.go:137-145 | exactly the containing zones, in the order supplied |
| Geo.ContainingExact | internal/geo/geo.go:137-145 | a zone is among them exactly when it is supplied and contains the position |
| Geo.CrossesIsSymmetric | internal/geo/geo.go:111-116 | the toggle of an edge does not depend on its direction |
| Geo.OnSegmentIsSymmetric | internal/geo/geo.go:121-133 | nor does the boundary test |
| GeoLaws.ChordSplits | internal/geo/geo.go:104-118 | cutting a polygon along any chord XORs the parities of the two parts |
| GeoLaws.EvenOddIsFan | internal/geo/geo.go:104-118 | the parity is the XOR over the fan triangles from vertex 0 |
| GeoLaws.TriangleExact | internal/geo/geo.go:104-118 | for a point on no edge, the parity of a triangle is strict containment |
| GeoLaws.TriangleContains | internal/geo/geo.go:94-133 | for every point, a triangle contains it exactly when it is on the boundary or on the same side of all edges |
| GeoLaws.EvenOddCountsTriangles | internal/geo/geo.go:104-118 | for a point on no edge of the fan, the loop answers whether an odd number of fan triangles contain it |
| GeoLaws.RotationInvariant | internal/geo/geo.go:94-119 | containment is unchanged by rotating the vertex list |
| GeoLaws.ReversalInvariant | internal/geo/geo.go:94-119 | and by reversing it |
| GeoLaws.BoundaryIsInside | internal/geo/geo.go:121-133 | every convex combination of an edge's endpoints is inside |
| GeoLaws.BoundaryIsNear | internal/geo/geo.go:121-133 | conversely the boundary test accepts only points within tolerance of the segment |
| GeoLaws.InsideIsNear | internal/geo/geo.go:94-133 | in figures: with edges at least 0.000001 degrees long, a position inside is within 0.000001 degrees of an edge or has odd crossing parity |
| GeoLaws.FarOutsideIsOutside | internal/geo/geo.go:94-133 | so a position more than 0.000001 degrees outside the bounding box is never inside |
| GeoLaws.ToleranceExactly | internal/geo/geo.go:121-133 | exactly how far off an edge along a parallel the boundary reaches, in figures, whatever its length |
| GeoLaws.OutsideBoundingBox | internal/geo/geo.go:104-118 | the crossing loop answers false outside the bounding box, on all four sides |
| FusionEngine.Engine.NewEngine | internal/tracks/fusion.go:177-200 | an engine is made exactly from a valid configuration and valid zones, and starts empty |
| FusionEngine.Engine.Associate | internal/tracks/fusion.go:371-411 | returns the bound, nearest or fresh track and leaves the specified state |
| FusionEngine.Engine.NearestTrack | internal/tracks/fusion.go:377-400 | the scan over the tracks computes the running best for the order it took |
| FusionEngine.Engine.AbsorbPoint | internal/tracks/fusion.go:271-304 | point, MMSI binding, label, last AIS time, latch and window of 4096 points |
| FusionEngine.Engine.RestoreRuleState | internal/tracks/fusion.go:309-357 | zone clocks and pair records after a replayed point |
| FusionEngine.Engine.Evaluate | internal/tracks/fusion.go:414-514 | all rules: the new state and the alerts, in order |
| FusionEngine.Engine.LoiterRule | internal/tracks/fusion.go:445-467 | zone clocks, latches and loitering alerts of one point |
| FusionEngine.Engine.EvaluatePair | internal/tracks/fusion.go:471-512 | one turn of the pair loop: records, latches, label and alert |
| FusionEngine.Engine.Ingest | internal/tracks/fusion.go:214-231 | refuses exactly the unacceptable detections, unchanged; otherwise makes the specified step |
| FusionEngine.Engine.Replay | internal/tracks/fusion.go:243-267 | refuses exactly the unacceptable associations; otherwise restores the specified state |
| FusionFacts.AcceptedExactly | internal/isr/events.go:198-262 | which detections are ingested or replayed: label, time, position in range, nine-digit MMSIs, an AIS payload exactly for AIS |
| FusionFacts.ReplayableExactly | internal/tracks/fusion.go:250-252 | which persisted identities are replayed |
| FusionEngine.Engine.ScanDarkVessels | internal/tracks/fusion.go:522-554 | the specified latches and alerts for the order it took |
| FusionRuns.PairLoop | internal/tracks/fusion.go:471-512 | clocks and latches after the pair loop do not depend on the map order |
| FusionRuns.IngestKeepsInv | internal/tracks/fusion.go:214-231 | one report keeps the index sound, labels approved and pair records and latches symmetric |
| FusionRuns.ReachableStates | internal/tracks/fusion.go:161-173 | so does every run of reports and scans |
| FusionReplay.RebuiltIsSound | internal/tracks/fusion.go:240-267 | and every startup, whatever it replays: with a track for each association and all latches clear |
| FusionReplay.RebuildsAlike | internal/tracks/fusion.go:309-357 | the map order during a startup does not matter |
| FusionReplay.RestartedIsBooted | internal/tracks/fusion.go:233-242 | a restart after any run leaves such an engine again |
| FusionReplay.RestoreMirrorsEvaluate | internal/tracks/fusion.go:306-357 | restoring makes the transitions of evaluation and touches no latch or label |
| FusionReplay.ReplayRefinesIngest | internal/tracks/fusion.go:233-267 | replaying a run's associations in order rebuilds tracks, points, bindings, index, AIS times and clocks, with all latches clear, when the reports that open tracks in it agree on their MMSI |
| FusionRebuild.RebuildsExactly | internal/tracks/fusion.go:233-267 | that condition is exact: the state is rebuilt if and only if no opening report of the run contradicts itself |
| FusionRebuild.RestartMovesVessel | internal/tracks/fusion.go:289-297 | without it a legal run after which a report goes to another track than in the original |
| FusionRestart.LoiteringExactly | internal/tracks/fusion.go:447-462 | the zones that alert are exactly those that contain the point, are due and not latched |
| FusionRestart.RunShadow | internal/tracks/fusion.go:233-267 | on the same input a copy with fewer latches keeps the same state and raises at least the same alerts |
| FusionRestart.FailSafeRestart | internal/tracks/fusion.go:233-267 | after a restart every detection goes to the same track and no alert of the original is missed, unless an opening report contradicted itself |
| FusionHistory.IngestReported | internal/tracks/fusion.go:214-231 | a report changes other tracks in their pair records only |
| FusionHistory.IngestRerecords | internal/tracks/fusion.go:471-502 | the record of every pair after a report |
| FusionMeaning.RebuiltMeans | internal/tracks/fusion.go:233-242 | after a startup the state means what was replayed |
| FusionMeaning.StateMeansHistory | internal/tracks/fusion.go:113-127 | in every run, before and after restarts, points, AIS time, label, zone clocks and pair records mean what the full history says |
| FusionFacts.PointsAreReports | internal/tracks/fusion.go:271-304 | in every run a track holds the points of its last 4096 detections, field by field, in the order they were fused |
| FusionFacts.LabelAfterReport | internal/tracks/fusion.go:299 | who may read a track after a report: those who may read what it was, the detection, and every track the report raises a rendezvous alert with |
| FusionMeaning.LoiteringClock | internal/tracks/fusion.go:298-302 | the zone clock runs exactly during a stay and shows its first report, however many points were dropped |
| FusionMeaning.RendezvousClock | internal/tracks/fusion.go:468-502 | the pair record exists exactly during an unbroken contact, that is, while each report finds the latest one of the other track within the minimum duration and the rendezvous radius, and shows the earlier time of first contact |
| FusionAlerts.LoiteringByClock | internal/tracks/fusion.go:451-461 | the loitering rule in terms of the clock |
| FusionAlerts.AlertsAtMostOnce | internal/tracks/fusion.go:456-510 | one loitering alert per track and zone, one rendezvous per unordered pair, in any run since a startup |
| FusionAlerts.LoiteringExactlyOnce | internal/tracks/fusion.go:456-460 | a report raises one exactly when it ends a long enough unbroken stay of the whole history and none was raised since the startup |
| FusionAlerts.RendezvousExactlyOnce | internal/tracks/fusion.go:503-510 | the same for an unbroken contact of two tracks |
| FusionAlerts.SpeedExactly | internal/tracks/fusion.go:431-444 | a report raises a speed alert exactly when it outruns the report before it in the full history |
| FusionAlerts.DarkLatchMeans | internal/tracks/fusion.go:281-287 | the dark latch is set exactly while an alert is unanswered |
| FusionAlerts.DarkAlertsAreSeparated | internal/tracks/fusion.go:516-554 | two dark alerts of a track are separated by an AIS report not older than the last |
| FusionAlerts.DarkExactly | internal/tracks/fusion.go:527-553 | a scan alerts exactly on silent tracks, by their history, without an unanswered alert |
| FusionFacts.AlertsOfReport | internal/tracks/fusion.go:414-514 | every alert of a report: its tracks, instant and correlation references, and a label between those of its track |
| FusionFacts.ScanAlertsFit | internal/tracks/fusion.go:522-554 | every alert of a scan: the silent track, its label, and the first zone of the list it was last seen in |
| FusionLabels.LabelsDominate | internal/tracks/fusion.go:299 | who may read a track may read every detection ever absorbed into it |
| FusionLabels.LabelsNeverDecrease | internal/tracks/fusion.go:506-507 | labels never decrease in a running engine |
| FusionLabels.AlertLabelsDominate | internal/tracks/fusion.go:137-139 | who may read an alert may read every detection absorbed so far into the tracks it names |
| FusionLabels.ReplayedLabels | internal/tracks/fusion.go:261-264 | replay gives each track the maximum of its detections' labels |
| FusionLabels.ReplayNeverRaises | internal/tracks/fusion.go:243-267 | which is never above the original label |
| FusionIdentity.AssociateIsNearest | internal/tracks/fusion.go:371-411 | the bound track, else a nearest eligible one within the radius, else none exactly when none is within reach |
| FusionIdentity.WindowExact | internal/tracks/fusion.go:389-395 | which time gaps pass the window |
| FusionIdentity.CenturiesApart | internal/tracks/fusion.go:389-395 | two instants that pass it wrongly |
| FusionIdentity.RunIdentity | internal/tracks/fusion.go:289-297 | with equal MMSI fields, every run keeps index, tracks and reports in agreement on who is who |
| FusionIdentity.IdentitiesNeverMix | internal/tracks/fusion.go:371-411 | then the index is the exact inverse, and two reports share a track exactly when they share an MMSI |
| FusionRebuild.IdentitiesSurviveRestart | internal/tracks/fusion.go:233-267 | a restart keeps that agreement |
| FusionIdentity.PayloadOnlyMmsiMixes | internal/isr/events.go:225-233 | without it a legal run puts two vessels into one track |
| FusionIdentity.OneMmsiExactly | internal/tracks/fusion.go:289-297 | an AIS detection has equal MMSI fields exactly when no run of such reports before it makes it join a track under another MMSI than its payload's |
| TrackStore.Store.RecordFusion | internal/tracks/store.go:28-68 | snapshot upsert, first association kept, alerts stored |
| TrackStore.Store.RecordAnomalies | internal/tracks/store.go:72-87 | stores and announces each identity once |
| TrackStore.PersistsFirst | internal/tracks/store.go:137-148 | under an identity stays what was there, else the first alert with it |
| TrackStore.OneAlertPerKindIsKept | internal/tracks/fusion.go:417-428 | what is stored for an alert is what was there under its identity, else the first one of its kind in the same report |
| TrackStore.SecondZoneIsLost | internal/tracks/store.go:140-148 | of two loitering zones in one report only the first can be stored |
| LostAlerts.RaisedOnce | internal/tracks/fusion.go:456-510 | no two alerts of a run are about the same stay or contact |
| LostAlerts.SecondAlertIsLost | internal/tracks/store.go:137-148 | the later of two alerts of one kind in one report is never stored, whatever overlaps and however the engine runs on |
| LostAlerts.SecondZoneNeverStored | internal/tracks/fusion.go:447-462 | two valid overlapping zones and two reports after which the second zone's alert is never stored |
| TrackStore.ListedInOrder | internal/tracks/store.go:107 | later in the listing means observed no earlier, then recorded no earlier, then by source and event |
| TrackStore.NothingSkippedExactly | internal/tracks/store.go:102-107 | the listing is complete exactly when no detection is missing |
| TrackStore.SnapshotsAgree | internal/tracks/store.go:39-50 | when each report is written before the next event, the track table shows the engine's labels, MMSIs and point counts, and first and newest observation |
| TrackStore.AssociationsAreTheLog | internal/tracks/store.go:51-58 | and the association table is the engine's log |
| TrackWrites.ReachableTables | internal/server/isr_handlers.go:65-88 | the invariant over any interleaving of reports, looks, writes and failed writes |
| TrackWrites.RowAgreesExactly | internal/tracks/store.go:39-50 | a row shows the track as of the last snapshot written: label and count agree if no report came since, the count falls short if one did, the label never exceeds the track's |
| TrackWrites.RowTimesExactly | internal/tracks/store.go:39-50 | the last time is the newest of the history exactly when a snapshot ending with it was written; the first time is the oldest if the first snapshot written had all points |
| TrackWrites.OvertakenRow | internal/server/isr_handlers.go:75-83 | a legal schedule that leaves the row below the track |
| TrackWrites.AnomaliesExactly | internal/tracks/store.go:137-148 | the stored alerts are the first of each identity in a written event, each announced once |
| TrackWrites.AssociationsExactly | internal/tracks/store.go:51-58 | the associations are those of the written events |
| TrackStore.ReplaysTheLog | internal/tracks/store.go:96-124 | the startup replays exactly the log if and only if all of it was written and retained and fused in listing order |
| TrackStore.RestartRebuilds | internal/tracks/store.go:89-124 | from the engine through the tables back into a fresh engine, exactly when opening reports agree |
| TrackStore.RestartFromWritten | internal/tracks/store.go:89-124 | the same for the tables of a run that writes each report before the next event |
| TrackWrites.RestartAfterOverlap | internal/tracks/store.go:89-124 | the same after any interleaving of requests |
| TrackStore.RebuiltOnlyInOrder | internal/tracks/store.go:89-124 | the state is rebuilt only if each track's detections are replayed in the order they were fused |
| TrackStore.LateReportIsReordered | internal/tracks/store.go:103-107 | a report that arrives late is replayed early, and the rebuilt state differs |
| Utf16.EncodeInjective | internal/provenance/provenance.go:502-503 | UTF-16 encoding is injective |
| Utf16.Utf16Less | internal/provenance/provenance.go:501-509 | the loop computes the lexicographic order of code units |
| Utf16.StrictTotalOrder | internal/provenance/provenance.go:501-509 | which is a strict total order on keys |
| Utf16.NotCodePointOrder | internal/provenance/provenance.go:501-509 | and not the order of code points |
| Jcs.CanonicalString | internal/provenance/provenance.go:413-444 | appends the quoted string with the minimal escapes |
| Jcs.SortKeys | internal/provenance/provenance.go:384-388 | the keys in ascending order |
| Jcs.AscendingUnique | internal/provenance/provenance.go:384-388 | there is only one ascending enumeration, so the map order cannot matter |
| Jcs.CanonicalValue | internal/provenance/provenance.go:355-410 | appends exactly the canonical text, or fails exactly when there is none |
| Jcs.Canonicalize | internal/provenance/provenance.go:346-352 | the canonical text whatever the map order, or an error |
| JcsNumber.LayoutDenotes | internal/provenance/provenance.go:478-498 | each layout denotes exactly digits times ten to the n - k |
| JcsNumber.LayoutReadsBack | internal/provenance/provenance.go:478-498 | reading a layout back, with anything behind it |
| JcsNumber.NumberReadsBack | internal/provenance/provenance.go:449-498 | reading a number back recovers sign, digits and exponent |
| JcsNumber.NumberForm | internal/provenance/provenance.go:449-498 | the shape of a number text in each range of magnitudes, with the bounds in figures |
| JcsNumber.ExponentForm | internal/provenance/provenance.go:487-498 | the shape of the exponent: a sign and digits without a leading zero |
| JcsParser.StringReadsBack | internal/provenance/provenance.go:413-444 | reading a string back |
| JcsParser.StringTextIsShortest | internal/provenance/provenance.go:413-444 | of all texts that read as a string the canonical one is shortest, its hexadecimal digits are lower-case, and no other shortest text has such digits only |
| JcsParser.ValueReadsBack | internal/provenance/provenance.go:355-410 | the parser undoes the printer whatever text follows |
| JcsParser.CanonicalDecides | internal/provenance/provenance.go:344-352 | canonical texts are equal exactly when the values are |
| JcsParser.CanonicalExamples | internal/provenance/provenance.go:355-410 | the texts of a list and of an object, character by character |
| JcsParser.CanonicalPrefixFree | internal/provenance/provenance.go:344-352 | no canonical text but a number's is a proper prefix of another |
| JcsParser.JsonIsEncodable | internal/provenance/provenance.go:355-410 | every JSON value has a canonical text |
| JcsParser.TextIsJsonExactly | internal/provenance/provenance.go:355-410 | of the values that are not refused, exactly those without a NaN or an infinity anywhere get a JSON text; the others' texts do not parse at all |
| JcsParser.NonFiniteIsNotJson | internal/provenance/provenance.go:373-378 | the bare number, whatever follows it |
| Provenance.TrailingDataExactly | internal/provenance/provenance.go:331-342 | which trailing text the decoder refuses |
| Provenance.SignedPayload | internal/provenance/provenance.go:139-159 | each refusal, or the canonical text without the signature and the signature |
| Provenance.SignatureIsNotCovered | internal/provenance/provenance.go:120-133 | embedding a signature leaves the payload alone and is read back |
| Provenance.UnsignedIsUnsigned | internal/provenance/provenance.go:146-152 | an envelope without its signature reads as unsigned, and taking it out again changes nothing |
| Provenance.PayloadCoversTheRest | internal/provenance/provenance.go:135-159 | equal payloads exactly for envelopes that agree on everything else |
| Outbox.Store.Select | internal/incident/outbox.go:39-45 | the first claimable row that is not locked |
| Outbox.Store.Claim | internal/incident/outbox.go:25-64 | each refusal, or the lease on that row and one more attempt |
| Outbox.Store.MarkPublished | internal/isr/isr_outbox.go:74-88 | only the holder publishes, and then the row is released |
| Outbox.Store.MarkFailed | internal/isr/isr_outbox.go:91-111 | only the holder gives the row back, with a bounded error text |
| Outbox.BackoffExact | cmd/maritime-intelligence-outbox-publisher/main.go:167-179 | doubling without int64 overflow, up to the maximum |
| Outbox.BackoffLaws | cmd/maritime-intelligence-outbox-publisher/main.go:167-179 | positive, bounded, monotone |
| Outbox.DeliverOne | cmd/maritime-intelligence-outbox-publisher/main.go:141-165 | an undisturbed delivery: when each error comes back and, field by field, the row a heard send, a failed send and an unstorable failure leave: published, given back until the wait is over, or still claimed |
| Outbox.BackoffIsWait | cmd/maritime-intelligence-outbox-publisher/main.go:167-179 | the wait is one second doubled for each attempt after the first, up to the thirtieth and the maximum |
| Outbox.TrimExactly | internal/incident/outbox.go:87 | what trimming a failure text takes away: white space at both ends, and all of it |
| Outbox.CanonicalExactly | internal/incident/outbox.go:26 | a text is blank exactly when trimming leaves nothing, and canonical exactly when trimming leaves it alone |
| OutboxProtocol.ReachableStates | internal/incident/outbox.go:25-102 | the invariant over any interleaving, crash and ambiguous send |
| OutboxProtocol.AtLeastOnce | internal/incident/outbox.go:66-81 | published rows were accepted, have one effective mark, and sends never exceed attempts |
| OutboxProtocol.PublishedIsFrozen | internal/incident/outbox.go:66-102 | a published row never changes again |
| OutboxProtocol.LeasesApart | internal/incident/outbox.go:39-45 | successive claims of a row are a lease apart unless it was given up |
| OutboxProtocol.RetryIsRespected | cmd/maritime-intelligence-outbox-publisher/main.go:159-160 | a row given back is not claimed before its retry time |
| OutboxProtocol.SupersededMarksNothing | internal/incident/outbox.go:70-79 | a mark after a claim under another identity changes nothing |
| OutboxProtocol.MarkCountsExactly | internal/incident/outbox.go:66-102 | a mark takes effect exactly under the identity of the last claim, whichever process makes it |
| OutboxProtocol.SharedIdentityFreesRow | cmd/maritime-intelligence-outbox-publisher/main.go:214 | a run of two processes with one identity in which the one frees the row the other holds |
| OutboxProtocol.LaxCheckIsHarmless | internal/isr/isr_outbox.go:74-77 | the ISR table's laxer worker check lets no further mark through |
| OutboxProtocol.OfferedAgainExactly | internal/incident/outbox.go:39-45 | a claimed row is on offer again exactly when its stamp has passed the cutoff without a mark, its retry time has come after a failure, and never after a publish mark |
| OutboxProtocol.NoRowIsStranded | internal/incident/outbox.go:39-45 | whatever else happens, a due row is claimed after as many claims as rows are ahead of it, plus one for every older row that comes in or row given back early |
| OutboxProtocol.OvertakenForEver | cmd/maritime-intelligence-outbox-publisher/main.go:141-165 | a schedule of two workers in which nothing is ever published is legal exactly when each claim finds the last lease expired |
| OutboxProtocol.SkewedClocksStarve | internal/incident/outbox.go:43-55 | which it always does with the clocks more than a lease apart |
| Feed.BytesEqual | internal/isr/store.go:209-218 | the accumulating loop decides equality |
| Feed.Store.RegisterFeedSource | internal/incident/feed.go:123-156 | registers, refreshes or refuses |
| Feed.Store.RotateFeedSourceKey | internal/incident/feed.go:383-418 | replaces the key and keeps the prior one until its grace ends |
| Feed.Store.RevokeFeedSource | internal/incident/feed.go:323-360 | deactivates with evidence, idempotently |
| Feed.Store.SelectGrace | internal/incident/feed.go:274 | the latest rotated key still in its grace |
| Feed.Store.AdmitFeedEvent | internal/incident/feed.go:256-302 | the receipt or refusal, and the retained event |
| Feed.Store.AdmitDetection | internal/isr/store.go:95-193 | the same for a detection, with its label column and outbox row |
| FeedLaws.RegistersExactly | internal/incident/feed.go:55-156 | which registrations succeed, and the source they leave |
| FeedLaws.RotatesExactly | internal/incident/feed.go:369-418 | which rotations succeed, with a grace of at most 30 days in figures, and the rows they leave |
| FeedLaws.RevokesExactly | internal/incident/feed.go:311-360 | each refusal of a revocation, which succeed, and the rows they leave |
| FeedLaws.EventAdmittedExactly | internal/incident/feed.go:69-302 | with the window and the sizes in figures: which requests get past validation and authorization, which refusal each other one gets, and the receipt and row of an admission |
| FeedLaws.DetectionAdmittedExactly | internal/isr/store.go:95-193 | the same for a detection, with its label and MMSI columns and its outbox row |
| FeedLaws.ReachableStates | internal/incident/feed.go:123-156 | fingerprints, rotation rows, label columns, identities and outbox rows in every run |
| FeedLaws.KeyChangesByRotationOnly | internal/incident/feed.go:113-122 | a source is never forgotten and its key changes only by rotation |
| FeedLaws.AtMostTwoKeysExactly | internal/incident/feed.go:271-278 | at most two keys are acceptable at every instant if and only if no two keys of the source other than the active one tie: rotated out at one instant, and both outliving the grace of every later one |
| FeedLaws.AtMostTwoKeys | internal/incident/feed.go:271-278 | so it is when rotations of the source take effect at different instants |
| FeedLaws.SimultaneousRotations | internal/incident/feed.go:271-278 | a run with a tie and three acceptable keys |
| FeedLaws.AdmittedUnderRecentKey | internal/incident/feed.go:256-278 | every admission is under the active key or one rotated out less than 30 days before |
| FeedLaws.RetiredByRotation | internal/incident/feed.go:404-413 | the record of retired keys is that of the rotations |
| FeedLaws.ReceiptNamesActiveKey | internal/incident/feed.go:301 | a receipt names a key that verifies exactly when the active key does |
| FeedLaws.GraceReceiptMisleads | internal/incident/feed.go:271-301 | a run in which it names one that does not |
| FeedLaws.EvidenceStays | internal/incident/feed.go:283-300 | retained events and detections never change and outbox rows are never lost |
| FeedLaws.AdmissionIsIdempotent | internal/incident/feed.go:283-300 | two admissions of one event have the same payload, signature and receipt time |
| FeedLaws.ReplayIsBounded | internal/incident/feed.go:85-99 | two admissions of one request are at most 24 hours and 5 minutes apart |
| FeedLaws.PreimageBinds | internal/incident/feed.go:101-104 | the signed text determines source, event, time and payload |
| FeedLaws.RevocationExactly | internal/incident/feed.go:338-345 | when a revocation leaves the source inactive |
| FeedLaws.ReactivationByRefreshOnly | internal/incident/feed.go:149-153 | how an inactive source becomes active |
| FeedLaws.SecondRevocationDoesNothing | internal/incident/feed.go:338-345 | a run in which a revocation leaves the source active |
| Access.InsurerTestIsRedundant | internal/isr/access.go:91-93 | the insurer test never decides |
| Access.ReadersExactly | internal/isr/access.go:37-97 | the seven reader roles, and which clearance reads which label |
| Access.CoveredLabels | internal/isr/access.go:132-140 | exactly the labels the clearance covers |
| Access.ListDetections | internal/isr/access.go:153-204 | the checked rows, or nothing |
| Access.ListsExactly | internal/isr/access.go:161-180 | in every reachable state the answer is the newest of the admitted detections that are asked for and covered, newest first, never more than 500 |
| Access.CheckedExactly | internal/isr/access.go:187-202 | the second check passes a list exactly when every document decodes to a readable label |
| Access.RecheckNeverFires | internal/isr/access.go:192-201 | in every reachable state it passes every row the query answers, if documents decode to no higher label than at admission |
| Access.PassesAllReadersExactly | internal/isr/access.go:187-201 | that condition is exact, row by row |
| Access.RecheckStopsMislabelled | internal/isr/access.go:196-200 | and it stops every row whose document is above the clearance |
| Ledger.TransferIDHex | internal/ledger/outcome.go:108-117 | the loop renders the bytes from last to first |
| Ledger.HexInjective | internal/ledger/outcome.go:106-117 | the text identifies the transfer |
| Ledger.HexWritesNumber | internal/ledger/outcome.go:106-117 | the text is the lower-case hexadecimal of the little-endian number of the bytes |
| Ledger.Service.PostOutcome | internal/ledger/outcome.go:122-148 | what is posted, and what the caller hears of it |
| Ledger.OutcomeStore.Propose | internal/ledger/store.go:95-130 | records once, accepts an exact replay, refuses a conflict |
| Ledger.OutcomeStore.Confirm | internal/ledger/store.go:135-200 | each refusal before the post, each error after it, and what stays |
| LedgerLaws.ProposeExactly | internal/ledger/store.go:49-130 | which proposals are accepted, by kind, metric, unit and figures, and what they leave |
| LedgerLaws.ConfirmExactly | internal/ledger/store.go:135-200 | field by field: when each refusal comes back, when a confirmation goes through, and every row and transfer it leaves |
| LedgerLaws.UndisturbedConfirm | internal/ledger/store.go:132-200 | in every reachable state the three steps of a confirmation with nothing between them do what Confirm does |
| LedgerLaws.ReachableStates | internal/ledger/store.go:132-200 | the invariant over any interleaving, crash, lost answer and late transfer request |
| LedgerLaws.Conservation | internal/ledger/outcome.go:119-148 | what was moved is the sum over the distinct posted entries, one transfer each |
| LedgerLaws.ConfirmedEntries | internal/ledger/store.go:158-181 | a confirmed entry has exactly its transfer and a second person's confirmation |
| LedgerLaws.RetryMovesNothing | internal/ledger/store.go:164-170 | a retry adds no transfer |
| LedgerLaws.LateRequestMovesNothing | internal/ledger/store.go:164-170 | nor does a late request for a posted entry |
| LedgerLaws.CommitsExactly | internal/ledger/store.go:186-196 | when a posted confirmation commits |
| LedgerLaws.OutboxLabelExactly | internal/ledger/store.go:190-193 | when the outbox column is the entry's own label |
| LedgerLaws.UnclassifiedIsStranded | internal/ledger/store.go:193 | an UNCLASSIFIED posting that no continuation confirms |
| LedgerLaws.EntriesAreImmutable | db/migrations/0009_outcome_ledger.sql:45-53 | confirmed entries never change |
| Incident.Store.Create | internal/incident/store.go:70-119 | creates, replays or refuses |
| Incident.Store.CompareAndSwap | internal/incident/store.go:157-180 | updates exactly on the status and version read |
| Incident.Store.Transition | internal/incident/store.go:139-185 | undisturbed, it succeeds exactly on the current version and a legal step |
| Incident.Store.Correlate | internal/incident/store.go:187-256 | records once, accepts an exact replay, refuses a conflict |
| Incident.Store.Assign | internal/incident/store.go:258-316 | assigns exactly on the current version of an incident that is not closed |
| IncidentLaws.CreateExactly | internal/incident/store.go:70-119 | each refusal, and every field of a new incident |
| IncidentLaws.TransitionExactly | internal/incident/store.go:139-185 | each refusal, the six legal steps, and every field of the row after one |
| IncidentLaws.UndisturbedTransition | internal/incident/store.go:139-185 | a read and an update with nothing between them are that transition |
| IncidentLaws.CorrelateExactly | internal/incident/store.go:187-256 | each refusal, with the digest text spelled out, and the row a new correlation leaves |
| IncidentLaws.AssignExactly | internal/incident/store.go:258-316 | each refusal, and every field an assignment changes |
| IncidentLaws.ReachableStates | internal/incident/store.go:70-316 | the invariant over any interleaving of reads and updates |
| IncidentLaws.OutboxConservation | internal/incident/store.go:113-117 | outbox rows = version + correlations |
| IncidentLaws.VersionsConsumedOnce | internal/incident/store.go:157-169 | each version is consumed by exactly one commit |
| IncidentLaws.StatusHistoryIsPath | internal/incident/model.go:170-183 | the history is a path of legal transitions, at most four |
| IncidentLaws.StatusGuardIsRedundant | internal/incident/store.go:159 | an update goes through exactly when the version is unchanged |
| IncidentLaws.OneWinner | internal/incident/store.go:157-169 | of two callers with the same version one wins |
| IncidentLaws.ClosedIsFinal | internal/incident/store.go:272-276 | a closed incident stays as it is |
| IncidentLaws.ReplayedCreateExactly | internal/incident/model.go:163-168 | when creating again returns the retained row |

## Left out

- FusionModel.Detection: the field-by-field checks of Detection.Validate beyond those fusion depends on are one boolean, because each is a single branch.
- FusionModel.World: the ground distance is an arbitrary function over reals; IEEE rounding, cosine and hypotenuse are not modelled.
- FusionModel.Anomaly: the detail text, the text form of identities and the latency recorder are not modelled.
- FusionReplay.ReplayRefinesIngest: labels and latches are stated separately because replay does not rebuild them.
- FusionEngine.Engine: the mutex is not modelled; the methods are the critical sections.
- TrackStore.SnapshotsAgree: holds when each report is written before the next event; what overlapping requests make of the rows is stated in TrackWrites.
- TrackWrites.ReachableTables: begins with empty tables and an empty engine; what a restart makes of them is RestartAfterOverlap, and LostAlerts speaks of the time before one.
- TrackStore.RestartRebuilds: sub-microsecond truncation of the time columns is not modelled.
- Jcs.Text: the UTF-8 encoding of the text and the shortest-double algorithm are library functions; numbers arrive as sign, shortest digits and exponent.
- Provenance.SignedPayload: the JSON decoder is an argument; JWS parsing, Ed25519, base64 and the key directory are not modelled.
- OutboxProtocol.NoRowIsStranded: the row locks other transactions hold during a claim are an argument of that claim; claims that find the row itself locked are not counted.
- Outbox.DeliverOne: the headers and topic of the message, polling and the 10-second send timeout are not modelled; a late acceptance is a step of its own in the protocol.
- Access.ListDetections: what decoding the stored JSONB yields is an argument; how JSONB and the decoder treat keys that differ only in case is not modelled.
- Feed.Store: created_at and updated_at columns are not modelled; the envelope document of an admission is reduced to its aggregate key and label.
- Ledger.Service: EnsureAccounts and the ledger and code numbers are not modelled; a transfer is its identity and amount.
- Incident.Store: AdmitFeedIncident, which admits an event and creates its incident in one transaction, is not part of this model.
- HTTP handlers, authentication, telemetry, pool configuration, the Temporal workflow, the scanner and the CV consumer are wiring around these cores.
- The request validators of incidents and proposals are modelled; normalizeBox and the sensor payload validators are not, being single-branch checks.
