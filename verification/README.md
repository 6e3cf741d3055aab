# Ride back-end protocols in Dafny

A model of the transactional core of the ride platform and proofs about it. Each committed SQL transaction is one atomic step on
an explicit store; roll-back leaves the store as it was. What the code reads from elsewhere (the clock, compliance, vehicle and
permission projections, query rows) is a parameter of the step.

| files | what they model |
|---|---|
| `Prelude`, `BookingStatus`, `DriverDomain`, `DriverDecisions` | shared vocabulary, the booking life cycle, availability, fatigue, eligibility and disclosure |
| `DispatchStore`, `DispatchProtocol` | the tables, SQL statements and commands of dispatch, journeys on an assignment, and every other writer of availability |
| `DispatchInvariants`, `DispatchDrivers`, `DispatchPreservation`, `DispatchJourneys`, `DispatchAcceptance`, `DispatchRuns` | the joint invariant and its proof for every command and run |
| `DispatchTheorems`, `DispatchEligibility`, `DispatchEffects`, `DispatchAnswers`, `DispatchHistory`, `DispatchReplay`, `DispatchAvailabilityLog`, `DispatchRest`, `DispatchWave`, `DispatchWitness`, `DispatchClearance` | what follows from it |
| `DispatchService` | the same commands statement by statement, proved equal to the protocol |
| `FatigueHandover`, `FatigueInvariants`, `FatigueTheorems`, `FatigueFinish`, `FatigueReplacement`, `FatigueDesk` | the control-room fatigue handover |
| `BookingSaga`, `SagaInvariants`, `SagaTheorems`, `SagaReplies`, `SagaSharedKey`, `SagaService`, `SagaRequests` | quoting and confirming a booking, with crashes |
| `Communications`, `Acknowledgement`, `CommunicationsClosure` | planning, acknowledging and closing a communication |
| `Finance`, `JourneyDomain` | ledger, payment runs and secret scan; identity checks, evidence and the provider-free journey |

`dafny verify dfyconfig.toml` checks everything.

## Where the code falls short of its promises

Each of these is stated as a lemma, with the exact condition where there is one.

- A vehicle concern (`services/api/src/modules/maintenance-reliability/maintenance-reliability-service.ts`) takes a driver OFFLINE but leaves the shift
  ACTIVE and open offers open; a fatigue report and an unsafe termination put a driver on BREAK and leave open offers open. These are
  the only steps that break "ACTIVE shift exactly when not OFFLINE" and "a resting driver holds no open offer"
  (`DispatchRest.ShiftMatchesAvailability`, `DispatchRest.RestingDriversHoldNoOffer`); each has a run in `DispatchWitness`.
- An unsafe termination leaves the status of the journey row as it was, and a fatigue clearance asks for bookings of the driver whose
  journey is under way whatever became of the assignment. A driver whose journey was terminated with the passenger aboard can therefore
  never be cleared (`DispatchClearance.NeverCleared`, `DispatchClearance.ClearanceIff`, `DispatchClearance.TerminationLeavesAboardIff`,
  `DispatchClearance.NeverClearedExample`).
- Fatigue report, fatigue clearance and the connectivity insert raise the availability version without a transition row, so the
  version equals the log length exactly in runs without them (`DispatchAvailabilityLog.VersionIsLogLengthIff`,
  `DispatchAvailabilityLog.ReconcileUnlogged`).
- Dispatch looks keys up by command, subject and key only. A key used for another booking or offer is answered with the first reply and
  nothing is done (`DispatchReplay.AcceptedMeansCarriedOutIff`, `DispatchWitness.SharedKeyLeavesBooking`,
  `DispatchWitness.SharedKeyKeepsOffer`).
- The driver service places the hold of a fatigue handover with reason DRIVER_FATIGUE_REPORTED; replacement, transfer and completion
  require DRIVER_FATIGUE_SAFETY. Handovers reported by the code are therefore never completed
  (`FatigueTheorems.ReportedHandoversNeverFinish`, `FatigueFinish.FinishableWithoutGuardIff`).
- The update trigger of migration 0024 demands a change of status; a recovery keeps the status, so the database refuses every recovery
  (`FatigueTheorems.GuardRefusesRecovery`). An owned, unfinished handover whose last task is over is therefore stranded for good
  (`FatigueFinish.StrandedByExpiry`, `FatigueFinish.FinishableIff`, `FatigueFinish.StrandedExample`). Results about recovery in
  `FatigueTheorems` are about the service code without that trigger; runs under it are runs of that code too (`FatigueFinish.GuardedIsRun`).
- A claim or a recovery is made under the current role that sorts first, even if another of the person's roles lasts longer
  (`FatigueTheorems.RecoverySucceedsIff`).
- Dispatch assigns a booking once, so the replacement assignment a handover waits for never exists
  (`FatigueReplacement.NoReplacementToRecord`).
- A crash right after the transition to QUOTE_CREATED or CONFIRMED strands the booking for good, and so does letting the offered quote
  expire (`SagaTheorems.StrandedForever`, `SagaTheorems.CrashStrandsIff`, `SagaTheorems.ExpiredOfferStrands`).
- Retrying a quote under its key prices again but keeps the stored quote, and the reply then shows the new price
  (`SagaReplies.QuoteReplyTrueIff`). Pricing keys are looked up without the booking, so a key shared by two bookings confirms the second
  one on the agreement of the first (`SagaReplies.SharedKeyConfirmsUnpriced`, `SagaSharedKey.SharedKeyExample`).
- No code moves a communication to ACK_REQUIRED, so nothing the service requests is ever acknowledged
  (`Acknowledgement.NothingAwaitsAcknowledgement`).
- A closure route makes one attempt even under an attempt cap of zero (`CommunicationsClosure.RouteThroughFailures`).

## Model

| member | source | states |
|---|---|---|
| BookingStatus.StatusNeverRepeats | packages/domain/src/booking-status.ts:46-74 | a booking log that chains from DRAFT along written edges visits no status twice and has at most 19 rows, because every written edge raises a rank |
| BookingStatus.HistoryRankIncreases | packages/domain/src/booking-status.ts:46-74 | along any history the rank of a later row is strictly higher than that of an earlier one |
| BookingStatus.ForwardBackwards | packages/domain/src/booking-status.ts:46-74 | the forward table, read backwards: from which statuses each status can be reached in one step |
| BookingStatus.ExceptionsEnd | packages/domain/src/booking-status.ts:16-74 | an exception status is one off the spine and has no forward step; an incident is written from an en-route up to an arriving journey and from nothing else |
| DriverDomain.OffersAllowedIffNoBlocker | packages/domain/src/driver-daily-operations.ts:65-110 | new offers and journey starts are allowed exactly when the blocker list is empty; escalation exactly with an active journey and a blocker |
| DriverDomain.FatigueExact | packages/domain/src/driver-daily-operations.ts:65-110 | in terms of the evidence: duty is the whole minutes since the end of a rest that lasted at least the minimum and ended after the shift began, else since the shift began; offers and starts are allowed exactly with nothing reported and duty below the limit; a warning is given exactly when rest is not required and the warning time has come; the decision is refused exactly for unreadable evidence |
| DriverDomain.FatigueReasons | packages/domain/src/driver-daily-operations.ts:84-99 | the reasons listed against the driver, in their fixed order, each exactly when it applies |
| DriverDomain.FatigueFaults | packages/domain/src/driver-daily-operations.ts:66-86 | which of the three errors is thrown: the policy is judged first, then the rest, then the duty |
| DriverDomain.MovesBackwards | packages/domain/src/dispatch.ts:34-41 | the availability table, read backwards |
| DriverDomain.EligibleExact | packages/domain/src/dispatch.ts:136-159 | eligibility as one condition on the facts, each comparison written out: standing of account, profile, compliance, vehicle, permissions and restrictions, and a fresh, confident, unassigned, free, rested and capable driver |
| DriverDomain.DisclosureExact | packages/domain/src/driver-daily-operations.ts:133-162 | acceptance is allowed exactly for a disclosure with distance, time to pick-up, some service, some context, a sound expected earning independent of the fare, and no penalty for declining |
| DriverDomain.RefusalPersists | packages/domain/src/driver-daily-operations.ts:74-109 | with the evidence fixed, offers once refused stay refused and a due break prompt stays due at every later time |
| DriverDomain.RestNeverHarms | packages/domain/src/driver-daily-operations.ts:74-109 | a rest below the minimum changes nothing; a qualifying rest never raises the observed duty nor takes permission away |
| DriverDomain.EligibleMeans | packages/domain/src/dispatch.ts:136-159 | eligible exactly when none of the seventeen blockers stands, so in particular available and without an active assignment |
| DriverDomain.AcceptanceMeansComplete | packages/domain/src/driver-daily-operations.ts:133-162 | acceptance is allowed exactly when no disclosure is missing |
| DriverDecisions.EvaluateDriverFatigueSafety | packages/domain/src/driver-daily-operations.ts:65-110 | the step-by-step evaluation, in terms of the evidence: it throws exactly for unreadable evidence; duty is the whole minutes since the end of a qualifying rest, else since the shift start; offers and starts are allowed exactly with nothing reported and duty below the limit; WARNING exactly when rest is not required and the warning time has come |
| DriverDecisions.EvaluateDriverOfferDisclosure | packages/domain/src/driver-daily-operations.ts:133-162 | the pushed list is the list of missing disclosures in their fixed order, empty exactly when none is missing |
| DriverDecisions.EvaluateDriverDispatchEligibility | packages/domain/src/dispatch.ts:136-159 | the pushed list is the list of standing blockers in their fixed order, empty exactly when none stands |
| DispatchRuns.ReachableHolds | services/api/src/modules/dispatch/dispatch-service.ts:369-1217 | after every sequence of the fifteen modelled commands the joint invariant over bookings, attempts, offers, outcomes, assignments, availability, shifts and journeys holds |
| DispatchRuns.ApplyKeeps | services/api/src/modules/dispatch/dispatch-service.ts:594-1217 | each single command keeps that invariant from any store that satisfies it |
| DispatchPreservation.StartKeeps | services/api/src/modules/dispatch/dispatch-service.ts:594-867 | starting dispatch keeps the invariant, with and without eligible drivers |
| DispatchPreservation.SetAvailabilityKeeps | services/api/src/modules/dispatch/dispatch-service.ts:369-518 | an availability change with its shift event and offer withdrawal keeps the invariant |
| DispatchInvariants.CloseManyKeeps | services/api/src/modules/dispatch/dispatch-service.ts:473-490 | closing any set of open offers with their outcome rows keeps offers, assignments and outcomes in step |
| DispatchAcceptance.AcceptCommitKeeps | services/api/src/modules/dispatch/dispatch-service.ts:1118-1185 | the seven-table commit of an acceptance keeps the invariant |
| DispatchAcceptance.WonOutcomeAt | services/api/src/modules/dispatch/dispatch-service.ts:1125-1150 | an acceptance adds one outcome row to the winner and to each rival it closes, and to no other offer |
| DispatchAcceptance.AcceptNeverRollsBack | services/api/src/modules/dispatch/dispatch-service.ts:1152-1184 | for an eligible driver neither the availability transition nor the shift can make the acceptance roll back |
| DispatchJourneys.EndKeeps | services/api/src/modules/driver-fair-treatment/driver-fair-treatment-service.ts:410-461 | ending a journey, by completion or unsafe termination, keeps the invariant |
| DispatchJourneys.TerminateKeeps | services/api/src/modules/driver-fair-treatment/driver-fair-treatment-service.ts:291-545 | the unsafe termination, which joins booking, assignment, availability and shift tables, keeps the invariant |
| DispatchJourneys.CompleteKeeps | services/api/src/modules/journey/live-journey-service.ts:447-602 | governed completion, which releases the driver, keeps the invariant |
| DispatchJourneys.AcknowledgeKeeps | services/api/src/modules/journey/journey-service.ts:357-433 | attaching a journey to an ACTIVE assignment keeps the invariant |
| DispatchDrivers.ShiftRecorded | services/api/src/modules/dispatch/dispatch-service.ts:75-125 | recording an availability change leaves an ACTIVE shift exactly for a driver who is not OFFLINE, and fails exactly when a shift must open without region or vehicle |
| DispatchTheorems.AssignedIffActive | services/api/src/modules/dispatch/dispatch-service.ts:1022-1217 | in every run a driver is ASSIGNED exactly while holding an ACTIVE assignment, and never holds two |
| DispatchTheorems.OneAssignmentPerBooking | services/api/src/modules/dispatch/dispatch-service.ts:1118-1123 | in every run a booking is assigned at most once ever |
| DispatchTheorems.AssignmentsWereDisclosed | services/api/src/modules/dispatch/dispatch-service.ts:1089-1091 | every assignment comes from an accepted offer to that driver for that booking with no disclosure missing |
| DispatchTheorems.SearchStatusesAgree | services/api/src/modules/dispatch/dispatch-service.ts:616-842 | a booking is SEARCHING_FOR_DRIVER exactly when its one attempt is OFFERING, NO_ELIGIBLE_DRIVER exactly when the attempt is, and has no attempt exactly before dispatch |
| DispatchTheorems.AssignedAttempt | services/api/src/modules/dispatch/dispatch-service.ts:1118-1151 | an ASSIGNED attempt has exactly one assignment, made from its only accepted offer, and no open offer |
| DispatchTheorems.OneOutcomePerClosedOffer | services/api/src/modules/dispatch/dispatch-service.ts:871-886 | an offer is open exactly when it has no outcome; a closed one has exactly one, matching how it closed, with no penalty flag |
| DispatchTheorems.ClosedOffersNeverReopen | services/api/src/modules/dispatch/dispatch-service.ts:980-999 | a closed offer and its outcome are the same after any further run |
| DispatchTheorems.ConflictClausesNeverFire | services/api/src/modules/dispatch/dispatch-service.ts:1074-1150 | in every reachable store the statements with ON CONFLICT DO NOTHING touch only offers that have no outcome yet |
| DispatchTheorems.AcceptanceExact | services/api/src/modules/dispatch/dispatch-service.ts:1022-1117 | an acceptance with a new key succeeds exactly for an open, unexpired offer of the driver whose disclosure and recheck pass: the attempt, booking, availability and shift guards are implied (what the recheck passes is `DispatchEligibility.AcceptanceMeans`) |
| DispatchEligibility.AcceptanceMeans | services/api/src/modules/dispatch/dispatch-service.ts:1022-1117 | read off the rows alone: in every store that keeps the invariant, an acceptance under a new key succeeds exactly for an open, unexpired, fully disclosed offer of the driver's own and a driver fit for the booking: account active, profile approved, compliance and vehicle snapshots ELIGIBLE and unexpired, vehicle authorised and its gate open for every service needed, no restriction in force for all services, new journeys, this vehicle, or school or wheelchair work asked for, a permission for each service in the region, no accepted commitment to another booking at that time, fresh and confident position, no ACTIVE assignment, rested, and every requirement met |
| DispatchEligibility.RecheckExact | services/api/src/modules/dispatch/dispatch-service.ts:152-346 | the accept-time recheck passes exactly for a driver fit for the booking with the vehicle of the offer |
| DispatchEligibility.CandidateExact | services/api/src/modules/dispatch/dispatch-service.ts:731-754 | a query row passes the offer-time filter exactly for a driver fit for the booking with the vehicle of the availability row |
| DispatchEligibility.OfferedAreFit | services/api/src/modules/dispatch/dispatch-service.ts:594-867 | every driver the first wave makes an offer to is fit for the booking, and the offer is for that driver, vehicle and booking and lives ttlSeconds seconds |
| DispatchEligibility.StartMeans | services/api/src/modules/dispatch/dispatch-service.ts:594-668 | a dispatch under a new key is accepted exactly for the booker's own booking that is ready, unless the fatigue evidence of some candidate cannot be read |
| DispatchEligibility.SearchMeans | services/api/src/modules/dispatch/dispatch-service.ts:755-867 | it leaves the booking SEARCHING_FOR_DRIVER exactly if some candidate is fit, else NO_ELIGIBLE_DRIVER, and says so |
| DispatchEligibility.QueryMeans | services/api/src/modules/dispatch/dispatch-service.ts:668-730 | an answer of the candidate query lists working, located drivers of the region, once each, nearest first with unknown distances last, and leaves a driver out only for 200 others at least as near |
| DispatchEligibility.WaveIsNearest | services/api/src/modules/dispatch/dispatch-service.ts:668-841 | a fit driver who gets no offer, whether the query or the wave ended before, is no nearer than any driver who gets one |
| DispatchEligibility.NeededIsRequired | services/api/src/modules/dispatch/dispatch-service.ts:127-150 | the services required are those whose word some requirement type spells in any case, STANDARD exactly if there is none |
| DispatchEligibility.DisclosureSays | services/api/src/modules/dispatch/dispatch-service.ts:807-826 | what an offer of the wave tells the driver: distance, the services needed, when, for whom, and time and pay from the development fixture |
| DispatchEligibility.AvailabilityMeans | services/api/src/modules/dispatch/dispatch-service.ts:369-461 | an availability change under a new key is accepted exactly if the move may be asked for, the fatigue evidence can be read and, to go online, the request names region, vehicle and a position at most the maximum age old, at most 30 s ahead and of sufficient confidence, and the driver may work with them (fatigue waived from OFFLINE only) |
| DispatchEligibility.AvailabilityStored | services/api/src/modules/dispatch/dispatch-service.ts:430-471 | what an accepted change stores: the status asked for, region, vehicle, observation time and confidence of the request when online, nothing when OFFLINE, the old place on BREAK, the next version, one logged move, and no other driver's row touched |
| DispatchEligibility.PreShiftExact | services/api/src/modules/dispatch/dispatch-service.ts:400-428 | the pre-shift check finds nothing exactly for a driver who may work and reports a good position |
| DispatchEffects.StartLeaves | services/api/src/modules/dispatch/dispatch-service.ts:594-867 | an accepted dispatch leaves exactly one of the two stores below, and its reply under its key |
| DispatchEffects.WaveLeaves | services/api/src/modules/dispatch/dispatch-service.ts:616-841 | a search leaves one new OFFERING attempt, the booking SEARCHING_FOR_DRIVER with one log row, the candidates in order with the facts they were ranked by, and changes no other table but offers |
| DispatchEffects.NoSearchLeaves | services/api/src/modules/dispatch/dispatch-service.ts:755-772 | without a fit driver one new attempt and the booking are NO_ELIGIBLE_DRIVER, the booking by way of SEARCHING_FOR_DRIVER with two log rows, and nothing else changes |
| DispatchEffects.AcceptanceLeaves | services/api/src/modules/dispatch/dispatch-service.ts:1118-1217 | an accepted offer leaves one new ACTIVE assignment, the offer ACCEPTED, its open rivals WITHDRAWN for BOOKING_ASSIGNED, attempt and booking assigned, the driver ASSIGNED with one logged move and one shift event, and nothing else |
| DispatchEffects.DeclineMeans | services/api/src/modules/dispatch/dispatch-service.ts:949-1020 | a decline under a new key succeeds exactly for an open, unexpired offer of the driver's own, and leaves that offer DECLINED with its reason |
| DispatchEffects.ListingLeaves | services/api/src/modules/dispatch/dispatch-service.ts:869-886 | listing offers expires exactly the driver's own open offers that are due |
| DispatchEffects.ChangeWithdraws | services/api/src/modules/dispatch/dispatch-service.ts:473-518 | an availability change withdraws all open offers of a driver who goes on BREAK or OFFLINE and no others; the shift gets its event, ends with OFFLINE, and starts for a driver who goes to work without one |
| DispatchEffects.AcknowledgeMeans | services/api/src/modules/journey/journey-service.ts:357-433 | an acknowledgement succeeds exactly for the driver's ACTIVE assignment of a DRIVER_ASSIGNED booking without a journey, and adds the journey and moves the booking en route |
| DispatchEffects.AdvanceMeans | services/api/src/modules/journey/journey-service.ts:519-981 | a journey command before completion succeeds exactly for the holder of the ACTIVE assignment with evidence on a journey not yet near its destination; journey and booking take the next step together |
| DispatchEffects.CompletionLeaves | services/api/src/modules/journey/live-journey-service.ts:447-602 | a completion leaves the booking COMPLETED, journey and assignment done, and the driver AVAILABLE with a logged move and a shift event |
| DispatchEffects.TerminationLeaves | services/api/src/modules/driver-fair-treatment/driver-fair-treatment-service.ts:356-545 | an unsafe termination leaves the booking ACTIVE_INCIDENT, the leg interrupted, the assignment CANCELLED, the driver on BREAK, and the report under its key |
| DispatchEffects.ReportMeans | services/api/src/modules/driver-daily-operations/driver-daily-operations-service.ts:276-297 | a fatigue report is refused exactly without an ACTIVE shift; it puts a driver who is free to work, with nobody aboard, on BREAK, and otherwise changes nothing |
| DispatchEffects.ClearMeans | services/api/src/modules/driver-daily-operations/driver-daily-operations-service.ts:398-441 | a clearance succeeds exactly for a rested driver on BREAK, on shift and without an ACTIVE assignment and without a journey under way, and raises only the version |
| DispatchEffects.ConcernMeans | services/api/src/modules/maintenance-reliability/maintenance-reliability-service.ts:117-150 | a vehicle concern takes a driver who uses the vehicle and is neither OFFLINE nor ASSIGNED offline and clears the place, with one logged move, and otherwise changes nothing |
| DispatchEffects.PrepareMeans | services/api/src/modules/booking/booking-service.ts:129-188 | up to READY_FOR_DISPATCH a booking of the booker's own takes exactly the canonical steps asked for from its present status |
| DispatchAnswers.AcceptanceRefused | services/api/src/modules/dispatch/dispatch-service.ts:1035-1117 | what a refused acceptance answers: not found, forbidden, conflict, unreadable evidence, or not eligible, each exactly when the rows say so |
| DispatchAnswers.RefusedAcceptanceLeaves | services/api/src/modules/dispatch/dispatch-service.ts:1074-1117 | a refused acceptance changes nothing but the driver's own open offer under a new key: EXPIRED exactly when it came too late, WITHDRAWN exactly when it was in time, fully disclosed and the driver judged not eligible on readable evidence |
| DispatchAnswers.PreShiftListed | services/api/src/modules/dispatch/dispatch-service.ts:408-418 | which blockers the pre-shift check lists, each by its own condition |
| DispatchAnswers.AvailabilityRefused | services/api/src/modules/dispatch/dispatch-service.ts:376-419 | a refused availability change changes nothing and names the first check that failed |
| DispatchAnswers.StartRefused | services/api/src/modules/dispatch/dispatch-service.ts:605-619 | a refused dispatch start changes nothing: not the booker's own booking, not ready, or unreadable evidence |
| DispatchAnswers.TerminationRefused | services/api/src/modules/driver-fair-treatment/driver-fair-treatment-service.ts:310-354 | a refused termination changes nothing: unknown journey, another driver's, a key used for another report, or an assignment that has ended |
| DispatchEffects.CreateLeaves | services/api/src/modules/booking/booking-service.ts:190-284 | a new booking starts in DRAFT at version 1 with one log row, and nothing else changes |
| DispatchTheorems.ShiftAlwaysOpens | services/api/src/modules/dispatch/dispatch-service.ts:94-95 | in every run the error that an active shift requires region and vehicle is unreachable |
| DispatchTheorems.CompletionExact | services/api/src/modules/journey/live-journey-service.ts:447-602 | completion succeeds exactly for the holder of the ACTIVE assignment with evidence and a journey near its destination; the booking and release guards are implied |
| DispatchTheorems.TerminationExact | services/api/src/modules/driver-fair-treatment/driver-fair-treatment-service.ts:348-354 | with a new key the termination succeeds exactly for the holder of the ACTIVE assignment; the availability and journey guards are implied |
| DispatchTheorems.BookingHistories | services/api/src/modules/dispatch/dispatch-service.ts:563-592 | in every run each booking version is the number of its log rows, which chain from DRAFT to the stored status along written edges without repetition |
| DispatchHistory.RunGrows | services/api/src/modules/dispatch/dispatch-service.ts:594-1217 | no run deletes or rewrites: replies, identities, log prefixes, closed offers, outcomes, ended assignments and their journeys all stay |
| DispatchReplay.ReplayedExactlyOnce | services/api/src/modules/dispatch/dispatch-service.ts:386-394 | once a command has been answered under a key, every command of its kind and subject with that key gets the stored answer and changes nothing after any run, whatever body, booking or offer it carries, as long as it passes the checks before the lookup |
| DispatchReplay.RetryReplayed | services/api/src/modules/dispatch/dispatch-service.ts:607-615 | a genuine retry always passes those checks, so it is answered once at any later point of any run |
| DispatchReplay.AcceptedMeansCarriedOutIff | services/api/src/modules/dispatch/dispatch-service.ts:966-1054 | an accepted command has been carried out if and only if its key was new or what it asks for was the case already; under a used key the answer is the other command's and nothing happens |
| DispatchWitness.SharedKeyLeavesBooking | services/api/src/modules/dispatch/dispatch-service.ts:607-615 | a run after which dispatching a second booking under the key of the first is answered with the first one's reply and leaves it READY_FOR_DISPATCH |
| DispatchWitness.SharedKeyKeepsOffer | services/api/src/modules/dispatch/dispatch-service.ts:966-975 | a run after which declining a second offer under the key of the first leaves it open |
| DispatchReplay.RefusalsChangeNothingElse | services/api/src/modules/dispatch/dispatch-service.ts:1074-1117 | a refused command changes the store exactly in the two commit-then-throw cases of an acceptance, and then only that offer; no key is recorded |
| DispatchReplay.AcceptRefusal | services/api/src/modules/dispatch/dispatch-service.ts:1056-1117 | the store every refused acceptance leaves |
| DispatchAvailabilityLog.AvailabilityLogReplays | services/api/src/modules/dispatch/dispatch-service.ts:460-465 | in every run availability version = logged moves + unlogged bumps, row versions rise, and without unlogged bumps the rows are numbered from 1 and replay from OFFLINE to the stored status |
| DispatchAvailabilityLog.VersionMatchesLog | services/api/src/modules/dispatch/dispatch-service.ts:460-465 | a command keeps version = number of log rows if and only if it is not a fatigue report that sends the driver on break, a fatigue clearance or a connectivity insert, each given by the guard of the branch that writes |
| DispatchAvailabilityLog.VersionIsLogLengthIff | services/api/src/modules/dispatch/dispatch-service.ts:460-465 | the version is the length of the log and the log replays to the stored status exactly in the runs in which none of these commands has written |
| DispatchAvailabilityLog.ReconcileUnlogged | services/api/src/modules/driver-daily-operations/driver-daily-operations-service.ts:574-576 | one connectivity insert gives version 1 and no log row |
| DispatchAvailabilityLog.FatigueChanges | services/api/src/modules/driver-daily-operations/driver-daily-operations-service.ts:276-297 | fatigue report and clearance raise the version by one without a transition row |
| DispatchRest.ShiftMatchesAvailability | services/api/src/modules/maintenance-reliability/maintenance-reliability-service.ts:117-150 | given an ACTIVE shift exactly for non-OFFLINE drivers, a command keeps it so if and only if it is not a vehicle concern that takes a driver offline |
| DispatchRest.ShiftsExactOverRuns | services/api/src/modules/dispatch/dispatch-service.ts:75-125 | in every run without such a concern a driver has an ACTIVE shift exactly when not OFFLINE |
| DispatchRest.RestingDriversHoldNoOffer | services/api/src/modules/dispatch/dispatch-service.ts:473-490 | given that no BREAK or OFFLINE driver holds an open offer, a command keeps it so if and only if it is not a termination, fatigue report or vehicle concern that stops a driver with an open offer |
| DispatchRest.RestingOverRuns | services/api/src/modules/dispatch/dispatch-service.ts:473-490 | in every run without such a step, so in every run of the dispatch service alone, no driver on BREAK or OFFLINE holds an open offer |
| DispatchWitness.ConcernStrandsDriver | services/api/src/modules/maintenance-reliability/maintenance-reliability-service.ts:117-150 | a run of fourteen commands from the empty store that ends with an OFFLINE driver, a running shift and open offers |
| DispatchWitness.FatigueReportStrandsDriver | services/api/src/modules/driver-daily-operations/driver-daily-operations-service.ts:276-297 | a run that ends with a driver on BREAK after a fatigue report and with open offers |
| DispatchWitness.TerminationStrandsDriver | services/api/src/modules/driver-fair-treatment/driver-fair-treatment-service.ts:410-461 | a run that ends with a driver on BREAK after an unsafe termination and with the open offer of another booking |
| DispatchClearance.NeverCleared | services/api/src/modules/driver-daily-operations/driver-daily-operations-service.ts:380-398 | once an assignment ended with the passenger aboard, every fatigue clearance of that driver is refused after any further run, however long the driver rests |
| DispatchClearance.ClearanceIff | services/api/src/modules/driver-daily-operations/driver-daily-operations-service.ts:380-412 | a driver on BREAK can be cleared after resting if and only if no journey of theirs was left with the passenger aboard; shift and assignments never stand in the way |
| DispatchClearance.TerminationLeavesAboardIff | services/api/src/modules/driver-fair-treatment/driver-fair-treatment-service.ts:405-430 | an unsafe termination leaves its journey so if and only if the passenger had passed the identity check, and no other journey |
| DispatchClearance.NeverClearedExample | services/api/src/modules/driver-daily-operations/driver-daily-operations-service.ts:380-398 | a run from the empty store after which the driver is on BREAK and can never be cleared |
| DispatchWave.WaveContents | services/api/src/modules/dispatch/dispatch-service.ts:774-841 | the wave ranks the eligible candidates 1..n and makes exactly one open offer to each of the first min(n, waveSize) |
| DispatchWave.FilterKeepsOrder | services/api/src/modules/dispatch/dispatch-service.ts:731-754 | the eligibility filter keeps the query order and repeats no driver |
| DispatchWave.NoNearerDriverLeftOut | services/api/src/modules/dispatch/dispatch-service.ts:668-841 | no eligible pool driver left without an offer, by the query limit or by the wave size, is nearer than one with an offer |
| DispatchWave.OfferTimeIsAcceptTime | services/api/src/modules/dispatch/dispatch-service.ts:152-346 | on one snapshot the offer-time filter and the accept-time recheck read the same facts, using that the required services are never empty |
| DispatchWave.WaveDisclosureComplete | services/api/src/modules/dispatch/dispatch-service.ts:807-826 | the disclosure of a wave offer is complete exactly when the distance is known and the development fixture is configured and sound |
| DispatchWave.FreshOfferAccepted | services/api/src/modules/dispatch/dispatch-service.ts:774-1217 | in every reachable store an offer just made is accepted on the same facts exactly if offers live for some time and its disclosure is complete |
| DispatchServices.DispatchService.MakeWave | services/api/src/modules/dispatch/dispatch-service.ts:774-841 | the loop leaves exactly the ranked candidates and offers of the specified wave |
| DispatchServices.DispatchService.StartBooking | services/api/src/modules/dispatch/dispatch-service.ts:594-867 | the statements, with roll-back, have exactly the effect and answer of the protocol step and keep the invariant (when it succeeds and whom it offers: `DispatchEligibility.StartMeans`, `DispatchEligibility.OfferedAreFit`) |
| DispatchServices.DispatchService.RecordShiftEvent | services/api/src/modules/dispatch/dispatch-service.ts:75-125 | opens, continues or ends the shift as specified, or changes nothing and reports the error |
| DispatchServices.DispatchService.ChangeAvailability | services/api/src/modules/dispatch/dispatch-service.ts:369-518 | the statements, with roll-back, have exactly the effect and answer of the protocol step and keep the invariant (when it succeeds and what it stores: `DispatchEligibility.AvailabilityMeans`, `DispatchEligibility.AvailabilityStored`) |
| DispatchServices.DispatchService.SweepExpiredOffers | services/api/src/modules/dispatch/dispatch-service.ts:869-886 | the sweep closes exactly the due offers with their outcomes and keeps the invariant |
| DispatchServices.DispatchService.Decline | services/api/src/modules/dispatch/dispatch-service.ts:949-1020 | exactly the specified effect and answer; keeps the invariant |
| DispatchServices.DispatchService.CommitAcceptance | services/api/src/modules/dispatch/dispatch-service.ts:1118-1185 | the statements add up to the specified commit or are rolled back whole |
| DispatchServices.DispatchService.AcceptOffer | services/api/src/modules/dispatch/dispatch-service.ts:1022-1217 | the statements have exactly the effect and answer of the protocol step, the two committed refusals included, and keep the invariant (when it succeeds and what it leaves: `DispatchEligibility.AcceptanceMeans`, `DispatchEffects.AcceptanceLeaves`) |
| DispatchServices.DispatchService.TerminateJourney | services/api/src/modules/driver-fair-treatment/driver-fair-treatment-service.ts:291-545 | exactly the specified effect and answer, roll-back and key reuse included; keeps the invariant |
| FatigueInvariants.ReachableHolds | services/api/src/modules/control-room-fatigue/control-room-fatigue-service.ts:172-889 | after every run of the six commands, role grants and outside changes each handover fits its tasks, log, case, hold and evidence |
| FatigueInvariants.RecoverFits | services/api/src/modules/control-room-fatigue/control-room-fatigue-service.ts:325-373 | a recovery keeps all of that, its new task starting after every earlier one ended |
| FatigueTheorems.OneTaskAtATime | services/api/src/modules/control-room-fatigue/control-room-fatigue-service.ts:226-241 | in every run at most one task of a handover is current at any instant; each ends with the role it was taken under if that comes within 14 400 000 ms of its start, else exactly 14 400 000 ms after it, and lies inside the validity of that role |
| FatigueTheorems.TaskTaken | services/api/src/modules/control-room-fatigue/control-room-fatigue-service.ts:215-241 | a successful claim or recovery adds one task in the caller's name, from the clock, under the current role that sorts first (operator before supervisor, then the earliest end), until the end of that role if it comes within 14 400 000 ms, else exactly 14 400 000 ms later |
| FatigueTheorems.ProgressSucceedsIff | services/api/src/modules/control-room-fatigue/control-room-fatigue-service.ts:406-889 | safe stop, replacement, transfer and completion under a new key succeed exactly for an active account holding a current task under a valid role, on a handover whose status, hold reason and fleet rows provide what that command needs |
| FatigueTheorems.CommandLeaves | services/api/src/modules/control-room-fatigue/control-room-fatigue-service.ts:215-889 | what every successful command leaves: status, version, log row, owner, evidence, hold, support case and tasks; other handovers, roles and fleet untouched |
| FatigueTheorems.CommandAnswers | services/api/src/modules/control-room-fatigue/control-room-fatigue-service.ts:187-201 | what it answers and remembers under its key |
| FatigueTheorems.TakingRefused | services/api/src/modules/control-room-fatigue/control-room-fatigue-service.ts:172-241 | a claim or recovery is refused as forbidden exactly to an inactive account or a person without a current role |
| FatigueTheorems.TaskHolderIsOwner | services/api/src/modules/control-room-fatigue/control-room-fatigue-service.ts:242-250 | from the start of the last task on, whoever holds a current task is the recorded owner |
| FatigueTheorems.LatestExpiredMeansNoneCurrent | services/api/src/modules/control-room-fatigue/control-room-fatigue-service.ts:336-362 | the NOT EXISTS guard of a recovery follows from its guard on the latest task |
| FatigueTheorems.HandoverLife | services/api/src/modules/control-room-fatigue/control-room-fatigue-service.ts:215-618 | hold ACTIVE exactly until completion, case in step, version = logged rows forming a path with at most four status changes, completion backed by a safe stop or by a transfer to another driver on the same booking |
| FatigueTheorems.AnsweredOnce | services/api/src/modules/control-room-fatigue/control-room-fatigue-service.ts:187-201 | a repeated request gives the stored reply after any run, and its key with another request is refused, both without change |
| FatigueTheorems.RefusalChangesNothing | services/api/src/modules/control-room-fatigue/control-room-fatigue-service.ts:288-290 | a refused command leaves the desk as it was |
| FatigueTheorems.ClaimSucceedsIff | services/api/src/modules/control-room-fatigue/control-room-fatigue-service.ts:202-232 | a claim under a new key succeeds exactly for a handover still REQUESTED by a person whose first-sorting current role outlasts the transaction |
| FatigueTheorems.RecoverySucceedsIff | services/api/src/modules/control-room-fatigue/control-room-fatigue-service.ts:325-362 | a recovery under a new key succeeds exactly for an unfinished handover whose last task has ended, by a person whose first-sorting current role outlasts the transaction |
| FatigueTheorems.QueueMeansRecoverable | services/api/src/modules/control-room-fatigue/control-room-fatigue-service.ts:46-67 | for a supervisor the clauses of the queue query list exactly what the recover command would accept from that supervisor at that instant |
| FatigueTheorems.PermittedMeansAccepted | services/api/src/modules/control-room-fatigue/control-room-fatigue-service.ts:143-146 | for the holder of the current task, and given the hold reason and fleet rows a command needs, the permitted next actions are exactly those whose command succeeds: hold and support case never stand in the way |
| FatigueTheorems.RecoveryHandsOver | services/api/src/modules/control-room-fatigue/control-room-fatigue-service.ts:363-373 | after a recovery by the service without the trigger the new owner holds the current task, the status is unchanged and a next action is permitted |
| FatigueTheorems.GuardRefusesRecovery | database/migrations/0024_driver_fatigue_handover_lifecycle.sql:50-88 | the update trigger refuses every recovery the service makes, and of the other commands exactly those not written later than the last update |
| FatigueTheorems.ReportedHandoversNeverFinish | services/api/src/modules/driver-daily-operations/driver-daily-operations-service.ts:207-226 | handovers created with the reason the driver service uses are never replaced, transferred or completed and their hold stays ACTIVE |
| FatigueFinish.GuardedIsRun | database/migrations/0024_driver_fatigue_handover_lifecycle.sql:50-88 | a run under the update trigger is a run of the service on the events that are not rolled back, so everything proved about runs holds of it |
| FatigueFinish.StrandedByExpiry | database/migrations/0024_driver_fatigue_handover_lifecycle.sql:50-88 | in every run under the trigger, an owned, unfinished handover whose last task is over never changes again |
| FatigueFinish.FinishableIff | database/migrations/0024_driver_fatigue_handover_lifecycle.sql:50-88 | under the trigger a handover can still be completed from a time on if and only if its hold carries DRIVER_FATIGUE_SAFETY and it is complete, or still REQUESTED, or its last task is not over by then |
| FatigueFinish.StrandedExample | database/migrations/0024_driver_fatigue_handover_lifecycle.sql:50-88 | a run of a role grant, a report and a claim after which the handover is stranded once the task ends |
| FatigueFinish.FinishableWithoutGuardIff | services/api/src/modules/control-room-fatigue/control-room-fatigue-service.ts:554-576 | by the service without the trigger a handover can still be completed if and only if its hold carries the reason DRIVER_FATIGUE_SAFETY |
| FatigueReplacement.NoReplacementToRecord | services/api/src/modules/control-room-fatigue/control-room-fatigue-service.ts:682-713 | on assignment rows of any reachable dispatch store no replacement assignment can ever be recorded |
| FatigueDesk.ControlRoom.ClaimHandover | services/api/src/modules/control-room-fatigue/control-room-fatigue-service.ts:172-295 | the statements have exactly the effect and answer of the protocol step (when it succeeds: `FatigueTheorems.ClaimSucceedsIff`; the task it leaves: `FatigueTheorems.TaskTaken`) |
| FatigueDesk.ControlRoom.RecoverOwnership | services/api/src/modules/control-room-fatigue/control-room-fatigue-service.ts:297-404 | the statements have exactly the effect and answer of the protocol step (when it succeeds: `FatigueTheorems.RecoverySucceedsIff`; the task it leaves: `FatigueTheorems.TaskTaken`) |
| FatigueDesk.ControlRoom.RecordProgress | services/api/src/modules/control-room-fatigue/control-room-fatigue-service.ts:406-889 | safe stop, completion, replacement and transfer have exactly the specified effect and answer |
| SagaTheorems.SagaGuarantees | services/api/src/modules/booking/booking-service.ts:286-523 | with crashes between any two transactions and any retries: at most one OFFERED quote and one agreement per booking, an agreement from CONFIRMED on and none before AWAITING_CONFIRMATION, and a log that is a history |
| SagaTheorems.AcceptedMeansAgreed | services/api/src/modules/booking/booking-service.ts:444-453 | a quote is ACCEPTED exactly when an agreement copies its booking and price; no quote is ever stored as EXPIRED |
| SagaTheorems.RefusalLeavesPricing | services/api/src/modules/booking/booking-service.ts:436-441 | a refused transaction leaves everything but the request itself as it was, the EXPIRED mark included |
| SagaTheorems.StrandedForever | services/api/src/modules/booking/booking-service.ts:363-374 | a booking left at QUOTE_CREATED or CONFIRMED without a request in flight is never moved again by any run, with or without key discipline |
| SagaTheorems.CrashStrandsIff | services/api/src/modules/booking/booking-service.ts:363-513 | a crash leaves the booking in such a state exactly right after the transition to QUOTE_CREATED or to CONFIRMED |
| SagaTheorems.ResumedOnlyWithSameKey | services/api/src/modules/booking/booking-service.ts:410-420 | once the fare is agreed, a confirmation is resumed only under the key it was agreed with |
| SagaTheorems.ExpiredOfferStrands | services/api/src/modules/booking/booking-service.ts:396-441 | a booking whose last offer expired unaccepted stays in AWAITING_CONFIRMATION without agreement in every later run |
| SagaInvariants.RunKeeps | services/api/src/modules/booking/booking-service.ts:129-523 | every run in which no two bookings share a key keeps the saga invariant |
| SagaReplies.AnsweredOnce | services/api/src/modules/booking/booking-service.ts:346-396 | a request that was answered answers the same when asked again, after any run and in whatever status the booking is |
| SagaReplies.QuoteReplyTrueIff | services/api/src/modules/booking/booking-service.ts:363-396 | the quote reply agrees with the stored quote exactly if the key was new or had stored an equal, still open quote |
| SagaReplies.SharedKeyConfirmsUnpriced | services/api/src/modules/booking/booking-service.ts:410-420 | without key discipline a confirmation leaves the booking with an agreement of its own exactly if its key was not recorded before |
| SagaRequests.LeftConfirmedByClock | services/api/src/modules/booking/booking-service.ts:507-513 | in every run, with crashes, retries and shared keys, the row out of CONFIRMED in a booking's log was written by one of its own steps and says SCHEDULED exactly if the booking was scheduled for later than the clock of that step, else READY_FOR_DISPATCH |
| SagaRequests.QuoteMeans | services/api/src/modules/booking/booking-service.ts:342-362 | a quote request without a stored reply is answered exactly for the booker's own booking in DRAFT |
| SagaRequests.QuoteLeaves | services/api/src/modules/booking/booking-service.ts:286-396 | under a new pricing key it leaves the booking AWAITING_CONFIRMATION with a new open quote at the given price and expiry, the booking's other open quotes superseded, and nothing else changed |
| SagaRequests.ConfirmMeans | services/api/src/modules/booking/booking-service.ts:398-499 | a confirmation without a stored reply and under a new pricing key is answered exactly for the booker's own booking in AWAITING_CONFIRMATION and an open, unexpired quote of that booking |
| SagaRequests.ConfirmLeaves | services/api/src/modules/booking/booking-service.ts:481-523 | it leaves the booking SCHEDULED exactly when scheduledFor is set and later than the clock, else READY_FOR_DISPATCH, the quote ACCEPTED and a new agreement with the quote's booking and price |
| SagaSharedKey.SharedKeyExample | services/api/src/modules/booking/booking-service.ts:410-420 | a run from the empty store with two bookings and one key: the second is CONFIRMED with the agreement of the first and its own quote still open |
| SagaService.BookingService.PersistQuoteTransaction | services/api/src/modules/booking/booking-service.ts:286-340 | exactly the specified quote and store |
| SagaService.BookingService.AcceptQuoteTransaction | services/api/src/modules/booking/booking-service.ts:398-479 | exactly the specified agreement and store, or no change when it throws |
| SagaService.BookingService.QuoteRiderBooking | services/api/src/modules/booking/booking-service.ts:342-396 | the whole request is its transactions one after another; when it is answered and what it then leaves are `SagaRequests.QuoteMeans` and `SagaRequests.QuoteLeaves` |
| SagaService.BookingService.ConfirmRiderBooking | services/api/src/modules/booking/booking-service.ts:481-523 | the whole request is its transactions one after another; when it is answered and what it then leaves are `SagaRequests.ConfirmMeans` and `SagaRequests.ConfirmLeaves` |
| Communications.FoldContacts | services/api/src/modules/communications/communications-service.ts:324-334 | the nested loops compute, per channel, whether some contact reaching it is verified and whether all are denied |
| Communications.FoldOrderFree | services/api/src/modules/communications/communications-service.ts:324-334 | the result of the fold is a function of the set of contact rows, in whatever order they come |
| Communications.RouteMeans | packages/domain/src/communications.ts:67-115 | the state of a route in terms of the request and the contact rows: without consent, in quiet hours, without a channel that may be used, or routable along the first-occurrence list of those channels |
| Communications.Plan | services/api/src/modules/communications/communications-service.ts:335-382 | state, channels and suppression of a request in terms of its contacts: a routable plan is the first-occurrence list, in request order, of exactly the channels that may be used; silent assistance plans no call and never sets the call flag |
| Communications.PipelineIsPlan | packages/domain/src/communications.ts:77-84 | the filter and dedup pipeline gives exactly the safe channels, once each, by first request |
| Communications.ChannelUsedIff | packages/domain/src/communications.ts:77-84 | whatever the candidates, a channel comes out of the pipeline exactly if one of them offers it with permission, uncompromised, not unavailable, with a verified contact point where one is needed, and is no call in silent assistance |
| Acknowledgement.AcknowledgedExactlyOnce | services/api/src/modules/communications/communications-service.ts:178-245 | in every run ACKNOWLEDGED holds exactly with one acknowledgement row, by the recipient, and client ids are unique per recipient |
| Acknowledgement.RepeatedMeansReplayed | services/api/src/modules/communications/communications-service.ts:207-256 | a success is marked repeated exactly when it is a replay by key; the branch that finds an existing row of the same communication is never taken |
| Acknowledgement.NothingAwaitsAcknowledgement | services/api/src/modules/communications/communications-service.ts:352-365 | with the requests the service writes itself nothing is ever acknowledged |
| Acknowledgement.AcknowledgeMeans | services/api/src/modules/communications/communications-service.ts:202-245 | under a new key an acknowledgement succeeds exactly for the recipient's communication in ACK_REQUIRED, at a time neither before it nor more than 30 s ahead, and a client id the person has not used; which answer each refusal gives; refusals change nothing |
| Acknowledgement.AcknowledgeLeaves | services/api/src/modules/communications/communications-service.ts:225-256 | it adds one row, marks that communication ACKNOWLEDGED and stores the request under its key |
| Acknowledgement.KeyMeans | services/api/src/modules/communications/communications-service.ts:178-190 | under a used key the same request is told that it is repeated and another one is refused, both without change |
| Acknowledgement.AcknowledgedExample | services/api/src/modules/communications/communications-service.ts:178-256 | a run in which a communication that was moved to ACK_REQUIRED is acknowledged |
| Acknowledgement.CommunicationsService.AcknowledgeCommunication | services/api/src/modules/communications/communications-service.ts:167-266 | the statements have exactly the specified effect and answer |
| CommunicationsClosure.RouteThroughFailures | packages/domain/src/communications-closure.ts:249-298 | under every valid attempt cap, a run whose attempts all fail makes exactly the stated number of attempts and ends as stated: a failure case when critical, within the cap, or after the one attempt made under a cap of zero |
| CommunicationsClosure.DecisionMeans | packages/domain/src/communications-closure.ts:249-298 | every action is taken exactly when its own condition holds; only counts that are no safe integers are an error |
| CommunicationsClosure.OnlyConfirmedDeliveryCompletes | packages/domain/src/communications-closure.ts:249-298 | only acknowledgement, or delivery where none is required, completes a route, and nothing stale is attempted |
| Finance.EvaluateBalancedLedger | packages/domain/src/finance.ts:75-92 | the loop returns the true debit and credit totals for any length, or the first error in entry order |
| Finance.TotalsAdd | packages/domain/src/finance.ts:80-91 | a total of one entry is its amount on its own side, and totals of two lists add up |
| Finance.TransactionErrorMeans | packages/domain/src/finance.ts:75-92 | a transaction is judged without error exactly with two entries or more, a three-letter currency and no faulty entry |
| Finance.FirstErrorMeans | packages/domain/src/finance.ts:79-86 | the error of a list of entries is that of its first faulty entry |
| Finance.ReverseSwaps | packages/domain/src/finance.ts:99-104 | reversal swaps the two totals |
| Finance.ReverseTwice | packages/domain/src/finance.ts:99-104 | reversal is its own inverse |
| Finance.ReversalPostable | packages/domain/src/finance.ts:75-104 | a reversal is postable exactly when the original is |
| Finance.ReversalCancels | packages/domain/src/finance.ts:99-104 | original plus reversal nets to zero for every account and currency |
| Finance.TrialBalance | packages/domain/src/finance.ts:75-104 | whatever balanced transactions and reversals are posted, every currency nets to zero |
| Finance.HistoryGrows | packages/domain/src/finance.ts:94-104 | a posting adds a transaction to the history exactly if it balances, and a reversal exactly of an earlier transaction |
| Finance.TakenForGood | packages/domain/src/finance.ts:21-39 | once captured a payment never becomes FAILED, VOIDED, EXPIRED or uncertain |
| Finance.NoCaptureWithoutProcessing | packages/domain/src/finance.ts:21-39 | a run from CREATED that has not passed PROCESSING is still CREATED, EXPIRED or VOIDED |
| Finance.LeadsIff | packages/domain/src/finance.ts:21-39 | what can still become of a payment: from CREATED and from every undecided status (AUTHORISED among them) everything but CREATED, captures and refunds included; of money taken every status of money taken, until it is charged back; of FAILED, VOIDED, EXPIRED and CHARGEBACK nothing |
| Finance.StepsBackwards | packages/domain/src/finance.ts:21-39 | the payment table, read backwards |
| Finance.CleanIff | packages/domain/src/finance.ts:106-121 | the scan passes exactly the payloads in which no object at any depth has a forbidden key |
| Finance.SecretMeans | packages/domain/src/finance.ts:106-118 | a key is forbidden exactly if its letters, separators left out, spell one of the nine words in any case |
| Finance.SeparatorsIgnored | packages/domain/src/finance.ts:117-118 | separators put anywhere in a key do not change how it is judged |
| JourneyDomain.PendingMeansMismatches | packages/domain/src/journey.ts:134-156 | a session is pending exactly while every attempt so far was a mismatch in time and attempts are left, and then fewer than the maximum are used |
| JourneyDomain.VerifiedIff | packages/domain/src/journey.ts:134-156 | a session is verified exactly if some attempt within the allowance matched in time after only mismatches in time |
| JourneyDomain.MismatchesLockForGood | packages/domain/src/journey.ts:134-156 | after as many mismatches as there are attempts a session is locked or expired whatever is attempted later |
| JourneyDomain.FinalIsAbsorbing | packages/domain/src/journey.ts:143-145 | a final session never changes |
| JourneyDomain.RideCheckMeans | packages/domain/src/journey.ts:134-156 | which attempt verifies, locks, expires or is ignored, and how many attempts it leaves |
| JourneyDomain.VerifyMeans | packages/domain/src/journey.ts:134-156 | a session counts exactly the attempts that are judged, and what each leaves of its status |
| JourneyDomain.EvaluateLocationEvidence | packages/domain/src/journey.ts:61-82 | the blockers are those that stand, once each in the fixed order; usability and confidence state of an observation in terms of the policy |
| JourneyDomain.BlocksMean | packages/domain/src/journey.ts:61-82 | each location blocker by its own condition |
| JourneyDomain.EvaluateJourneyCompletion | packages/domain/src/live-journey.ts:105-115 | the blockers are exactly the standing ones in the fixed order, and completion is allowed exactly without any |
| JourneyDomain.CompletionMeans | packages/domain/src/live-journey.ts:105-115 | completion is allowed exactly for an arriving journey on an ACTIVE assignment with accepted evidence, nothing open against it and, if required, an authorised handover |
| JourneyDomain.ReachedMeans | packages/domain/src/core-journey-vertical-slice.ts:27-58 | how far each of the five decisions lets a journey go |
| JourneyDomain.Runner.Run | packages/domain/src/core-journey-vertical-slice.ts:27-58 | the milestones are the prefix of the 13-status path the five decisions allow and end in the booking status; it completes exactly if all five pass; a stopped run names the first blocker of the decision that stopped it, never JOURNEY_START_BLOCKED; which of the two errors is thrown |
| JourneyDomain.SpineCanonical | packages/domain/src/core-journey-vertical-slice.ts:31-55 | the path of the runner is canonical, so its transition assertion never fails |

## Left out

- DispatchTheorems.AssignedIffActive: is about committed steps; interleavings inside a transaction (READ COMMITTED anomalies, row locks) are not modelled.
- SagaTheorems.SagaGuarantees: assumes that no two bookings use one key and that requests on one booking do not overlap; what a shared key does is `SagaReplies.SharedKeyConfirmsUnpriced`.
- SagaService.BookingService.QuoteRiderBooking: is the run without a crash; crashes are events of the step model.
- FatigueTheorems.HandoverLife: treats a hold and a support case as belonging to one handover, as their UNIQUE columns do; reuse of an existing hold when fatigue is reported again is left out.
- FatigueTheorems.QueueMeansRecoverable: is about the queue before its row limit.
- FatigueFinish.FinishableIff: the clock of a command may be later than its begin by any amount, as after a wait for a row lock.
- DispatchWave.NoNearerDriverLeftOut: takes the distance of each driver and the query answer as inputs with the query's ordering and limit; geometry is not modelled.
- DispatchJourneys.CompleteKeeps: the destination, hold, continuity and handover evidence of a completion is one boolean, as is the evidence of the journey commands before it.
- The control-room service has one method per command; here the four commands of a current task share `FatigueDesk.ControlRoom.RecordProgress`.
- Replies are modelled by the identifiers and statuses they carry; outbox rows, audit texts and timestamps of audit rows are not modelled.
- Region codes are taken as already trimmed and upper-cased; upper-casing and trimming are modelled on ASCII. Lower-casing of payload keys maps the letters that become ASCII ones, which decides membership in the forbidden set.
- Creating a booking: locations, parties and the validation of requirement types.
- HTTP routes, schema validation, sessions, hashing, random identifiers (fresh numbers here) and user interfaces.
- Read-only projections (inbox, supply, incentives, fair-treatment views) and the organisation, institutional, fleet and telephony evaluators, which are flat conjunctions.
- Floating-point distance: `distanceMetres` is an input; accuracies and confidences are real numbers or not finite.
- Delivery of outbox messages: no consumer exists in the code.
