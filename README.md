# Job platform back end: verified model of the service core

This project models the service core of the job platform's Java back end in Dafny and proves properties of that model:

- **WorkflowService.** The hiring pipeline of an application is a finite state machine. The transition table is fixed. The history is append-only. The service writes back the application status, and supports bulk processing.
- **WorkflowController.** Only its pure helpers are modelled: the target-state table, the next-stage table, the actions offered per state and the guard of a transition request.
- **InterviewSchedulingService.** One `id → Interview` store with two indexes of ids, one by application and one by interviewer. It covers:
  - the monotone id counter;
  - the conflict test, which is closed: intervals that touch at an endpoint conflict;
  - schedule, reschedule, cancel and complete;
  - upcoming interviews;
  - the 30-minute slot finder;
  - statistics.
- **SecurityAuditService.** It covers:
  - per-email failure counters and a 30-minute lockout after 5 failures;
  - per-IP counters;
  - the security event log, capped at 1000;
  - the severity table;
  - unlocking an account;
  - the count of locked accounts in the summary.
- **AuditService.** A FIFO audit log capped at 1000 entries. It has typed entries, newest-first queries, filters by type and by user, and per-type statistics.
- **PerformanceMonitoringService.** Per-operation request, error and total-time counters, and a metric history capped at 1000. It covers statistics with Java's truncating integer average, the slow-operation query, and the full and per-operation resets.
- **CacheService.** A TTL cache kept in two parallel maps, one for values and one for expiry times. Expiry is strict (`now < expiry`), and `get` evicts expired entries lazily. It also covers cleanup and the invalidation of job keys and user keys by prefix.
- **ValidationService.** The email, phone and password regular expressions are hand-coded as character predicates. It also covers the length checks and the first-failure-wins messages of the registration and job-post forms.

Every service that updates its fields in place is a `class` with those fields. Each class has:

- a `Model()` snapshot datatype;
- pure transition functions on that snapshot (`Move`, `AfterSchedule`, `LoginRecorded`, `Appended`, `Recorded`, `Put`, …);
- methods that change the fields and ensure `Model() == Transition(old(Model()), …)`.

The lemmas are stated about the transition functions, so they can speak about several operations in a row.

Other modelling choices:

- The clock is a parameter `now`. Times are integer minutes in the workflow, interview and security models, and integer milliseconds in the cache and performance models.
- Java `null` is `Option`.
- A service call that fails with `BusinessRuleException` returns the single failure constructor of `Result`.
- Application, student and user lookups are maps passed in by the caller.

Shared helpers:

- `Streams`: filter, stable sort by key, limit, a capped append, and map tallies.
- `Text`: Java's decimal rendering of an integer, with its round trip.

## Model

| member | source | states |
|---|---|---|
| Workflow.TransitionTableShape | src/main/java/com/example/job_platform/Service/WorkflowService.java:199-223 | APPROVED and REJECTED have no outgoing move, and no state moves to itself or back to INITIAL_REVIEW. Only FINAL_REVIEW reaches APPROVED. Every non-terminal state reaches REJECTED. Exactly the four pipeline stages reach ON_HOLD. |
| Workflow.StatusFor | src/main/java/com/example/job_platform/Service/WorkflowService.java:225-253 | The status written back is SELECTED iff APPROVED, REJECTED iff REJECTED, APPLIED iff ON_HOLD, and SHORTLIST for every other state. |
| Workflow.NextStageIsAllowed | src/main/java/com/example/job_platform/Service/WorkflowService.java:368-398 | The next stage is undefined exactly for FINAL_REVIEW, APPROVED and REJECTED, and otherwise the table accepts it. APPROVE yields a target only where the table accepts APPROVED. REQUEST_ADDITIONAL_INFO never yields a target. |
| Workflow.ToLower | src/main/java/com/example/job_platform/Service/WorkflowService.java:296-297 | Lowercasing keeps the length and maps exactly the letters A-Z to a-z. |
| Workflow.CheckStudentQualifications | src/main/java/com/example/job_platform/Service/WorkflowService.java:291-315 | The keyword loop answers true iff some keyword in the fixed list occurs in both the lowercased skills and the lowercased job description. It answers false when either text is missing. |
| Workflow.InitialReviewDecision | src/main/java/com/example/job_platform/Service/WorkflowService.java:131-158 | The review outcome is always a move the table accepts from INITIAL_REVIEW. It is REJECTED iff there is no student, and TECHNICAL_SCREENING iff the student is qualified and the profile is complete. |
| Workflow.Moved | src/main/java/com/example/job_platform/Service/WorkflowService.java:174-184 | An accepted move sets the state, appends exactly one transition record (id, old state, new state, action, performer, comments) at the end of the history, and writes the mapped status when the application exists. It keeps the store invariant. |
| Workflow.Move | src/main/java/com/example/job_platform/Service/WorkflowService.java:160-197 | A move with no workflow for the id, or with a transition the table refuses, changes nothing. Other ids keep their states, and the set of tracked ids is unchanged. |
| Workflow.WorkflowService.MoveToState | src/main/java/com/example/job_platform/Service/WorkflowService.java:160-197 | Fails iff the move is not allowed. Either way the new state is `Move` of the old one, and the invariant is kept. |
| Workflow.HistoryForMembership | src/main/java/com/example/job_platform/Service/WorkflowService.java:332-336 | The history of an id holds exactly the recorded transitions of that id. |
| Workflow.MoveExtendsHistory | src/main/java/com/example/job_platform/Service/WorkflowService.java:176-181 | A move appends its record to the moved id's history only. It leaves the history of every other id unchanged, and a refused move appends nothing. |
| Workflow.MoveAppends | src/main/java/com/example/job_platform/Service/WorkflowService.java:176-181 | After an allowed move the state is the target, and the id's history ends with the new record. |
| Workflow.HappyPath | src/main/java/com/example/job_platform/Service/WorkflowService.java:199-223 | Four MOVE_TO_NEXT_STAGE steps and then APPROVE take an application from INITIAL_REVIEW to APPROVED with exactly those five records. After that no further move is accepted. |
| Workflow.Initiate | src/main/java/com/example/job_platform/Service/WorkflowService.java:110-158 | Corrected initiation. An unknown application changes nothing. Otherwise the state becomes the initial-review outcome (TECHNICAL_SCREENING, ON_HOLD or REJECTED), and the review record is appended. |
| Workflow.WorkflowService.InitiateApplicationWorkflow | src/main/java/com/example/job_platform/Service/WorkflowService.java:110-129 | Corrected initiation, performed on the fields. Succeeds iff the application exists. The new state is `Initiate` of the old one, and the invariant is kept. |
| Workflow.WorkflowService.PerformInitialReview | src/main/java/com/example/job_platform/Service/WorkflowService.java:131-158 | From INITIAL_REVIEW, performs the one move chosen by the review decision, as `SYSTEM`. |
| Workflow.InitiateRecordsTheReview | src/main/java/com/example/job_platform/Service/WorkflowService.java:131-158 | Initiation adds exactly the review record to the application's history. |
| Workflow.InitiateAsWritten | src/main/java/com/example/job_platform/Service/WorkflowService.java:110-129 | As written: when the student or job lookup in the log message fails, the state stays INITIAL_REVIEW and nothing is recorded. |
| Workflow.NoStudentRejectionIsUnreachable | src/main/java/com/example/job_platform/Service/WorkflowService.java:118-120 | With no student, the code as written stops at INITIAL_REVIEW with no history. The intended behaviour rejects the application and records it. |
| Workflow.InitiateAsWrittenNeverRejects | src/main/java/com/example/job_platform/Service/WorkflowService.java:137-141 | As written, initiation never ends in REJECTED. |
| Workflow.BulkOutcome | src/main/java/com/example/job_platform/Service/WorkflowService.java:351-366 | A bulk item either keeps its state or makes a move the table accepts. It changes state iff the action yields a target that the table accepts. |
| Workflow.BulkFrame | src/main/java/com/example/job_platform/Service/WorkflowService.java:351-366 | Bulk processing never fails and keeps the invariant and the set of tracked ids. Ids outside the list keep their state, and the history only grows at its end. |
| Workflow.BulkPerItem | src/main/java/com/example/job_platform/Service/WorkflowService.java:351-366 | For a list without repeats, each listed tracked id ends in `BulkOutcome` of its own state, independently of failures on other ids. |
| Workflow.WorkflowService.BulkProcessApplications | src/main/java/com/example/job_platform/Service/WorkflowService.java:351-366 | The loop over ids produces `Bulk` of the old state and keeps the invariant. |
| Workflow.Statistics | src/main/java/com/example/job_platform/Service/WorkflowService.java:338-349 | Every state has an entry, holding the number of applications in that state. |
| Workflow.StatisticsCoverEveryApplication | src/main/java/com/example/job_platform/Service/WorkflowService.java:338-349 | The per-state counts over all 8 states sum to the number of tracked applications. |
| Workflow.WorkflowService.GetCurrentState | src/main/java/com/example/job_platform/Service/WorkflowService.java:328-330 | A state is present iff the id is tracked. |
| Workflow.WorkflowService.constructor | src/main/java/com/example/job_platform/Service/WorkflowService.java:36 | The service starts with no workflows, no history and no statuses. |
| WorkflowControl.ControllerAgreesWithService | src/main/java/com/example/job_platform/Controller/WorkflowController.java:262-292 | The controller's target-state and next-stage tables are the service's. The next stage is undefined exactly for FINAL_REVIEW, APPROVED and REJECTED. |
| WorkflowControl.OfferedActionsAreExactlyTheAcceptedOnes | src/main/java/com/example/job_platform/Controller/WorkflowController.java:353-371 | An action is offered for a state iff it yields a target that the service's table accepts. The list is empty exactly for APPROVED and REJECTED. |
| WorkflowControl.TransitionWorkflow | src/main/java/com/example/job_platform/Controller/WorkflowController.java:138-162 | With no workflow, or with an action that has no target, the request is refused without calling the service. Otherwise the service performs `Move`, and the reply reports acceptance exactly when the table accepts. An accepted action was one of those offered. |
| Interviews.OverlapsIsSymmetric | src/main/java/com/example/job_platform/Service/InterviewSchedulingService.java:441-442 | The closed-interval overlap test is symmetric, so touching intervals conflict both ways. |
| Interviews.Resolve | src/main/java/com/example/job_platform/Service/InterviewSchedulingService.java:340-346 | Looking up an id list yields at most one interview per id. When every id is stored, it yields exactly the stored interview of each id, in list order, as the source's lists of shared objects do. |
| Interviews.ResolveMembership | src/main/java/com/example/job_platform/Service/InterviewSchedulingService.java:340-346 | The interviews listed for a key are exactly the stored interviews whose ids the index holds. |
| Interviews.SameShapeKeepsValidity | src/main/java/com/example/job_platform/Service/InterviewSchedulingService.java:61-63 | An update that keeps id, application and interviewer of every record keeps the index invariant. |
| Interviews.FindInterviewById | src/main/java/com/example/job_platform/Service/InterviewSchedulingService.java:417-426 | Finds a record iff the id is stored, and the record found carries that id. |
| Interviews.NextIdIsFresh | src/main/java/com/example/job_platform/Service/InterviewSchedulingService.java:413-415 | The counter is above every stored id, so the next id is fresh. |
| Interviews.InterviewSchedulingService.GenerateInterviewId | src/main/java/com/example/job_platform/Service/InterviewSchedulingService.java:413-415 | Returns the counter, advances it by one, and changes nothing else. |
| Interviews.AppendId | src/main/java/com/example/job_platform/Service/InterviewSchedulingService.java:229-231 | Adding an id to an index appends it to that key's list, creating the list if needed, and leaves every other key alone. |
| Interviews.ScheduleKeepsValid | src/main/java/com/example/job_platform/Service/InterviewSchedulingService.java:222-231 | Storing a new interview under the fresh id and appending it to both indexes keeps the index invariant. |
| Interviews.ScheduleKeepsNoDoubleBooking | src/main/java/com/example/job_platform/Service/InterviewSchedulingService.java:217-231 | A new interview that passes the conflict check keeps every interviewer free of overlapping non-cancelled interviews. |
| Interviews.InterviewSchedulingService.ScheduleInterview | src/main/java/com/example/job_platform/Service/InterviewSchedulingService.java:203-247 | Succeeds iff the application and interviewer exist and there is no conflict. On success it creates one SCHEDULED interview with a fresh id, indexed both ways. On failure it stores nothing and does not draw an id. It keeps both invariants. |
| Interviews.AfterReschedule | src/main/java/com/example/job_platform/Service/InterviewSchedulingService.java:261-266 | Rescheduling changes only the times of that interview, sets RESCHEDULED and appends one note. All other interviews are unchanged. |
| Interviews.RescheduleKeepsNoDoubleBooking | src/main/java/com/example/job_platform/Service/InterviewSchedulingService.java:252-268 | A reschedule that passes the conflict check, which excludes the interview itself, keeps the no-double-booking invariant. |
| Interviews.InterviewSchedulingService.RescheduleInterview | src/main/java/com/example/job_platform/Service/InterviewSchedulingService.java:249-288 | Succeeds iff the id exists and the new times are free. On failure nothing changes. |
| Interviews.AfterCancel | src/main/java/com/example/job_platform/Service/InterviewSchedulingService.java:297-298 | Cancelling sets CANCELLED and appends one note, whatever the prior status. All other interviews are unchanged. |
| Interviews.CancelKeepsNoDoubleBooking | src/main/java/com/example/job_platform/Service/InterviewSchedulingService.java:290-314 | Cancelling keeps the no-double-booking invariant. |
| Interviews.InterviewSchedulingService.CancelInterview | src/main/java/com/example/job_platform/Service/InterviewSchedulingService.java:290-314 | Succeeds iff the id exists, and then performs `AfterCancel`. Otherwise nothing changes. |
| Interviews.AfterComplete | src/main/java/com/example/job_platform/Service/InterviewSchedulingService.java:323-325 | Completing sets COMPLETED, the score and the feedback, whatever the prior status. All other interviews are unchanged. |
| Interviews.CompletingACancelledInterviewCanDoubleBook | src/main/java/com/example/job_platform/Service/InterviewSchedulingService.java:316-338 | Completing a cancelled interview can bring back an overlap, because completion does not check for conflicts. |
| Interviews.InterviewSchedulingService.CompleteInterview | src/main/java/com/example/job_platform/Service/InterviewSchedulingService.java:316-338 | Succeeds iff the id exists, and then performs `AfterComplete`. Otherwise nothing changes. |
| Interviews.UpcomingInterviewsAreExactlyTheUpcomingOnes | src/main/java/com/example/job_platform/Service/InterviewSchedulingService.java:348-358 | Upcoming interviews are exactly the interviewer's interviews that are strictly after `now` and SCHEDULED or CONFIRMED, in ascending start order, each as often as the interviewer's list holds it. |
| Interviews.InterviewSchedulingService.FindAvailableSlots | src/main/java/com/example/job_platform/Service/InterviewSchedulingService.java:383-411 | The result lists, in ascending order, exactly the candidate starts `startDate + 30k` before `endDate` whose slot of the given duration has no conflict. Each slot has id 0 and application 0. |
| Interviews.BreakdownsAddUpToTotal | src/main/java/com/example/job_platform/Service/InterviewSchedulingService.java:360-381 | The status counts and the type counts each sum to the number of interviews. |
| Interviews.InterviewSchedulingService.GetInterviewStatistics | src/main/java/com/example/job_platform/Service/InterviewSchedulingService.java:360-381 | The total is the number of interviews. The breakdowns tally status and type per interview, and the number of active interviewers is the number of interviewer keys. |
| Interviews.InterviewSchedulingService.constructor | src/main/java/com/example/job_platform/Service/InterviewSchedulingService.java:37-39 | Empty store and indexes, counter 1, and no double booking. |
| Security.SeverityClasses | src/main/java/com/example/job_platform/Service/SecurityAuditService.java:292-310 | LOW iff LOGIN_SUCCESS or ACCOUNT_CREATED. MEDIUM iff LOGIN_FAILURE or PASSWORD_CHANGED. HIGH iff ACCOUNT_LOCKED, UNAUTHORIZED_ACCESS_ATTEMPT or SUSPICIOUS_ACTIVITY. CRITICAL iff DATA_EXPORT or ADMIN_ACTION. |
| Security.Logged | src/main/java/com/example/job_platform/Service/SecurityAuditService.java:89-103 | Logging appends the event with its severity. When the log is full, the oldest event is dropped first. The counters are untouched, and the log never exceeds 1000 events. |
| Security.SecurityAuditService.LogSecurityEvent | src/main/java/com/example/job_platform/Service/SecurityAuditService.java:89-103 | Performs `Logged` and keeps the invariant. |
| Security.IsAccountLocked | src/main/java/com/example/job_platform/Service/SecurityAuditService.java:105-113 | Locked iff there are at least 5 recorded failures and `now` is less than 30 minutes after the last failure. |
| Security.LoginEvents | src/main/java/com/example/job_platform/Service/SecurityAuditService.java:115-132 | A login logs LOGIN_SUCCESS or LOGIN_FAILURE first. It adds ACCOUNT_LOCKED iff the attempt failed and its count reaches 5. |
| Security.LoginRecorded | src/main/java/com/example/job_platform/Service/SecurityAuditService.java:115-136 | The IP counter goes up by exactly 1. A success removes the failure counter and the failure time. A failure adds 1 to the counter and records `now`. The invariant is kept. |
| Security.LoginRecordedFrame | src/main/java/com/example/job_platform/Service/SecurityAuditService.java:115-136 | No other IP counter, email counter or failure time changes. |
| Security.LoginRecordedEvents | src/main/java/com/example/job_platform/Service/SecurityAuditService.java:116-132 | The log ends with exactly the events of that login. Within the cap, it is the last 1000 of the old log followed by those events, so earlier events survive until the cap pushes them out. |
| Security.SecurityAuditService.RecordLoginAttempt | src/main/java/com/example/job_platform/Service/SecurityAuditService.java:115-136 | Performs `LoginRecorded` on the fields and keeps the invariant. |
| Security.FailuresAddUp | src/main/java/com/example/job_platform/Service/SecurityAuditService.java:121-123 | n consecutive failures raise the counter by n and leave the last failure time recorded. |
| Security.LockoutAfterFailures | src/main/java/com/example/job_platform/Service/SecurityAuditService.java:105-136 | After a run of failures, the account is locked at `now` iff the failure count reaches 5 and `now` is less than 30 minutes after the last failure. |
| Security.SuccessUnlocks | src/main/java/com/example/job_platform/Service/SecurityAuditService.java:116-119 | After a successful login the account is not locked at any time. |
| Security.Unlocked | src/main/java/com/example/job_platform/Service/SecurityAuditService.java:239-243 | After unlocking, the account is not locked at any time. Other accounts and the IP counters are unchanged, and the last event is the UNLOCK_ACCOUNT admin action. Within the cap, the log is the last 1000 of the old log followed by that action. |
| Security.SecurityAuditService.UnlockAccount | src/main/java/com/example/job_platform/Service/SecurityAuditService.java:239-243 | Performs `Unlocked`. The account is not locked afterwards, and the invariant is kept. |
| Security.SecurityAuditService.RecordPasswordChange | src/main/java/com/example/job_platform/Service/SecurityAuditService.java:138-140 | Logs PASSWORD_CHANGED with the fixed details. |
| Security.SecurityAuditService.RecordAccountCreation | src/main/java/com/example/job_platform/Service/SecurityAuditService.java:142-144 | Logs ACCOUNT_CREATED with the fixed details. |
| Security.SecurityAuditService.RecordUnauthorizedAccess | src/main/java/com/example/job_platform/Service/SecurityAuditService.java:146-149 | Logs UNAUTHORIZED_ACCESS_ATTEMPT naming the resource. |
| Security.SecurityAuditService.RecordDataExport | src/main/java/com/example/job_platform/Service/SecurityAuditService.java:151-154 | Logs DATA_EXPORT naming the data type. |
| Security.SecurityAuditService.RecordAdminAction | src/main/java/com/example/job_platform/Service/SecurityAuditService.java:156-159 | Logs ADMIN_ACTION naming the action and the target user. |
| Security.LockedAccountsIgnoreExpiry | src/main/java/com/example/job_platform/Service/SecurityAuditService.java:207-210 | The summary counts an email iff it has at least 5 failures, whether or not the lockout has expired. Every locked account is counted. |
| Security.ExpiredLockoutStillCounted | src/main/java/com/example/job_platform/Service/SecurityAuditService.java:207-210 | An account whose lockout has expired is not locked but is still counted in the summary. |
| Security.SecurityAuditService.constructor | src/main/java/com/example/job_platform/Service/SecurityAuditService.java:25-28 | Empty maps and an empty log. |
| Audit.Appended | src/main/java/com/example/job_platform/Service/AuditService.java:133-140 | The log never exceeds 1000 entries. Below the cap, the entry is appended. At the cap, the oldest entries are evicted first and the new entry ends the log. |
| Audit.AppendedKeepsValid | src/main/java/com/example/job_platform/Service/AuditService.java:133-140 | Appending a typed entry keeps the log bounded, with every entry of a known type. |
| Audit.AuditService.AddAuditEntry | src/main/java/com/example/job_platform/Service/AuditService.java:133-140 | The offer-then-poll loop leaves exactly `Appended` of the old log. |
| Audit.AuditService.LogUserAction | src/main/java/com/example/job_platform/Service/AuditService.java:19-29 | Appends one USER_ACTION entry. |
| Audit.AuditService.LogSystemEvent | src/main/java/com/example/job_platform/Service/AuditService.java:31-41 | Appends one SYSTEM_EVENT entry from user "SYSTEM". |
| Audit.AuditService.LogAuthenticationEvent | src/main/java/com/example/job_platform/Service/AuditService.java:43-54 | Appends one AUTHENTICATION entry with details "SUCCESS" or "FAILED". |
| Audit.AuditService.LogJobPostAction | src/main/java/com/example/job_platform/Service/AuditService.java:56-67 | Appends one JOB_POST entry naming the job. |
| Audit.AuditService.LogApplicationAction | src/main/java/com/example/job_platform/Service/AuditService.java:69-80 | Appends one APPLICATION entry naming the application. |
| Audit.AuditService.LogPaymentAction | src/main/java/com/example/job_platform/Service/AuditService.java:82-93 | Appends one PAYMENT entry naming the payment and amount. |
| Audit.NewestFirst | src/main/java/com/example/job_platform/Service/AuditService.java:97-98 | Sorting newest first is a permutation of the log, ordered by descending timestamp. |
| Audit.RecentAuditLogsAreTheNewest | src/main/java/com/example/job_platform/Service/AuditService.java:95-103 | A negative limit fails. Otherwise the result has min(limit, size) entries, newest first, drawn from the log, and no omitted entry is newer than one returned. |
| Audit.AuditLogsByTypeAreExactlyThatType | src/main/java/com/example/job_platform/Service/AuditService.java:105-110 | The result holds every entry of that type, with its multiplicity, and nothing else, newest first. |
| Audit.AuditLogsByUserAreExactlyThatUser | src/main/java/com/example/job_platform/Service/AuditService.java:112-117 | The query fails exactly when some entry was logged with a null user id, as `getUserId().equals` then throws. Otherwise the result holds every entry of that user, with its multiplicity, and nothing else, newest first; a null user matches nothing. |
| Audit.NullUserBreaksUserQuery | src/main/java/com/example/job_platform/Service/AuditService.java:112-117 | After `logUserAction` with a null user id, every user query fails, whoever it asks for. |
| Audit.StatisticsAddUp | src/main/java/com/example/job_platform/Service/AuditService.java:119-131 | When every entry has one of the six types, the per-type counts sum to the total. |
| Audit.AuditService.GetStatistics | src/main/java/com/example/job_platform/Service/AuditService.java:119-131 | The statistics of the current log. The per-type counts sum to the total, which is at most 1000. |
| Audit.AuditService.constructor | src/main/java/com/example/job_platform/Service/AuditService.java:16 | Starts with an empty log. |
| Performance.Recorded | src/main/java/com/example/job_platform/Service/PerformanceMonitoringService.java:72-101 | Adds 1 request and the execution time, and adds 1 error iff the call failed. Appends the metric, evicting the oldest at 1000 entries, and keeps the invariant. |
| Performance.RecordedTouchesOnlyItsOperation | src/main/java/com/example/job_platform/Service/PerformanceMonitoringService.java:72-79 | Recording one operation leaves every other operation's counters unchanged. |
| Performance.ErrorsNeverExceedRequests | src/main/java/com/example/job_platform/Service/PerformanceMonitoringService.java:74-79 | Under the invariant, no operation has more errors than requests. |
| Performance.PerformanceMonitoringService.RecordOperation | src/main/java/com/example/job_platform/Service/PerformanceMonitoringService.java:72-101 | Performs `Recorded` and keeps the invariant. |
| Performance.JavaDiv | src/main/java/com/example/job_platform/Service/PerformanceMonitoringService.java:117 | Java `long` division truncates toward zero. |
| Performance.GetOperationStatistics | src/main/java/com/example/job_platform/Service/PerformanceMonitoringService.java:103-122 | Reports the operation's request, time and error counters. The average is 0 with no requests and otherwise the truncated quotient of total time by requests. |
| Performance.UnknownOperationReportsZeros | src/main/java/com/example/job_platform/Service/PerformanceMonitoringService.java:106-117 | An operation never recorded reports all zeros. |
| Performance.AverageOfEqualTimes | src/main/java/com/example/job_platform/Service/PerformanceMonitoringService.java:117 | n calls of t ms each average exactly t. |
| Performance.Reset | src/main/java/com/example/job_platform/Service/PerformanceMonitoringService.java:242-250 | After a full reset every operation reports zeros, and the invariant holds. |
| Performance.PerformanceMonitoringService.ResetStatistics | src/main/java/com/example/job_platform/Service/PerformanceMonitoringService.java:242-250 | Performs `Reset`. |
| Performance.ResetOperation | src/main/java/com/example/job_platform/Service/PerformanceMonitoringService.java:252-262 | The operation reports zeros. Exactly its metrics leave the history: every other metric stays as often as it was there, in its old order (a subsequence), and the invariant is kept. |
| Performance.ResetOperationKeepsOthers | src/main/java/com/example/job_platform/Service/PerformanceMonitoringService.java:252-259 | Every other operation's statistics are unchanged. |
| Performance.PerformanceMonitoringService.ResetStatisticsForOperation | src/main/java/com/example/job_platform/Service/PerformanceMonitoringService.java:252-262 | Performs `ResetOperation` and keeps the invariant. |
| Performance.SlowOperationsAreTheSlowest | src/main/java/com/example/job_platform/Service/PerformanceMonitoringService.java:201-209 | A negative limit fails. Otherwise the result has exactly min(`limit`, number of slow metrics) metrics, drawn with multiplicity from the slow ones, each recorded and slower than the threshold, sorted slowest first. No omitted slow metric is slower than one returned. |
| Performance.PerformanceMonitoringService.constructor | src/main/java/com/example/job_platform/Service/PerformanceMonitoringService.java:17-20 | Empty counters and history. |
| Cache.Put | src/main/java/com/example/job_platform/Service/CacheService.java:38-41 | Stores the value, valid exactly until `now + ttl`. Every other key keeps its presence, value and expiry, and both maps keep the same keys. |
| Cache.CacheService.PutWithTtl | src/main/java/com/example/job_platform/Service/CacheService.java:38-41 | Performs `Put`. |
| Cache.CacheService.PutDefault | src/main/java/com/example/job_platform/Service/CacheService.java:34-36 | Performs `Put` with the 5-minute default TTL. |
| Cache.Remove | src/main/java/com/example/job_platform/Service/CacheService.java:69-72 | Removes the key from both maps. Every other key keeps its presence, value and expiry. |
| Cache.CacheService.RemoveKey | src/main/java/com/example/job_platform/Service/CacheService.java:69-72 | Performs `Remove`. |
| Cache.Get | src/main/java/com/example/job_platform/Service/CacheService.java:57-63 | An expired or missing key yields nothing and is removed from both maps. A valid key yields its value and changes nothing. |
| Cache.CacheService.GetValue | src/main/java/com/example/job_platform/Service/CacheService.java:57-63 | Performs `Get` and keeps the key sets equal. |
| Cache.PutThenGet | src/main/java/com/example/job_platform/Service/CacheService.java:38-63 | A value put at `t` with a given TTL is returned by `get` strictly before `t + ttl`. From `t + ttl` on, it is gone and evicted. |
| Cache.ContainsKeyAgreesWithGet | src/main/java/com/example/job_platform/Service/CacheService.java:65-67 | `containsKey` holds iff `get` would return a value. |
| Cache.CacheService.Clear | src/main/java/com/example/job_platform/Service/CacheService.java:74-77 | Both maps become empty. |
| Cache.CleanupExpired | src/main/java/com/example/job_platform/Service/CacheService.java:209-218 | Cleanup keeps the two maps' key sets equal. |
| Cache.CleanupKeepsExactlyTheValid | src/main/java/com/example/job_platform/Service/CacheService.java:209-218 | After cleanup a key remains iff it was valid at `now`, with its value and expiry unchanged. |
| Cache.CleanupLeavesOnlyValid | src/main/java/com/example/job_platform/Service/CacheService.java:209-218 | Every key left by cleanup is served by `get` at the same time. |
| Cache.CacheService.CleanupExpiredEntries | src/main/java/com/example/job_platform/Service/CacheService.java:209-218 | Performs `CleanupExpired`. |
| Cache.CacheService.Size | src/main/java/com/example/job_platform/Service/CacheService.java:79-82 | Cleans up first, then returns the number of entries left. |
| Cache.RemoveKeysWhere | src/main/java/com/example/job_platform/Service/CacheService.java:167-184 | Removing keys by a predicate removes exactly the matching keys from both maps and keeps the other entries unchanged. |
| Cache.InvalidateJobCachesIsExact | src/main/java/com/example/job_platform/Service/CacheService.java:167-178 | Job invalidation removes exactly the job keys, and every other entry survives unchanged. |
| Cache.JobKeyExamples | src/main/java/com/example/job_platform/Service/CacheService.java:169-171 | "recent_jobs_10", "jobs_location_remote" and "job_statistics" are job keys. "job_statistics_old", "recent_jobs" and "user_1_jobs_location_x" are not. |
| Cache.CacheService.InvalidateJobs | src/main/java/com/example/job_platform/Service/CacheService.java:167-178 | Performs `InvalidateJobCaches`. |
| Cache.UnderscoreEndsTheWord | src/main/java/com/example/job_platform/Service/CacheService.java:181 | The underscore after the id ends the prefix: two ids without underscores, each followed by `_`, match as prefixes only when they are equal. |
| Cache.UserPrefixSeparatesUsers | src/main/java/com/example/job_platform/Service/CacheService.java:181 | User a's prefix begins a key of user b only when a = b, so user 1's prefix never matches user 12's keys. |
| Cache.InvalidateUserCachesIsExact | src/main/java/com/example/job_platform/Service/CacheService.java:180-184 | User invalidation removes exactly the keys with that user's prefix, and the keys of every other user survive. |
| Cache.CacheService.InvalidateUser | src/main/java/com/example/job_platform/Service/CacheService.java:180-184 | Performs `InvalidateUserCaches` and keeps the key sets equal. |
| Cache.CacheService.constructor | src/main/java/com/example/job_platform/Service/CacheService.java:21-22 | Both maps start empty. |
| Streams.SortByIsStable | src/main/java/com/example/job_platform/Service/AuditService.java:97-99 | `sorted` is stable: the elements with any one key come out in the order in which they went in, so entries with equal timestamps keep their log order. |
| Text.IntToStringInjective | src/main/java/com/example/job_platform/Service/CacheService.java:181 | Different ids render as different decimal strings, because rendering then reading gives the id back. |
| Validation.TrimEmptyIff | src/main/java/com/example/job_platform/Service/ValidationService.java:32 | `trim()` is empty iff every character is at most a space. |
| Validation.IsValidEmail | src/main/java/com/example/job_platform/Service/ValidationService.java:10-21 | The hand-coded scan accepts exactly the strings matching `^[A-Za-z0-9+_.-]+@(.+)$`, and rejects null. |
| Validation.IsValidPhoneNumber | src/main/java/com/example/job_platform/Service/ValidationService.java:23-25 | Accepts exactly an optional `+`, a digit 1-9 and then 1 to 14 digits, so 2 to 16 characters. Rejects null. |
| Validation.ScanPassword | src/main/java/com/example/job_platform/Service/ValidationService.java:16-17 | One pass finds whether the password has a digit, a lowercase letter, an uppercase letter, a special character, and any whitespace. |
| Validation.IsValidPassword | src/main/java/com/example/job_platform/Service/ValidationService.java:27-29 | Accepts exactly the strings of 8 or more characters with no whitespace and at least one digit, lowercase, uppercase and one of `@#$%^&+=`. Rejects null. |
| Validation.IsValidName | src/main/java/com/example/job_platform/Service/ValidationService.java:31-33 | Non-null, not blank after trimming, and 2 to 50 UTF-16 code units long, counted as Java's `length()` does. |
| Validation.IsValidJobTitle | src/main/java/com/example/job_platform/Service/ValidationService.java:35-37 | Non-null, not blank after trimming, and 3 to 100 UTF-16 code units long. |
| Validation.IsValidCompanyName | src/main/java/com/example/job_platform/Service/ValidationService.java:39-41 | Non-null, not blank after trimming, and 2 to 100 UTF-16 code units long. |
| Validation.ValidationBoundaries | src/main/java/com/example/job_platform/Service/ValidationService.java:19-50 | Boundary cases: "  " is not a name but "Al" is; experience 0 and 50 pass, while -1, 51 and null fail; "+12" is a phone number but "+02" is not; "a@b" is an email but "a@" and "@b" are not. |
| Validation.LengthCountsUtf16Units | src/main/java/com/example/job_platform/Service/ValidationService.java:31-37 | A single character beyond U+FFFF has length 2, as Java counts it: long enough for a name but too short for a job title. |
| Text.Utf16Length | src/main/java/com/example/job_platform/Service/ValidationService.java:32 | The UTF-16 length is between the character count and twice that, and equals the character count iff no character lies beyond U+FFFF. |
| Validation.ValidateUserRegistration | src/main/java/com/example/job_platform/Service/ValidationService.java:52-63 | Returns no message iff name, email and password are all valid. Otherwise it returns the message of the first failing check, in the order name, email, password. |
| Validation.ValidateJobPost | src/main/java/com/example/job_platform/Service/ValidationService.java:65-76 | Returns no message iff title, company and salary range are all valid. Otherwise it returns the message of the first failing check, in the order title, company, salary. |

## Left out

- The clock (`LocalDateTime.now()`, `System.currentTimeMillis()`) is a parameter `now` in integer minutes or milliseconds. Calendar arithmetic and `DateTimeFormatter` output are not modelled.
- Console logging (`LoggingService`, `System.out`) and email notifications are side effects with no bearing on the services' state, so they are left out.
- Concurrency is left out and everything is sequential: `ConcurrentHashMap`, `AtomicInteger`/`AtomicLong`, the synchronized id generator, and the cache's background cleanup scheduler.
- Floating point is left out: success and error rates, the health thresholds, and `isValidSalaryRange`, which is a boolean input to `ValidateJobPost`.
- Overflow is not modelled, because integers are unbounded. This covers the 32-bit counters (the `AtomicInteger` login and IP counters, the `int` interview statistics) and the 64-bit ones (the performance counters, `long` times, the interview id counter). A login counter that wrapped negative would end a lockout; the model never wraps.
- Audit entry ids (`UUID`) are a parameter of each log method.
- `createdAt`/`updatedAt` timestamps of interviews are not modelled.
- The application `Status` enum file is not part of this model. Only the four values that the workflow writes back are represented.
- Interview notes are a sequence of note records rather than the concatenated text that starts from a null field. The score only drives logging, so that logging is left out too.
- Workflow.ToLower: lowercases ASCII letters only. Java's `toLowerCase` also folds non-ASCII letters, which the model does not capture.
- Interviews.InterviewSchedulingService.GetInterviewStatistics: counts over the interview store rather than by flattening the per-application lists. The two are equal under the index invariant (every interview is listed once under its application).
- Cache.Get: the `get(key, Class)` overload's `isInstance` check is not modelled. Values have one type parameter `V`.
- The cache's statistics (`getCacheStats`, memory estimate), the cached job loaders and `preloadCommonData` read repositories and are left out.
- SecurityAuditService's `detectSuspiciousActivity`, `getRecentSecurityEvents`, `getSecurityEventsByType`, `getSecurityEventsByUser`, `getTopIpAddresses`, `validateUserAccess`, `performSecurityHealthCheck` and the rest of `getSecuritySummary` are left out. They are queries or repository lookups outside the lockout core; only the locked-account count is modelled.
- The unreachable default branch of `determineSeverity` is not represented, because the event type is a closed datatype.
- PerformanceMonitoringService's `getSystemPerformanceOverview`, `getRecentMetrics`, `getMetricsByOperation`, `getHealthStatus` and `measureOperation` are left out. They compute floating-point rates or wrap a clock around a callback.
- Workflow.StatusFor: the write-back to the application repository is a map of statuses kept by the service; the JPA save is not modelled.

## Findings

| source | as written | input that shows it | evidently intended | confidence | as-written member | corrected member |
|---|---|---|---|---|---|---|
| src/main/java/com/example/job_platform/Service/WorkflowService.java:118-141 | The log message in `initiateApplicationWorkflow` dereferences the application's job and student before `performInitialReview` runs. An application without a student therefore throws there; the exception becomes `BusinessRuleException`, and the state is left at INITIAL_REVIEW with no history record. | An existing application whose student is null | The initial review rejects an application with no student and records the REJECTED transition | not executed | Workflow.NoStudentRejectionIsUnreachable | Workflow.Initiate |
