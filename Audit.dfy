/** AuditService: a FIFO queue of audit entries capped at 1000, filled by
    six logging operations that each stamp their own entry type, and read
    back newest first, by type, by user, or as counts per type. Entry ids
    and times are arguments. */
module Audit {
  import opened Streams

  const MaxLogSize: nat := 1000

  const UserAction := "USER_ACTION"
  const SystemEvent := "SYSTEM_EVENT"
  const Authentication := "AUTHENTICATION"
  const JobPost := "JOB_POST"
  const ApplicationType := "APPLICATION"
  const Payment := "PAYMENT"

  /** The six entry types the logging operations write. */
  const EntryTypes: seq<string> := [UserAction, SystemEvent, Authentication, JobPost, ApplicationType, Payment]

  datatype AuditEntry = AuditEntry(
    id: string,
    entryType: string,
    userId: Option<string>,
    action: string,
    details: string,
    timestamp: int)

  /** The queue after `offer(entry)` and polling until it is within the cap:
      the newest `MaxLogSize` entries, in arrival order. */
  function Appended(log: seq<AuditEntry>, entry: AuditEntry): (r: seq<AuditEntry>)
    ensures |r| <= MaxLogSize
    ensures |log| < MaxLogSize ==> r == log + [entry]
    ensures |log| >= MaxLogSize ==> |r| == MaxLogSize && r == log[|log| + 1 - MaxLogSize..] + [entry]
  {
    var r := LastN(log + [entry], MaxLogSize);
    assert |log| >= MaxLogSize ==> r == log[|log| + 1 - MaxLogSize..] + [entry];
    r
  }

  /** What the log holds: at most `MaxLogSize` entries, each of one of the
      six types. */
  ghost predicate ValidAuditLog(log: seq<AuditEntry>) {
    && |log| <= MaxLogSize
    && forall i :: 0 <= i < |log| ==> log[i].entryType in EntryTypes
  }

  /** Appending an entry of one of the six types keeps the log valid. */
  lemma AppendedKeepsValid(log: seq<AuditEntry>, entry: AuditEntry)
    requires ValidAuditLog(log) && entry.entryType in EntryTypes
    ensures ValidAuditLog(Appended(log, entry))
  {
    var r := Appended(log, entry);
    forall i | 0 <= i < |r| ensures r[i].entryType in EntryTypes {
      if i < |r| - 1 {
        assert r[i] == log[|log| + 1 - |r| + i];
      }
    }
  }

  // ---------------------------------------------------------------------
  // The entries written by the logging operations

  function UserActionEntry(id: string, userId: Option<string>, action: string, details: string, now: int): AuditEntry {
    AuditEntry(id, UserAction, userId, action, details, now)
  }

  function SystemEventEntry(id: string, eventType: string, description: string, now: int): AuditEntry {
    AuditEntry(id, SystemEvent, Some("SYSTEM"), eventType, description, now)
  }

  function AuthenticationEntry(id: string, userId: Option<string>, action: string, success: bool, now: int): AuditEntry {
    AuditEntry(id, Authentication, userId, action, if success then "SUCCESS" else "FAILED", now)
  }

  function JobPostEntry(id: string, userId: Option<string>, jobId: string, action: string, now: int): AuditEntry {
    AuditEntry(id, JobPost, userId, action, "Job ID: " + jobId, now)
  }

  function ApplicationEntry(id: string, userId: Option<string>, applicationId: string, action: string, now: int): AuditEntry {
    AuditEntry(id, ApplicationType, userId, action, "Application ID: " + applicationId, now)
  }

  function PaymentEntry(id: string, userId: Option<string>, paymentId: string, action: string, amount: string, now: int): AuditEntry {
    AuditEntry(id, Payment, userId, action, "Payment ID: " + paymentId + ", Amount: " + amount, now)
  }

  // ---------------------------------------------------------------------
  // Queries

  /** The sort key that puts the newest entry first. */
  function Age(e: AuditEntry): int {
    -e.timestamp
  }

  /** A stable sort on the timestamp, newest first. */
  function NewestFirst(s: seq<AuditEntry>): (r: seq<AuditEntry>)
    ensures multiset(r) == multiset(s) && |r| == |s|
    ensures SortedBy(r, Age)
  {
    SortBy(s, Age)
  }

  /** `getRecentAuditLogs(limit)`; None is the IllegalArgumentException a
      negative limit raises. */
  function RecentAuditLogs(log: seq<AuditEntry>, limit: int): Option<seq<AuditEntry>> {
    Limit(NewestFirst(log), limit)
  }

  /** The recent logs are the newest `limit` entries: at most `limit` of
      them, newest first, taken from the log, and no entry left out is newer
      than one returned. */
  lemma RecentAuditLogsAreTheNewest(log: seq<AuditEntry>, limit: int)
    ensures RecentAuditLogs(log, limit).None? <==> limit < 0
    ensures RecentAuditLogs(log, limit).Some? ==>
      var r := RecentAuditLogs(log, limit).value;
      && |r| == (if limit < |log| then limit else |log|)
      && (forall i, j :: 0 <= i < j < |r| ==> r[j].timestamp <= r[i].timestamp)
      && multiset(r) <= multiset(log)
      && (forall e, x :: e in r && x in multiset(log) - multiset(r) ==> x.timestamp <= e.timestamp)
  {
    if limit >= 0 {
      var sorted := NewestFirst(log);
      var n := if limit < |log| then limit else |log|;
      assert RecentAuditLogs(log, limit).value == sorted[..n];
      SortedPrefix(sorted, Age, n);
    }
  }

  /** `getAuditLogsByType`. */
  function AuditLogsByType(log: seq<AuditEntry>, entryType: string): seq<AuditEntry> {
    NewestFirst(Filter(log, (e: AuditEntry) => e.entryType == entryType))
  }

  /** The entry was logged with a null user id. */
  predicate HasNoUser(e: AuditEntry) {
    e.userId.None?
  }

  /** The entry's user id is non-null and equal to `userId`. */
  function UserIs(userId: Option<string>): AuditEntry -> bool {
    (e: AuditEntry) => e.userId.Some? && e.userId == userId
  }

  /** `getAuditLogsByUser`; None is the NullPointerException that
      `entry.getUserId().equals(userId)` raises once the log holds an entry
      with a null user id. A null `userId` matches no entry. */
  function AuditLogsByUser(log: seq<AuditEntry>, userId: Option<string>): Option<seq<AuditEntry>> {
    if exists e | e in log :: HasNoUser(e) then None
    else Some(NewestFirst(Filter(log, UserIs(userId))))
  }

  /** The type query returns exactly the entries of that type, every one of
      them as often as it was logged, newest first. */
  lemma AuditLogsByTypeAreExactlyThatType(log: seq<AuditEntry>, entryType: string, x: AuditEntry)
    ensures var r := AuditLogsByType(log, entryType);
      && multiset(r)[x] == (if x.entryType == entryType then multiset(log)[x] else 0)
      && (x in r <==> x in log && x.entryType == entryType)
      && SortedBy(r, Age)
  {
    FilterMultiset(log, (e: AuditEntry) => e.entryType == entryType, x);
  }

  /** The user query fails exactly when some entry has a null user id;
      otherwise it returns exactly the entries of that user, every one of
      them as often as it was logged, newest first, and nothing for a null
      user. */
  lemma AuditLogsByUserAreExactlyThatUser(log: seq<AuditEntry>, userId: Option<string>, x: AuditEntry)
    ensures AuditLogsByUser(log, userId).None? <==> exists e :: e in log && e.userId.None?
    ensures AuditLogsByUser(log, userId).Some? ==>
      var r := AuditLogsByUser(log, userId).value;
      && multiset(r)[x] == (if x.userId == userId then multiset(log)[x] else 0)
      && (x in r <==> x in log && x.userId == userId)
      && SortedBy(r, Age)
      && (userId.None? ==> r == [])
  {
    if AuditLogsByUser(log, userId).Some? {
      var r := AuditLogsByUser(log, userId).value;
      FilterMultiset(log, UserIs(userId), x);
      assert x in r <==> x in multiset(r);
      assert x in log <==> x in multiset(log);
      if userId.None? && r != [] {
        assert r[0] in multiset(r);
        FilterMembership(log, UserIs(userId), r[0]);
        assert false;
      }
    }
  }

  /** Once a user action is logged with a null user id, every user query
      fails, whoever it asks for, until that entry is evicted. */
  lemma NullUserBreaksUserQuery(log: seq<AuditEntry>, id: string, action: string, details: string, now: int,
                                userId: Option<string>)
    ensures AuditLogsByUser(Appended(log, UserActionEntry(id, None, action, details, now)), userId).None?
  {
    var r := Appended(log, UserActionEntry(id, None, action, details, now));
    assert r[|r| - 1] == UserActionEntry(id, None, action, details, now);
    assert HasNoUser(r[|r| - 1]);
  }

  datatype AuditStatistics = AuditStatistics(
    totalEntries: nat,
    userActions: nat,
    systemEvents: nat,
    authEvents: nat,
    jobPostEvents: nat,
    applicationEvents: nat,
    paymentEvents: nat)

  /** Number of entries of one type. */
  function CountType(log: seq<AuditEntry>, entryType: string): nat {
    Count(log, (e: AuditEntry) => e.entryType == entryType)
  }

  /** `getAuditStatistics`. */
  function GetAuditStatistics(log: seq<AuditEntry>): AuditStatistics {
    AuditStatistics(|log|, CountType(log, UserAction), CountType(log, SystemEvent), CountType(log, Authentication),
                    CountType(log, JobPost), CountType(log, ApplicationType), CountType(log, Payment))
  }

  function SumOfTypes(stats: AuditStatistics): nat {
    stats.userActions + stats.systemEvents + stats.authEvents + stats.jobPostEvents + stats.applicationEvents + stats.paymentEvents
  }

  /** Every entry of a log whose entries all carry one of the six types is
      counted once, under its own type. */
  lemma {:induction false} StatisticsAddUp(log: seq<AuditEntry>)
    requires forall i :: 0 <= i < |log| ==> log[i].entryType in EntryTypes
    ensures SumOfTypes(GetAuditStatistics(log)) == GetAuditStatistics(log).totalEntries
  {
    if log != [] {
      StatisticsAddUp(log[1..]);
      assert log[0].entryType in EntryTypes;
    }
  }

  class AuditService {
    var auditLog: seq<AuditEntry>

    ghost predicate Valid()
      reads this
    {
      ValidAuditLog(auditLog)
    }

    constructor ()
      ensures Valid() && auditLog == []
    {
      auditLog := [];
    }

    /** `addAuditEntry`: offer, then poll while over the cap. */
    method AddAuditEntry(entry: AuditEntry)
      modifies this
      ensures auditLog == Appended(old(auditLog), entry)
    {
      ghost var grown := auditLog + [entry];
      auditLog := auditLog + [entry];
      while |auditLog| > MaxLogSize
        invariant |auditLog| <= |grown| && auditLog == grown[|grown| - |auditLog|..]
        invariant |auditLog| < |grown| ==> |auditLog| >= MaxLogSize
        decreases |auditLog|
      {
        auditLog := auditLog[1..];
      }
    }

    method LogUserAction(id: string, userId: Option<string>, action: string, details: string, now: int)
      modifies this
      ensures auditLog == Appended(old(auditLog), UserActionEntry(id, userId, action, details, now))
      ensures old(Valid()) ==> Valid()
    {
      AddAuditEntry(UserActionEntry(id, userId, action, details, now));
      if old(Valid()) {
        AppendedKeepsValid(old(auditLog), UserActionEntry(id, userId, action, details, now));
      }
    }

    method LogSystemEvent(id: string, eventType: string, description: string, now: int)
      modifies this
      ensures auditLog == Appended(old(auditLog), SystemEventEntry(id, eventType, description, now))
      ensures old(Valid()) ==> Valid()
    {
      AddAuditEntry(SystemEventEntry(id, eventType, description, now));
      if old(Valid()) {
        AppendedKeepsValid(old(auditLog), SystemEventEntry(id, eventType, description, now));
      }
    }

    method LogAuthenticationEvent(id: string, userId: Option<string>, action: string, success: bool, now: int)
      modifies this
      ensures auditLog == Appended(old(auditLog), AuthenticationEntry(id, userId, action, success, now))
      ensures old(Valid()) ==> Valid()
    {
      var details := if success then "SUCCESS" else "FAILED";
      AddAuditEntry(AuditEntry(id, Authentication, userId, action, details, now));
      if old(Valid()) {
        AppendedKeepsValid(old(auditLog), AuthenticationEntry(id, userId, action, success, now));
      }
    }

    method LogJobPostAction(id: string, userId: Option<string>, jobId: string, action: string, now: int)
      modifies this
      ensures auditLog == Appended(old(auditLog), JobPostEntry(id, userId, jobId, action, now))
      ensures old(Valid()) ==> Valid()
    {
      AddAuditEntry(JobPostEntry(id, userId, jobId, action, now));
      if old(Valid()) {
        AppendedKeepsValid(old(auditLog), JobPostEntry(id, userId, jobId, action, now));
      }
    }

    method LogApplicationAction(id: string, userId: Option<string>, applicationId: string, action: string, now: int)
      modifies this
      ensures auditLog == Appended(old(auditLog), ApplicationEntry(id, userId, applicationId, action, now))
      ensures old(Valid()) ==> Valid()
    {
      AddAuditEntry(ApplicationEntry(id, userId, applicationId, action, now));
      if old(Valid()) {
        AppendedKeepsValid(old(auditLog), ApplicationEntry(id, userId, applicationId, action, now));
      }
    }

    method LogPaymentAction(id: string, userId: Option<string>, paymentId: string, action: string, amount: string, now: int)
      modifies this
      ensures auditLog == Appended(old(auditLog), PaymentEntry(id, userId, paymentId, action, amount, now))
      ensures old(Valid()) ==> Valid()
    {
      AddAuditEntry(PaymentEntry(id, userId, paymentId, action, amount, now));
      if old(Valid()) {
        AppendedKeepsValid(old(auditLog), PaymentEntry(id, userId, paymentId, action, amount, now));
      }
    }

    /** `getAuditStatistics` on the current log: the six per-type counts add
      up to the total. */
    method GetStatistics() returns (stats: AuditStatistics)
      requires Valid()
      ensures stats == GetAuditStatistics(auditLog)
      ensures SumOfTypes(stats) == stats.totalEntries <= MaxLogSize
    {
      stats := GetAuditStatistics(auditLog);
      StatisticsAddUp(auditLog);
    }
  }
}
