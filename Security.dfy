/** SecurityAuditService: per-email failed-login counters with a timed
    lockout, per-IP request counters, and a capped log of security events
    classified by a fixed severity table. Times are whole minutes; the
    clock is the `now` argument. */
module Security {
  import opened Streams
  import opened Text

  const MaxLoginAttempts: nat := 5
  const LockoutDurationMinutes: int := 30
  const MaxSecurityEvents: nat := 1000

  datatype SecurityEventType =
    | LoginSuccess
    | LoginFailure
    | AccountLocked
    | SuspiciousActivity
    | PasswordChanged
    | AccountCreated
    | UnauthorizedAccessAttempt
    | DataExport
    | AdminAction

  datatype Severity = Low | Medium | High | Critical

  datatype SecurityEvent = SecurityEvent(
    timestamp: int,
    eventType: SecurityEventType,
    userEmail: string,
    ipAddress: string,
    details: string,
    severity: Severity)

  /** `determineSeverity`; the switch covers every event type, so its
      default branch is never taken. */
  function DetermineSeverity(t: SecurityEventType): Severity {
    match t
    case LoginSuccess | AccountCreated => Low
    case LoginFailure | PasswordChanged => Medium
    case AccountLocked | UnauthorizedAccessAttempt | SuspiciousActivity => High
    case DataExport | AdminAction => Critical
  }

  /** The severity classes, each in both directions. */
  lemma SeverityClasses(t: SecurityEventType)
    ensures DetermineSeverity(t) == Low <==> t in {LoginSuccess, AccountCreated}
    ensures DetermineSeverity(t) == Medium <==> t in {LoginFailure, PasswordChanged}
    ensures DetermineSeverity(t) == High <==> t in {AccountLocked, UnauthorizedAccessAttempt, SuspiciousActivity}
    ensures DetermineSeverity(t) == Critical <==> t in {DataExport, AdminAction}
  {
  }

  /** The event `logSecurityEvent` creates. */
  function NewEvent(t: SecurityEventType, email: string, ip: string, details: string, now: int): SecurityEvent {
    SecurityEvent(now, t, email, ip, details, DetermineSeverity(t))
  }

  /** The four fields of the service. */
  datatype SecurityLog = SecurityLog(
    loginAttempts: map<string, nat>,
    lastFailedLogin: map<string, int>,
    securityEvents: seq<SecurityEvent>,
    ipAccessCount: map<string, nat>)

  /** What the service keeps true: the event log is within its cap, an
      email has a failure time exactly when it has a failure counter, a
      counter is at least one, and every event carries the severity of its
      type. */
  ghost predicate ValidLog(st: SecurityLog) {
    && |st.securityEvents| <= MaxSecurityEvents
    && st.loginAttempts.Keys == st.lastFailedLogin.Keys
    && (forall e :: e in st.loginAttempts ==> st.loginAttempts[e] >= 1)
    && (forall i :: 0 <= i < |st.securityEvents| ==>
          st.securityEvents[i].severity == DetermineSeverity(st.securityEvents[i].eventType))
  }

  /** `logSecurityEvent`: appends the event and, when that makes the log
      longer than the cap, drops the oldest one. */
  function Logged(st: SecurityLog, t: SecurityEventType, email: string, ip: string, details: string, now: int): (r: SecurityLog)
    ensures r.loginAttempts == st.loginAttempts && r.lastFailedLogin == st.lastFailedLogin
    ensures r.ipAccessCount == st.ipAccessCount
    ensures |st.securityEvents| < MaxSecurityEvents ==>
      r.securityEvents == st.securityEvents + [NewEvent(t, email, ip, details, now)]
    ensures |st.securityEvents| == MaxSecurityEvents ==>
      r.securityEvents == st.securityEvents[1..] + [NewEvent(t, email, ip, details, now)]
    ensures ValidLog(st) ==> ValidLog(r)
  {
    st.(securityEvents := AppendDropOldest(st.securityEvents, NewEvent(t, email, ip, details, now), MaxSecurityEvents))
  }

  /** `isAccountLocked`: at least five failures, the last of them less than
      thirty minutes ago. */
  function IsAccountLocked(st: SecurityLog, email: string, now: int): (b: bool)
    ensures b <==>
      && GetOrZero(st.loginAttempts, email) >= MaxLoginAttempts
      && email in st.lastFailedLogin
      && now < st.lastFailedLogin[email] + LockoutDurationMinutes
  {
    if email in st.loginAttempts && st.loginAttempts[email] >= MaxLoginAttempts && email in st.lastFailedLogin then
      st.lastFailedLogin[email] + LockoutDurationMinutes > now
    else
      false
  }

  /** Details text of the failure event. */
  function FailureDetails(attempt: nat): string {
    "Failed login attempt #" + IntToString(attempt)
  }

  /** Details text of the lockout event. */
  function LockedDetails(): string {
    "Account locked due to " + IntToString(MaxLoginAttempts) + " failed attempts"
  }

  /** The events one `recordLoginAttempt` logs, oldest first; `attempt` is
      the failure counter after the call. A lockout is logged after every
      failure that brings the counter to five or more. */
  function LoginEvents(email: string, ip: string, success: bool, attempt: nat, now: int): (es: seq<SecurityEvent>)
    ensures 1 <= |es| <= 2
    ensures es[0].eventType == (if success then LoginSuccess else LoginFailure)
    ensures NewEvent(AccountLocked, email, ip, LockedDetails(), now) in es <==> !success && attempt >= MaxLoginAttempts
  {
    if success then [NewEvent(LoginSuccess, email, ip, "Successful login", now)]
    else if attempt >= MaxLoginAttempts then
      [NewEvent(LoginFailure, email, ip, FailureDetails(attempt), now), NewEvent(AccountLocked, email, ip, LockedDetails(), now)]
    else [NewEvent(LoginFailure, email, ip, FailureDetails(attempt), now)]
  }

  /** The failure counter after a failed attempt. */
  function NextAttempt(st: SecurityLog, email: string): nat {
    GetOrZero(st.loginAttempts, email) + 1
  }

  /** `recordLoginAttempt`: a success clears the email's counter and failure
      time; a failure raises the counter by one and stamps the failure
      time; either way the events are logged and the IP counter is raised
      by one. */
  function LoginRecorded(st: SecurityLog, email: string, ip: string, success: bool, now: int): (r: SecurityLog)
    ensures GetOrZero(r.ipAccessCount, ip) == GetOrZero(st.ipAccessCount, ip) + 1
    ensures success ==> email !in r.loginAttempts && email !in r.lastFailedLogin
    ensures !success ==>
      && GetOrZero(r.loginAttempts, email) == NextAttempt(st, email)
      && email in r.lastFailedLogin && r.lastFailedLogin[email] == now
    ensures ValidLog(st) ==> ValidLog(r)
  {
    var logged :=
      if success then
        var cleared := st.(loginAttempts := st.loginAttempts - {email}, lastFailedLogin := st.lastFailedLogin - {email});
        Logged(cleared, LoginSuccess, email, ip, "Successful login", now)
      else
        var attempts := Bump(st.loginAttempts, email);
        var failed := Logged(st.(loginAttempts := attempts, lastFailedLogin := st.lastFailedLogin[email := now]),
                             LoginFailure, email, ip, FailureDetails(attempts[email]), now);
        if attempts[email] >= MaxLoginAttempts then Logged(failed, AccountLocked, email, ip, LockedDetails(), now)
        else failed;
    logged.(ipAccessCount := Bump(logged.ipAccessCount, ip))
  }

  /** A login attempt touches no other email and no other IP. */
  lemma LoginRecordedFrame(st: SecurityLog, email: string, ip: string, success: bool, now: int)
    ensures var r := LoginRecorded(st, email, ip, success, now);
      && (forall a :: a != ip ==> GetOrZero(r.ipAccessCount, a) == GetOrZero(st.ipAccessCount, a))
      && (forall e :: e != email ==>
            && GetOrZero(r.loginAttempts, e) == GetOrZero(st.loginAttempts, e)
            && (e in r.lastFailedLogin <==> e in st.lastFailedLogin)
            && (e in r.lastFailedLogin ==> r.lastFailedLogin[e] == st.lastFailedLogin[e]))
  {
  }

  /** The log after an attempt is the old log with each of the attempt's
      events logged in turn. */
  lemma LoginRecordedLog(st: SecurityLog, email: string, ip: string, success: bool, now: int)
    ensures var es := LoginEvents(email, ip, success, NextAttempt(st, email), now);
      var once := AppendDropOldest(st.securityEvents, es[0], MaxSecurityEvents);
      LoginRecorded(st, email, ip, success, now).securityEvents ==
        if |es| == 1 then once else AppendDropOldest(once, es[1], MaxSecurityEvents)
  {
    if !success {
      assert Bump(st.loginAttempts, email)[email] == NextAttempt(st, email);
    }
  }

  /** The log ends with the events of the attempt, the failure before the
      lockout, and keeps as many of the earlier events as the cap leaves
      room for. */
  lemma LoginRecordedEvents(st: SecurityLog, email: string, ip: string, success: bool, now: int)
    requires |st.securityEvents| <= MaxSecurityEvents
    ensures EndsWith(LoginRecorded(st, email, ip, success, now).securityEvents,
                     LoginEvents(email, ip, success, NextAttempt(st, email), now))
    ensures LoginRecorded(st, email, ip, success, now).securityEvents ==
      LastN(st.securityEvents + LoginEvents(email, ip, success, NextAttempt(st, email), now), MaxSecurityEvents)
  {
    var r := LoginRecorded(st, email, ip, success, now).securityEvents;
    var es := LoginEvents(email, ip, success, NextAttempt(st, email), now);
    var log := st.securityEvents;
    assert r == LastN(log + es, MaxSecurityEvents) by {
      LoginRecordedLog(st, email, ip, success, now);
      if |es| == 2 {
        AppendDropOldestTwice(log, es[0], es[1], MaxSecurityEvents);
        assert es == [es[0], es[1]];
      } else {
        AppendDropOldestIsLastN(log, es[0], MaxSecurityEvents);
        assert es == [es[0]];
      }
    }
    LastNEndsWith(log, es, MaxSecurityEvents);
  }

  /** `String.format("Admin action '%s' performed on user: %s", …)`. */
  function AdminActionDetails(action: string, targetUser: string): string {
    "Admin action '" + action + "' performed on user: " + targetUser
  }

  /** `unlockAccount`: clears the email's counter and failure time and logs
      the admin action; afterwards the account is not locked at any time,
      and every other email keeps its counter and failure time. */
  function Unlocked(st: SecurityLog, email: string, adminEmail: string, ip: string, now: int): (r: SecurityLog)
    ensures forall t :: !IsAccountLocked(r, email, t)
    ensures forall e :: e != email ==>
      && GetOrZero(r.loginAttempts, e) == GetOrZero(st.loginAttempts, e)
      && (e in r.lastFailedLogin <==> e in st.lastFailedLogin)
      && (e in r.lastFailedLogin ==> r.lastFailedLogin[e] == st.lastFailedLogin[e])
    ensures r.ipAccessCount == st.ipAccessCount
    ensures r.securityEvents != [] &&
      r.securityEvents[|r.securityEvents| - 1] ==
        NewEvent(AdminAction, adminEmail, ip, AdminActionDetails("UNLOCK_ACCOUNT", email), now)
    ensures |st.securityEvents| <= MaxSecurityEvents ==>
      r.securityEvents == LastN(st.securityEvents + [NewEvent(AdminAction, adminEmail, ip, AdminActionDetails("UNLOCK_ACCOUNT", email), now)], MaxSecurityEvents)
    ensures ValidLog(st) ==> ValidLog(r)
  {
    var r := Logged(st.(loginAttempts := st.loginAttempts - {email}, lastFailedLogin := st.lastFailedLogin - {email}),
                    AdminAction, adminEmail, ip, AdminActionDetails("UNLOCK_ACCOUNT", email), now);
    if |st.securityEvents| <= MaxSecurityEvents then
      AppendDropOldestIsLastN(st.securityEvents, NewEvent(AdminAction, adminEmail, ip, AdminActionDetails("UNLOCK_ACCOUNT", email), now), MaxSecurityEvents);
      r
    else r
  }

  /** A run of failed logins of one email from one IP, at the given times. */
  function Failures(st: SecurityLog, email: string, ip: string, times: seq<int>): SecurityLog
    decreases |times|
  {
    if times == [] then st else Failures(LoginRecorded(st, email, ip, false, times[0]), email, ip, times[1..])
  }

  /** Every failure of the run is counted, and the failure time is that of
      the last one. */
  lemma {:induction false} FailuresAddUp(st: SecurityLog, email: string, ip: string, times: seq<int>)
    ensures GetOrZero(Failures(st, email, ip, times).loginAttempts, email) == GetOrZero(st.loginAttempts, email) + |times|
    ensures times != [] ==>
      && email in Failures(st, email, ip, times).lastFailedLogin
      && Failures(st, email, ip, times).lastFailedLogin[email] == times[|times| - 1]
    decreases |times|
  {
    if times != [] {
      var next := LoginRecorded(st, email, ip, false, times[0]);
      FailuresAddUp(next, email, ip, times[1..]);
    }
  }

  /** After a run of failed logins the account is locked exactly when the
      counter has reached five and the last failure is less than thirty
      minutes old: a fresh account is locked by its fifth failure, not its
      fourth, and the lock lapses by itself. */
  lemma LockoutAfterFailures(st: SecurityLog, email: string, ip: string, times: seq<int>, now: int)
    requires times != []
    ensures IsAccountLocked(Failures(st, email, ip, times), email, now) <==>
      GetOrZero(st.loginAttempts, email) + |times| >= MaxLoginAttempts && now < times[|times| - 1] + LockoutDurationMinutes
  {
    FailuresAddUp(st, email, ip, times);
  }

  /** A successful login ends a lockout at once. */
  lemma SuccessUnlocks(st: SecurityLog, email: string, ip: string, now: int, later: int)
    ensures !IsAccountLocked(LoginRecorded(st, email, ip, true, now), email, later)
  {
  }

  /** The emails the security summary counts as locked. */
  function LockedAccounts(st: SecurityLog): set<string> {
    set e | e in st.loginAttempts && st.loginAttempts[e] >= MaxLoginAttempts
  }

  /** The summary's `lockedAccounts`. */
  function LockedAccountCount(st: SecurityLog): nat {
    |LockedAccounts(st)|
  }

  /** Every locked account is counted, but the count ignores the lockout
      expiry: an account whose lockout has lapsed is still counted until a
      success or an unlock clears it. */
  lemma LockedAccountsIgnoreExpiry(st: SecurityLog, email: string, now: int)
    ensures IsAccountLocked(st, email, now) ==> email in LockedAccounts(st)
    ensures email in LockedAccounts(st) <==> GetOrZero(st.loginAttempts, email) >= MaxLoginAttempts
  {
  }

  /** An account five failures deep, last failing at minute 0, is no longer
      locked at minute 30 and is still counted. */
  lemma ExpiredLockoutStillCounted()
    ensures var st := SecurityLog(map["a@x.io" := 5], map["a@x.io" := 0], [], map[]);
      && !IsAccountLocked(st, "a@x.io", 30)
      && LockedAccountCount(st) == 1
  {
    var st := SecurityLog(map["a@x.io" := 5], map["a@x.io" := 0], [], map[]);
    assert LockedAccounts(st) == {"a@x.io"};
  }

  class SecurityAuditService {
    var loginAttempts: map<string, nat>
    var lastFailedLogin: map<string, int>
    var securityEvents: seq<SecurityEvent>
    var ipAccessCount: map<string, nat>

    function Model(): SecurityLog
      reads this
    {
      SecurityLog(loginAttempts, lastFailedLogin, securityEvents, ipAccessCount)
    }

    ghost predicate Valid()
      reads this
    {
      ValidLog(Model())
    }

    constructor ()
      ensures Valid()
      ensures Model() == SecurityLog(map[], map[], [], map[])
    {
      loginAttempts := map[];
      lastFailedLogin := map[];
      securityEvents := [];
      ipAccessCount := map[];
    }

    method LogSecurityEvent(eventType: SecurityEventType, userEmail: string, ipAddress: string, details: string, now: int)
      modifies this
      ensures Model() == Logged(old(Model()), eventType, userEmail, ipAddress, details, now)
      ensures old(Valid()) ==> Valid()
    {
      var severity := DetermineSeverity(eventType);
      securityEvents := securityEvents + [SecurityEvent(now, eventType, userEmail, ipAddress, details, severity)];
      if |securityEvents| > MaxSecurityEvents {
        securityEvents := securityEvents[1..];
      }
    }

    method RecordLoginAttempt(email: string, ipAddress: string, success: bool, now: int)
      modifies this
      ensures Model() == LoginRecorded(old(Model()), email, ipAddress, success, now)
      ensures old(Valid()) ==> Valid()
    {
      if success {
        loginAttempts := loginAttempts - {email};
        lastFailedLogin := lastFailedLogin - {email};
        LogSecurityEvent(LoginSuccess, email, ipAddress, "Successful login", now);
      } else {
        loginAttempts := Bump(loginAttempts, email);
        var currentAttempts := loginAttempts[email];
        lastFailedLogin := lastFailedLogin[email := now];
        LogSecurityEvent(LoginFailure, email, ipAddress, FailureDetails(currentAttempts), now);
        if currentAttempts >= MaxLoginAttempts {
          LogSecurityEvent(AccountLocked, email, ipAddress, LockedDetails(), now);
        }
      }
      ipAccessCount := Bump(ipAccessCount, ipAddress);
    }

    method RecordPasswordChange(email: string, ipAddress: string, now: int)
      modifies this
      ensures Model() == Logged(old(Model()), PasswordChanged, email, ipAddress, "Password changed successfully", now)
    {
      LogSecurityEvent(PasswordChanged, email, ipAddress, "Password changed successfully", now);
    }

    method RecordAccountCreation(email: string, ipAddress: string, now: int)
      modifies this
      ensures Model() == Logged(old(Model()), AccountCreated, email, ipAddress, "New account created", now)
    {
      LogSecurityEvent(AccountCreated, email, ipAddress, "New account created", now);
    }

    method RecordUnauthorizedAccess(email: string, ipAddress: string, resource: string, now: int)
      modifies this
      ensures Model() == Logged(old(Model()), UnauthorizedAccessAttempt, email, ipAddress,
                                "Attempted to access unauthorized resource: " + resource, now)
    {
      LogSecurityEvent(UnauthorizedAccessAttempt, email, ipAddress, "Attempted to access unauthorized resource: " + resource, now);
    }

    method RecordDataExport(email: string, ipAddress: string, dataType: string, now: int)
      modifies this
      ensures Model() == Logged(old(Model()), DataExport, email, ipAddress, "Data export performed: " + dataType, now)
    {
      LogSecurityEvent(DataExport, email, ipAddress, "Data export performed: " + dataType, now);
    }

    method RecordAdminAction(adminEmail: string, ipAddress: string, action: string, targetUser: string, now: int)
      modifies this
      ensures Model() == Logged(old(Model()), AdminAction, adminEmail, ipAddress, AdminActionDetails(action, targetUser), now)
    {
      LogSecurityEvent(AdminAction, adminEmail, ipAddress, AdminActionDetails(action, targetUser), now);
    }

    method UnlockAccount(email: string, adminEmail: string, ipAddress: string, now: int)
      modifies this
      ensures Model() == Unlocked(old(Model()), email, adminEmail, ipAddress, now)
      ensures forall t :: !IsAccountLocked(Model(), email, t)
      ensures old(Valid()) ==> Valid()
    {
      loginAttempts := loginAttempts - {email};
      lastFailedLogin := lastFailedLogin - {email};
      RecordAdminAction(adminEmail, ipAddress, "UNLOCK_ACCOUNT", email, now);
    }
  }
}
