/** InterviewSchedulingService: interviews are indexed twice, by application
    id and by interviewer email, and both lists hold the same objects. The
    model keeps one store from interview id to interview plus two indexes of
    ids, and a counter that hands out ids. Times are integer minutes. */
module Interviews {
  import opened Streams

  type InterviewId = int
  type AppId = int
  type Email = string

  datatype InterviewType = PhoneScreening | TechnicalInterview | HrInterview | PanelInterview | FinalInterview

  datatype InterviewStatus = Scheduled | Confirmed | InProgress | Completed | Cancelled | Rescheduled | NoShow

  const AllStatuses: seq<InterviewStatus> := [Scheduled, Confirmed, InProgress, Completed, Cancelled, Rescheduled, NoShow]
  const AllTypes: seq<InterviewType> := [PhoneScreening, TechnicalInterview, HrInterview, PanelInterview, FinalInterview]

  /** The lines appended to an interview's notes; their text is formatting. */
  datatype Note = RescheduledFrom(oldTime: int, reason: string) | CancelledBecause(reason: string)

  /** An interview; `id`, `applicationId` and `interviewType` never change. */
  datatype Interview = Interview(
    id: InterviewId,
    applicationId: AppId,
    interviewType: InterviewType,
    scheduledTime: int,
    endTime: int,
    interviewerEmail: Email,
    interviewerName: string,
    location: Option<string>,
    meetingLink: Option<string>,
    status: InterviewStatus,
    notes: seq<Note>,
    score: Option<int>,
    feedback: Option<string>)

  /** A new interview as the constructor makes it: SCHEDULED, no notes. */
  function NewInterview(id: InterviewId, applicationId: AppId, interviewType: InterviewType, start: int, end: int,
                        email: Email, name: string, location: Option<string>, meetingLink: Option<string>): Interview
  {
    Interview(id, applicationId, interviewType, start, end, email, name, location, meetingLink, Scheduled, [], None, None)
  }

  // ---------------------------------------------------------------------
  // The conflict test

  /** Closed-interval intersection of [start, end] with the interview's
      times: intervals that only touch at an endpoint overlap. */
  predicate Overlaps(start: int, end: int, i: Interview) {
    !(end < i.scheduledTime || start > i.endTime)
  }

  /** The interview stands in the way of [start, end]: it is not the
      excluded one, not cancelled, and overlaps. */
  predicate Blocks(i: Interview, start: int, end: int, exclude: Option<InterviewId>) {
    (exclude.None? || i.id != exclude.value) && i.status != Cancelled && Overlaps(start, end, i)
  }

  /** Overlap is symmetric: the test reads the same from either side. */
  lemma OverlapsIsSymmetric(a: Interview, b: Interview)
    ensures Overlaps(a.scheduledTime, a.endTime, b) <==> Overlaps(b.scheduledTime, b.endTime, a)
  {
  }

  // ---------------------------------------------------------------------
  // The store

  datatype Schedule = Schedule(
    interviews: map<InterviewId, Interview>,
    byApplication: map<AppId, seq<InterviewId>>,
    byInterviewer: map<Email, seq<InterviewId>>,
    nextId: int)

  function ApplicationIds(st: Schedule, applicationId: AppId): seq<InterviewId> {
    if applicationId in st.byApplication then st.byApplication[applicationId] else []
  }

  function InterviewerIds(st: Schedule, email: Email): seq<InterviewId> {
    if email in st.byInterviewer then st.byInterviewer[email] else []
  }

  /** Ids are below the counter and match their records. */
  ghost predicate IdsMatch(st: Schedule) {
    st.nextId >= 1 && forall id :: id in st.interviews ==> 1 <= id < st.nextId && st.interviews[id].id == id
  }

  /** Every interview is listed under its application and its interviewer. */
  ghost predicate EveryInterviewListed(st: Schedule) {
    forall id :: id in st.interviews ==>
      id in ApplicationIds(st, st.interviews[id].applicationId) && id in InterviewerIds(st, st.interviews[id].interviewerEmail)
  }

  /** Every id listed under an application is an interview of it. */
  ghost predicate ApplicationIndexSound(st: Schedule) {
    forall a, id :: a in st.byApplication && id in st.byApplication[a] ==>
      id in st.interviews && st.interviews[id].applicationId == a
  }

  /** Every id listed under an interviewer is an interview of theirs. */
  ghost predicate InterviewerIndexSound(st: Schedule) {
    forall e, id :: e in st.byInterviewer && id in st.byInterviewer[e] ==>
      id in st.interviews && st.interviews[id].interviewerEmail == e
  }

  /** An application's list holds each interview once. */
  ghost predicate ApplicationListsDistinct(st: Schedule) {
    forall a, i, j :: a in st.byApplication && 0 <= i < j < |st.byApplication[a]| ==>
      st.byApplication[a][i] != st.byApplication[a][j]
  }

  /** The index invariant of the store. */
  ghost predicate ValidSchedule(st: Schedule) {
    && IdsMatch(st)
    && EveryInterviewListed(st)
    && ApplicationIndexSound(st)
    && InterviewerIndexSound(st)
    && ApplicationListsDistinct(st)
  }

  /** `b` differs from `a` only in the mutable fields of its interviews. */
  ghost predicate SameShape(a: Schedule, b: Schedule) {
    && a.interviews.Keys == b.interviews.Keys
    && a.byApplication == b.byApplication && a.byInterviewer == b.byInterviewer && a.nextId == b.nextId
    && forall id :: id in a.interviews ==>
         && b.interviews[id].id == a.interviews[id].id
         && b.interviews[id].applicationId == a.interviews[id].applicationId
         && b.interviews[id].interviewerEmail == a.interviews[id].interviewerEmail
  }

  lemma SameShapeKeepsValidity(a: Schedule, b: Schedule)
    requires SameShape(a, b) && ValidSchedule(a)
    ensures ValidSchedule(b)
  {
  }

  /** No interviewer has two live interviews whose times meet. */
  ghost predicate NoDoubleBooking(st: Schedule) {
    forall a, b :: a in st.interviews && b in st.interviews && a != b
      && st.interviews[a].interviewerEmail == st.interviews[b].interviewerEmail
      && st.interviews[a].status != Cancelled && st.interviews[b].status != Cancelled
      ==> !Overlaps(st.interviews[a].scheduledTime, st.interviews[a].endTime, st.interviews[b])
  }

  /** `hasSchedulingConflict`, over the interviewer's list. */
  predicate HasConflict(st: Schedule, email: Email, start: int, end: int, exclude: Option<InterviewId>) {
    exists id :: id in InterviewerIds(st, email) && id in st.interviews && Blocks(st.interviews[id], start, end, exclude)
  }

  /** The interviews behind a list of ids, in list order. */
  function Resolve(m: map<InterviewId, Interview>, ids: seq<InterviewId>): (r: seq<Interview>)
    ensures |r| <= |ids|
    ensures (forall k :: 0 <= k < |ids| ==> ids[k] in m) ==>
      |r| == |ids| && forall k :: 0 <= k < |ids| ==> r[k] == m[ids[k]]
  {
    if ids == [] then []
    else (if ids[0] in m then [m[ids[0]]] else []) + Resolve(m, ids[1..])
  }

  lemma {:induction false} ResolveMembership(m: map<InterviewId, Interview>, ids: seq<InterviewId>, i: Interview)
    ensures i in Resolve(m, ids) <==> exists id :: id in ids && id in m && m[id] == i
  {
    if ids != [] {
      ResolveMembership(m, ids[1..], i);
      assert forall id :: id in ids <==> id == ids[0] || id in ids[1..];
    }
  }

  /** `getInterviewsForApplication`. */
  function InterviewsForApplication(st: Schedule, applicationId: AppId): seq<Interview> {
    Resolve(st.interviews, ApplicationIds(st, applicationId))
  }

  /** `getInterviewsForInterviewer`. */
  function InterviewsForInterviewer(st: Schedule, email: Email): seq<Interview> {
    Resolve(st.interviews, InterviewerIds(st, email))
  }

  /** `findInterviewById`; None is Java's null. */
  function FindInterviewById(st: Schedule, id: InterviewId): (r: Option<Interview>)
    ensures r.Some? <==> id in st.interviews
    ensures ValidSchedule(st) && r.Some? ==> r.value.id == id
  {
    if id in st.interviews then Some(st.interviews[id]) else None
  }

  /** Ids are handed out in order: the next one is above every id in use. */
  lemma NextIdIsFresh(st: Schedule)
    requires ValidSchedule(st)
    ensures st.nextId !in st.interviews
    ensures forall id :: id in st.interviews ==> id < st.nextId
  {
  }

  /** An index list with one more id at the end of `key`'s list
      (`computeIfAbsent(key, ...).add(id)`). */
  function AppendId<K>(index: map<K, seq<InterviewId>>, key: K, id: InterviewId): (r: map<K, seq<InterviewId>>)
    ensures r.Keys == index.Keys + {key}
    ensures r[key] == (if key in index then index[key] else []) + [id]
    ensures forall k :: k in index && k != key ==> r[k] == index[k]
  {
    index[key := (if key in index then index[key] else []) + [id]]
  }

  // ---------------------------------------------------------------------
  // The operations

  /** `scheduleInterview` succeeds when the application and the
      interviewer exist and the interviewer is free. */
  predicate CanSchedule(st: Schedule, applications: set<AppId>, users: set<Email>,
                        applicationId: AppId, email: Email, start: int, end: int) {
    applicationId in applications && email in users && !HasConflict(st, email, start, end, None)
  }

  /** The successful `scheduleInterview`: the counter's id is used, the
      interview is stored and its id appended to both lists. */
  function AfterSchedule(st: Schedule, i: Interview): Schedule {
    Schedule(st.interviews[i.id := i],
             AppendId(st.byApplication, i.applicationId, i.id),
             AppendId(st.byInterviewer, i.interviewerEmail, i.id),
             st.nextId + 1)
  }

  lemma ScheduleKeepsValid(st: Schedule, i: Interview)
    requires ValidSchedule(st) && i.id == st.nextId
    ensures ValidSchedule(AfterSchedule(st, i))
  {
    var r := AfterSchedule(st, i);
    assert st.nextId !in st.interviews;
    forall a, x, y | a in r.byApplication && 0 <= x < y < |r.byApplication[a]|
      ensures r.byApplication[a][x] != r.byApplication[a][y]
    {
      if a == i.applicationId && y == |r.byApplication[a]| - 1 {
        assert r.byApplication[a][x] in ApplicationIds(st, a);
      }
    }
    forall a, id | a in r.byApplication && id in r.byApplication[a]
      ensures id in r.interviews && r.interviews[id].applicationId == a
    {
      if a == i.applicationId && id != i.id {
        assert id in ApplicationIds(st, a);
      }
    }
    forall e, id | e in r.byInterviewer && id in r.byInterviewer[e]
      ensures id in r.interviews && r.interviews[id].interviewerEmail == e
    {
      if e == i.interviewerEmail && id != i.id {
        assert id in InterviewerIds(st, e);
      }
    }
  }

  /** Scheduling an interview only when its interviewer is free keeps every
      interviewer free of double bookings. */
  lemma ScheduleKeepsNoDoubleBooking(st: Schedule, i: Interview)
    requires ValidSchedule(st) && i.id == st.nextId && NoDoubleBooking(st)
    requires !HasConflict(st, i.interviewerEmail, i.scheduledTime, i.endTime, None)
    ensures NoDoubleBooking(AfterSchedule(st, i))
  {
    var r := AfterSchedule(st, i);
    assert st.nextId !in st.interviews;
    forall a, b | a in r.interviews && b in r.interviews && a != b
      && r.interviews[a].interviewerEmail == r.interviews[b].interviewerEmail
      && r.interviews[a].status != Cancelled && r.interviews[b].status != Cancelled
      ensures !Overlaps(r.interviews[a].scheduledTime, r.interviews[a].endTime, r.interviews[b])
    {
      if a == i.id {
        assert b in InterviewerIds(st, i.interviewerEmail) && !Blocks(st.interviews[b], i.scheduledTime, i.endTime, None);
      } else if b == i.id {
        assert a in InterviewerIds(st, i.interviewerEmail) && !Blocks(st.interviews[a], i.scheduledTime, i.endTime, None);
      }
    }
  }

  /** `rescheduleInterview` succeeds when the interview exists and its
      interviewer is free at the new times, the interview itself aside. */
  predicate CanReschedule(st: Schedule, id: InterviewId, start: int, end: int) {
    id in st.interviews && !HasConflict(st, st.interviews[id].interviewerEmail, start, end, Some(id))
  }

  /** The successful `rescheduleInterview`: new times, RESCHEDULED, one
      note; the interview keeps its id, application, type and interviewer. */
  function AfterReschedule(st: Schedule, id: InterviewId, start: int, end: int, reason: string): (r: Schedule)
    requires id in st.interviews
    ensures SameShape(st, r)
    ensures var old_i := st.interviews[id];
      r.interviews[id] == old_i.(scheduledTime := start, endTime := end, status := Rescheduled,
                                 notes := old_i.notes + [RescheduledFrom(old_i.scheduledTime, reason)])
    ensures forall other :: other in st.interviews && other != id ==> r.interviews[other] == st.interviews[other]
  {
    var i := st.interviews[id];
    st.(interviews := st.interviews[id := i.(scheduledTime := start, endTime := end, status := Rescheduled,
                                             notes := i.notes + [RescheduledFrom(i.scheduledTime, reason)])])
  }

  /** Rescheduling only to times at which the interviewer is free, apart
      from the interview itself, keeps every interviewer free of double
      bookings. */
  lemma RescheduleKeepsNoDoubleBooking(st: Schedule, id: InterviewId, start: int, end: int, reason: string)
    requires ValidSchedule(st) && CanReschedule(st, id, start, end) && NoDoubleBooking(st)
    ensures NoDoubleBooking(AfterReschedule(st, id, start, end, reason))
  {
    var r := AfterReschedule(st, id, start, end, reason);
    var email := st.interviews[id].interviewerEmail;
    forall a, b | a in r.interviews && b in r.interviews && a != b
      && r.interviews[a].interviewerEmail == r.interviews[b].interviewerEmail
      && r.interviews[a].status != Cancelled && r.interviews[b].status != Cancelled
      ensures !Overlaps(r.interviews[a].scheduledTime, r.interviews[a].endTime, r.interviews[b])
    {
      if a == id {
        assert b in InterviewerIds(st, email) && !Blocks(st.interviews[b], start, end, Some(id));
      } else if b == id {
        assert a in InterviewerIds(st, email) && !Blocks(st.interviews[a], start, end, Some(id));
      }
    }
  }

  /** `cancelInterview` on a known id: CANCELLED and one note. */
  function AfterCancel(st: Schedule, id: InterviewId, reason: string): (r: Schedule)
    requires id in st.interviews
    ensures SameShape(st, r)
    ensures r.interviews[id] == st.interviews[id].(status := Cancelled, notes := st.interviews[id].notes + [CancelledBecause(reason)])
    ensures forall other :: other in st.interviews && other != id ==> r.interviews[other] == st.interviews[other]
  {
    var i := st.interviews[id];
    st.(interviews := st.interviews[id := i.(status := Cancelled, notes := i.notes + [CancelledBecause(reason)])])
  }

  /** Cancelling frees the interviewer: no double booking can appear. */
  lemma CancelKeepsNoDoubleBooking(st: Schedule, id: InterviewId, reason: string)
    requires id in st.interviews && NoDoubleBooking(st)
    ensures NoDoubleBooking(AfterCancel(st, id, reason))
  {
  }

  /** `completeInterview` on a known id: COMPLETED with score and feedback,
      whatever the status was. */
  function AfterComplete(st: Schedule, id: InterviewId, score: Option<int>, feedback: Option<string>): (r: Schedule)
    requires id in st.interviews
    ensures SameShape(st, r)
    ensures r.interviews[id] == st.interviews[id].(status := Completed, score := score, feedback := feedback)
    ensures forall other :: other in st.interviews && other != id ==> r.interviews[other] == st.interviews[other]
  {
    st.(interviews := st.interviews[id := st.interviews[id].(status := Completed, score := score, feedback := feedback)])
  }

  /** Completing a cancelled interview brings it back into the conflict
      test, so two live interviews of one interviewer can then overlap. */
  lemma CompletingACancelledInterviewCanDoubleBook()
    ensures var a := NewInterview(1, 10, PhoneScreening, 600, 660, "ann@example.com", "Ann", None, None).(status := Cancelled);
      var b := NewInterview(2, 11, PhoneScreening, 630, 690, "ann@example.com", "Ann", None, None);
      var st := Schedule(map[1 := a, 2 := b], map[10 := [1], 11 := [2]], map["ann@example.com" := [1, 2]], 3);
      && ValidSchedule(st) && NoDoubleBooking(st)
      && !NoDoubleBooking(AfterComplete(st, 1, Some(80), None))
  {
    var a := NewInterview(1, 10, PhoneScreening, 600, 660, "ann@example.com", "Ann", None, None).(status := Cancelled);
    var b := NewInterview(2, 11, PhoneScreening, 630, 690, "ann@example.com", "Ann", None, None);
    var st := Schedule(map[1 := a, 2 := b], map[10 := [1], 11 := [2]], map["ann@example.com" := [1, 2]], 3);
    var r := AfterComplete(st, 1, Some(80), None);
    assert r.interviews[1].status == Completed && r.interviews[2] == b;
    assert Overlaps(r.interviews[1].scheduledTime, r.interviews[1].endTime, r.interviews[2]);
  }

  // ---------------------------------------------------------------------
  // Queries

  predicate IsUpcoming(i: Interview, now: int) {
    i.scheduledTime > now && (i.status == Scheduled || i.status == Confirmed)
  }

  /** `getUpcomingInterviews`: the interviewer's interviews that start
      strictly after `now` and are SCHEDULED or CONFIRMED, earliest first. */
  function UpcomingInterviews(st: Schedule, email: Email, now: int): seq<Interview> {
    var mine := InterviewsForInterviewer(st, email);
    SortBy(Filter(Filter(mine, (i: Interview) => i.scheduledTime > now),
                  (i: Interview) => i.status == Scheduled || i.status == Confirmed),
           (i: Interview) => i.scheduledTime)
  }

  /** The upcoming list is sorted by start and holds exactly the
      interviewer's upcoming interviews. */
  lemma UpcomingInterviewsAreExactlyTheUpcomingOnes(st: Schedule, email: Email, now: int, i: Interview)
    ensures SortedBy(UpcomingInterviews(st, email, now), (i: Interview) => i.scheduledTime)
    ensures i in UpcomingInterviews(st, email, now) <==> i in InterviewsForInterviewer(st, email) && IsUpcoming(i, now)
    ensures multiset(UpcomingInterviews(st, email, now))[i] ==
      if IsUpcoming(i, now) then multiset(InterviewsForInterviewer(st, email))[i] else 0
  {
    var mine := InterviewsForInterviewer(st, email);
    var later := Filter(mine, (i: Interview) => i.scheduledTime > now);
    var live := Filter(later, (i: Interview) => i.status == Scheduled || i.status == Confirmed);
    FilterMembership(mine, (i: Interview) => i.scheduledTime > now, i);
    FilterMembership(later, (i: Interview) => i.status == Scheduled || i.status == Confirmed, i);
    var sorted := SortBy(live, (i: Interview) => i.scheduledTime);
    assert i in sorted <==> i in multiset(sorted);
    assert i in live <==> i in multiset(live);
    FilterMultiset(mine, (i: Interview) => i.scheduledTime > now, i);
    FilterMultiset(later, (i: Interview) => i.status == Scheduled || i.status == Confirmed, i);
  }

  /** The interviewer is free for `duration` minutes from `start`. */
  predicate IsFree(st: Schedule, email: Email, start: int, duration: int) {
    !HasConflict(st, email, start, start + duration, None)
  }

  /** A slot as `findAvailableSlots` builds it: id 0, application 0,
      TECHNICAL_INTERVIEW, empty interviewer name. */
  function Slot(email: Email, start: int, duration: int): Interview {
    NewInterview(0, 0, TechnicalInterview, start, start + duration, email, "", None, None)
  }

  /** Interviews per status and per type, as maps from id. */
  function StatusOf(st: Schedule): map<InterviewId, InterviewStatus> {
    map id | id in st.interviews :: st.interviews[id].status
  }

  function TypeOf(st: Schedule): map<InterviewId, InterviewType> {
    map id | id in st.interviews :: st.interviews[id].interviewType
  }

  datatype InterviewStatistics = InterviewStatistics(
    totalInterviews: nat,
    statusBreakdown: map<InterviewStatus, nat>,
    typeBreakdown: map<InterviewType, nat>,
    activeInterviewers: nat)

  /** The status counts and the type counts each add up to the total. */
  lemma BreakdownsAddUpToTotal(st: Schedule)
    ensures SumCounts(StatusOf(st), AllStatuses) == |st.interviews|
    ensures SumCounts(TypeOf(st), AllTypes) == |st.interviews|
  {
    forall id | id in StatusOf(st) ensures StatusOf(st)[id] in AllStatuses {
      match StatusOf(st)[id]
      case Scheduled => assert AllStatuses[0] == Scheduled;
      case Confirmed => assert AllStatuses[1] == Confirmed;
      case InProgress => assert AllStatuses[2] == InProgress;
      case Completed => assert AllStatuses[3] == Completed;
      case Cancelled => assert AllStatuses[4] == Cancelled;
      case Rescheduled => assert AllStatuses[5] == Rescheduled;
      case NoShow => assert AllStatuses[6] == NoShow;
    }
    forall id | id in TypeOf(st) ensures TypeOf(st)[id] in AllTypes {
      match TypeOf(st)[id]
      case PhoneScreening => assert AllTypes[0] == PhoneScreening;
      case TechnicalInterview => assert AllTypes[1] == TechnicalInterview;
      case HrInterview => assert AllTypes[2] == HrInterview;
      case PanelInterview => assert AllTypes[3] == PanelInterview;
      case FinalInterview => assert AllTypes[4] == FinalInterview;
    }
    CountsCoverMap(StatusOf(st), AllStatuses);
    CountsCoverMap(TypeOf(st), AllTypes);
    assert |StatusOf(st)| == |st.interviews| by { assert StatusOf(st).Keys == st.interviews.Keys; }
    assert |TypeOf(st)| == |st.interviews| by { assert TypeOf(st).Keys == st.interviews.Keys; }
  }

  // ---------------------------------------------------------------------
  // The service object

  class InterviewSchedulingService {
    var interviews: map<InterviewId, Interview>
    var applicationInterviews: map<AppId, seq<InterviewId>>
    var interviewerSchedules: map<Email, seq<InterviewId>>
    var interviewIdCounter: int

    function Model(): Schedule
      reads this
    {
      Schedule(interviews, applicationInterviews, interviewerSchedules, interviewIdCounter)
    }

    ghost predicate Valid()
      reads this
    {
      ValidSchedule(Model())
    }

    constructor ()
      ensures Valid() && NoDoubleBooking(Model())
      ensures interviews == map[] && applicationInterviews == map[] && interviewerSchedules == map[]
      ensures interviewIdCounter == 1
    {
      interviews := map[];
      applicationInterviews := map[];
      interviewerSchedules := map[];
      interviewIdCounter := 1;
    }

    /** `generateInterviewId`: 1, 2, 3, ... */
    method GenerateInterviewId() returns (id: InterviewId)
      modifies this
      ensures id == old(interviewIdCounter) && interviewIdCounter == id + 1
      ensures interviews == old(interviews) && applicationInterviews == old(applicationInterviews)
      ensures interviewerSchedules == old(interviewerSchedules)
    {
      id := interviewIdCounter;
      interviewIdCounter := interviewIdCounter + 1;
    }

    /** `scheduleInterview`: a missing application or interviewer, or a
      conflict, fails before an id is drawn and changes nothing. */
    method ScheduleInterview(applications: set<AppId>, users: set<Email>, applicationId: AppId,
                             interviewType: InterviewType, start: int, end: int, email: Email, name: string,
                             location: Option<string>, meetingLink: Option<string>) returns (r: Result<Interview>)
      requires Valid()
      modifies this
      ensures Valid()
      ensures old(NoDoubleBooking(Model())) ==> NoDoubleBooking(Model())
      ensures r.Ok? <==> CanSchedule(old(Model()), applications, users, applicationId, email, start, end)
      ensures r.Ok? ==>
        && r.value == NewInterview(old(interviewIdCounter), applicationId, interviewType, start, end, email, name, location, meetingLink)
        && r.value.id !in old(interviews)
        && Model() == AfterSchedule(old(Model()), r.value)
      ensures r.BusinessRuleFailure? ==> Model() == old(Model())
    {
      if applicationId !in applications || email !in users {
        return BusinessRuleFailure;
      }
      if HasConflict(Model(), email, start, end, None) {
        return BusinessRuleFailure;
      }
      ghost var before := Model();
      NextIdIsFresh(before);
      var interviewId := GenerateInterviewId();
      var interview := NewInterview(interviewId, applicationId, interviewType, start, end, email, name, location, meetingLink);
      interviews := interviews[interviewId := interview];
      applicationInterviews := AppendId(applicationInterviews, applicationId, interviewId);
      interviewerSchedules := AppendId(interviewerSchedules, email, interviewId);
      assert Model() == AfterSchedule(before, interview);
      assert Valid() by { ScheduleKeepsValid(before, interview); }
      assert NoDoubleBooking(before) ==> NoDoubleBooking(Model()) by {
        if NoDoubleBooking(before) {
          ScheduleKeepsNoDoubleBooking(before, interview);
        }
      }
      r := Ok(interview);
    }

    /** `rescheduleInterview`: an unknown id or a conflict fails and changes
      nothing; otherwise only the times, the status and the notes change. */
    method RescheduleInterview(id: InterviewId, start: int, end: int, reason: string) returns (r: Result<Interview>)
      requires Valid()
      modifies this
      ensures Valid()
      ensures old(NoDoubleBooking(Model())) ==> NoDoubleBooking(Model())
      ensures r.Ok? <==> CanReschedule(old(Model()), id, start, end)
      ensures r.Ok? ==> Model() == AfterReschedule(old(Model()), id, start, end, reason) && r.value == interviews[id]
      ensures r.BusinessRuleFailure? ==> Model() == old(Model())
    {
      var found := FindInterviewById(Model(), id);
      if found.None? {
        return BusinessRuleFailure;
      }
      var interview := found.value;
      if HasConflict(Model(), interview.interviewerEmail, start, end, Some(id)) {
        return BusinessRuleFailure;
      }
      ghost var before := Model();
      var updated := interview.(scheduledTime := start, endTime := end, status := Rescheduled,
                                notes := interview.notes + [RescheduledFrom(interview.scheduledTime, reason)]);
      interviews := interviews[id := updated];
      assert Model() == AfterReschedule(before, id, start, end, reason);
      SameShapeKeepsValidity(before, Model());
      if NoDoubleBooking(before) {
        RescheduleKeepsNoDoubleBooking(before, id, start, end, reason);
      }
      r := Ok(updated);
    }

    /** `cancelInterview`: fails on an unknown id. */
    method CancelInterview(id: InterviewId, reason: string) returns (r: Result<()>)
      requires Valid()
      modifies this
      ensures Valid()
      ensures old(NoDoubleBooking(Model())) ==> NoDoubleBooking(Model())
      ensures r.Ok? <==> id in old(interviews)
      ensures r.Ok? ==> Model() == AfterCancel(old(Model()), id, reason)
      ensures r.BusinessRuleFailure? ==> Model() == old(Model())
    {
      var found := FindInterviewById(Model(), id);
      if found.None? {
        return BusinessRuleFailure;
      }
      ghost var before := Model();
      var interview := found.value;
      interviews := interviews[id := interview.(status := Cancelled, notes := interview.notes + [CancelledBecause(reason)])];
      assert Model() == AfterCancel(before, id, reason);
      SameShapeKeepsValidity(before, Model());
      if NoDoubleBooking(before) {
        CancelKeepsNoDoubleBooking(before, id, reason);
      }
      r := Ok(());
    }

    /** `completeInterview`: fails on an unknown id; the score only drives
      logging. */
    method CompleteInterview(id: InterviewId, score: Option<int>, feedback: Option<string>) returns (r: Result<()>)
      requires Valid()
      modifies this
      ensures Valid()
      ensures r.Ok? <==> id in old(interviews)
      ensures r.Ok? ==> Model() == AfterComplete(old(Model()), id, score, feedback)
      ensures r.BusinessRuleFailure? ==> Model() == old(Model())
    {
      var found := FindInterviewById(Model(), id);
      if found.None? {
        return BusinessRuleFailure;
      }
      ghost var before := Model();
      interviews := interviews[id := found.value.(status := Completed, score := score, feedback := feedback)];
      assert Model() == AfterComplete(before, id, score, feedback);
      SameShapeKeepsValidity(before, Model());
      r := Ok(());
    }

    /** `findAvailableSlots`: every start `startDate + 30k` before `endDate`
      at which the interviewer is free for `duration` minutes becomes a
      slot, in ascending order, and no other start does. */
    method FindAvailableSlots(email: Email, startDate: int, endDate: int, duration: int) returns (slots: seq<Interview>)
      ensures forall k :: 0 <= k < |slots| ==>
        && slots[k] == Slot(email, slots[k].scheduledTime, duration)
        && startDate <= slots[k].scheduledTime < endDate
        && (slots[k].scheduledTime - startDate) % 30 == 0
        && IsFree(Model(), email, slots[k].scheduledTime, duration)
      ensures forall i, j :: 0 <= i < j < |slots| ==> slots[i].scheduledTime < slots[j].scheduledTime
      ensures forall n: nat :: startDate + 30 * n < endDate && IsFree(Model(), email, startDate + 30 * n, duration) ==>
        Slot(email, startDate + 30 * n, duration) in slots
    {
      slots := [];
      var slot := startDate;
      ghost var steps: nat := 0;
      while slot < endDate
        invariant slot == startDate + 30 * steps
        invariant forall k :: 0 <= k < |slots| ==>
          && slots[k] == Slot(email, slots[k].scheduledTime, duration)
          && startDate <= slots[k].scheduledTime < slot && slots[k].scheduledTime < endDate
          && (slots[k].scheduledTime - startDate) % 30 == 0
          && IsFree(Model(), email, slots[k].scheduledTime, duration)
        invariant forall i, j :: 0 <= i < j < |slots| ==> slots[i].scheduledTime < slots[j].scheduledTime
        invariant forall n: nat :: n < steps && IsFree(Model(), email, startDate + 30 * n, duration) ==>
          Slot(email, startDate + 30 * n, duration) in slots
        decreases endDate - slot
      {
        if IsFree(Model(), email, slot, duration) {
          slots := slots + [Slot(email, slot, duration)];
        }
        slot := slot + 30;
        steps := steps + 1;
      }
      forall n: nat | startDate + 30 * n < endDate
        ensures n < steps
      {
      }
    }

    /** `getInterviewStatistics`: one pass over all interviews, counting by
      status and by type; only statuses and types that occur get a key. */
    method GetInterviewStatistics() returns (stats: InterviewStatistics)
      ensures stats.totalInterviews == |interviews|
      ensures Tallies(stats.statusBreakdown, StatusOf(Model()))
      ensures Tallies(stats.typeBreakdown, TypeOf(Model()))
      ensures stats.activeInterviewers == |interviewerSchedules|
    {
      var total: nat := 0;
      var statusCounts: map<InterviewStatus, nat> := map[];
      var typeCounts: map<InterviewType, nat> := map[];
      var remaining := interviews.Keys;
      ghost var statuses := StatusOf(Model());
      ghost var types := TypeOf(Model());
      ghost var done: set<InterviewId> := {};
      TallyStart<InterviewId, InterviewStatus>(statuses);
      TallyStart<InterviewId, InterviewType>(types);
      while remaining != {}
        invariant remaining <= interviews.Keys && done == interviews.Keys - remaining
        invariant total == |done|
        invariant Tallies(statusCounts, Restrict(statuses, done))
        invariant Tallies(typeCounts, Restrict(types, done))
        decreases remaining
      {
        ghost var someId := SomeElement(remaining);
        var id :| id in remaining;
        var interview := interviews[id];
        assert statuses[id] == interview.status && types[id] == interview.interviewType;
        TallyStep(statusCounts, statuses, done, id);
        TallyStep(typeCounts, types, done, id);
        MoveOneOver(interviews.Keys, remaining, done, id);
        total := total + 1;
        statusCounts := Bump(statusCounts, interview.status);
        typeCounts := Bump(typeCounts, interview.interviewType);
        remaining := remaining - {id};
        done := done + {id};
      }
      assert done == interviews.Keys == statuses.Keys == types.Keys;
      TallyEnd(statusCounts, statuses);
      TallyEnd(typeCounts, types);
      stats := InterviewStatistics(total, statusCounts, typeCounts, |interviewerSchedules|);
    }
  }
}
