/** WorkflowService: the hiring pipeline of an application as a finite state
    machine. Each application id has one current state; every accepted move
    is checked against a fixed transition table, recorded in an append-only
    history, and written back to the application repository as a status.

    The state the service keeps (the map of current states, the history and
    the statuses written back) is the class `WorkflowService`; its snapshot
    `WorkflowStore` and the functions on it say what each operation does, so
    that lemmas can speak about several operations in a row. */
module Workflow {
  import opened Streams
  import Validation

  type AppId = int

  datatype WorkflowState =
    | InitialReview
    | TechnicalScreening
    | HrInterview
    | TechnicalInterview
    | FinalReview
    | Approved
    | Rejected
    | OnHold

  datatype WorkflowAction = Approve | Reject | MoveToNextStage | PutOnHold | RequestAdditionalInfo

  /** The application status column that the service writes back (only the
      four values this service uses). */
  datatype Status = Applied | Shortlist | Selected | StatusRejected

  /** An immutable history record; `timestamp` is the caller's clock. */
  datatype WorkflowTransition = WorkflowTransition(
    applicationId: AppId,
    fromState: WorkflowState,
    toState: WorkflowState,
    action: WorkflowAction,
    performedBy: string,
    comments: Option<string>,
    timestamp: int)

  /** What the service reads of the application repository. */
  datatype User = User(email: Option<string>)
  datatype Student = Student(skills: Option<string>, education: Option<string>, user: Option<User>)
  datatype JobPost = JobPost(description: Option<string>)
  datatype Application = Application(student: Option<Student>, job: Option<JobPost>)

  const AllStates: seq<WorkflowState> :=
    [InitialReview, TechnicalScreening, HrInterview, TechnicalInterview, FinalReview, Approved, Rejected, OnHold]

  const System := "SYSTEM"

  // ---------------------------------------------------------------------
  // The tables

  /** The states a state may move to (`isValidTransition`). */
  function AllowedTargets(from: WorkflowState): set<WorkflowState> {
    match from
    case InitialReview => {TechnicalScreening, Rejected, OnHold}
    case TechnicalScreening => {HrInterview, Rejected, OnHold}
    case HrInterview => {TechnicalInterview, Rejected, OnHold}
    case TechnicalInterview => {FinalReview, Rejected, OnHold}
    case FinalReview => {Approved, Rejected}
    case OnHold => {TechnicalScreening, HrInterview, TechnicalInterview, FinalReview, Rejected}
    case Approved => {}
    case Rejected => {}
  }

  predicate IsValidTransition(from: WorkflowState, to: WorkflowState) {
    to in AllowedTargets(from)
  }

  predicate IsTerminal(s: WorkflowState) {
    s == Approved || s == Rejected
  }

  /** Shape of the table: terminal states have no moves, no state moves to
      itself, nothing moves back to INITIAL_REVIEW, only FINAL_REVIEW
      approves, and every other state can still be rejected. */
  lemma TransitionTableShape(from: WorkflowState, to: WorkflowState)
    ensures IsTerminal(from) ==> !IsValidTransition(from, to)
    ensures !IsValidTransition(from, from)
    ensures !IsValidTransition(from, InitialReview)
    ensures IsValidTransition(from, Approved) <==> from == FinalReview
    ensures IsValidTransition(from, Rejected) <==> !IsTerminal(from)
    ensures IsValidTransition(from, OnHold) <==> from in {InitialReview, TechnicalScreening, HrInterview, TechnicalInterview}
  {
  }

  /** The status written back for a state (`updateApplicationStatus`). */
  function StatusFor(s: WorkflowState): (r: Status)
    ensures r == Selected <==> s == Approved
    ensures r == StatusRejected <==> s == Rejected
    ensures r == Applied <==> s == OnHold
    ensures r == Shortlist <==> s !in {Approved, Rejected, OnHold}
  {
    match s
    case Approved => Selected
    case Rejected => StatusRejected
    case OnHold => Applied
    case _ => Shortlist
  }

  /** The designated next stage (`getNextStage`); None is Java's null. */
  function NextStage(s: WorkflowState): Option<WorkflowState> {
    match s
    case InitialReview => Some(TechnicalScreening)
    case TechnicalScreening => Some(HrInterview)
    case HrInterview => Some(TechnicalInterview)
    case TechnicalInterview => Some(FinalReview)
    case OnHold => Some(TechnicalScreening)
    case _ => None
  }

  /** The target of an action (`determineNextState`); None is Java's null. */
  function DetermineNextState(s: WorkflowState, a: WorkflowAction): Option<WorkflowState> {
    match a
    case Approve => if s == FinalReview then Some(Approved) else None
    case Reject => Some(Rejected)
    case PutOnHold => Some(OnHold)
    case MoveToNextStage => NextStage(s)
    case RequestAdditionalInfo => None
  }

  /** The pipeline moves only forward: a next stage exists exactly for the
      four review stages and ON_HOLD, and the table always accepts it. */
  lemma NextStageIsAllowed(s: WorkflowState)
    ensures NextStage(s).None? <==> s in {FinalReview, Approved, Rejected}
    ensures NextStage(s).Some? ==> IsValidTransition(s, NextStage(s).value)
    ensures DetermineNextState(s, Approve).Some? ==> IsValidTransition(s, Approved)
    ensures DetermineNextState(s, RequestAdditionalInfo).None?
  {
  }

  // ---------------------------------------------------------------------
  // The automatic initial review

  const CommonSkills: seq<string> := ["java", "python", "javascript", "react", "spring", "sql", "html", "css"]

  /** `toLowerCase()` on the ASCII letters. */
  function ToLower(s: string): (r: string)
    ensures |r| == |s|
    ensures forall k :: 0 <= k < |s| ==> r[k] == if 'A' <= s[k] <= 'Z' then (s[k] as int + 32) as char else s[k]
  {
    if s == [] then []
    else [if 'A' <= s[0] <= 'Z' then (s[0] as int + 32) as char else s[0]] + ToLower(s[1..])
  }

  /** `word` occurs in `text` starting at index `i`. */
  predicate OccursAt(text: string, word: string, i: int) {
    0 <= i <= |text| - |word| && text[i..i + |word|] == word
  }

  /** `String.contains`. */
  predicate Contains(text: string, word: string) {
    exists i :: 0 <= i <= |text| - |word| && OccursAt(text, word, i)
  }

  /** Some common skill is mentioned, case-insensitively, both in the
      student's skills and in the job description. */
  predicate SharesCommonSkill(student: Student, job: Option<JobPost>) {
    && student.skills.Some?
    && job.Some? && job.value.description.Some?
    && exists k :: 0 <= k < |CommonSkills|
         && Contains(ToLower(job.value.description.value), CommonSkills[k])
         && Contains(ToLower(student.skills.value), CommonSkills[k])
  }

  /** `checkStudentQualifications`: scans the common skills and stops at the
      first one both texts mention. A missing job makes the Java code throw
      inside its own try block, which answers false. */
  method CheckStudentQualifications(student: Student, job: Option<JobPost>) returns (qualified: bool)
    ensures qualified <==> SharesCommonSkill(student, job)
  {
    if student.skills.None? || job.None? || job.value.description.None? {
      return false;
    }
    var studentSkills := ToLower(student.skills.value);
    var jobDescription := ToLower(job.value.description.value);
    for k := 0 to |CommonSkills|
      invariant forall j :: 0 <= j < k ==>
        !(Contains(jobDescription, CommonSkills[j]) && Contains(studentSkills, CommonSkills[j]))
    {
      if Contains(jobDescription, CommonSkills[k]) && Contains(studentSkills, CommonSkills[k]) {
        return true;
      }
    }
    return false;
  }

  /** `checkProfileCompleteness`: skills and education present and not
      blank, and a linked user with an email. */
  predicate IsProfileComplete(student: Student) {
    && student.skills.Some? && Validation.HasVisibleChar(student.skills.value)
    && student.education.Some? && Validation.HasVisibleChar(student.education.value)
    && student.user.Some? && student.user.value.email.Some?
  }

  /** The move that `performInitialReview` makes for an application. */
  datatype ReviewDecision = ReviewDecision(target: WorkflowState, action: WorkflowAction, comment: string)

  function InitialReviewDecision(app: Application): (d: ReviewDecision)
    ensures IsValidTransition(InitialReview, d.target)
    ensures d.target == Rejected <==> app.student.None?
    ensures d.target == TechnicalScreening <==>
      app.student.Some? && SharesCommonSkill(app.student.value, app.job) && IsProfileComplete(app.student.value)
  {
    if app.student.None? then ReviewDecision(Rejected, Reject, "No student profile found")
    else if SharesCommonSkill(app.student.value, app.job) && IsProfileComplete(app.student.value) then
      ReviewDecision(TechnicalScreening, MoveToNextStage, "Passed initial review")
    else ReviewDecision(OnHold, PutOnHold, "Incomplete profile or missing qualifications")
  }

  // ---------------------------------------------------------------------
  // The store and what each operation does to it

  datatype WorkflowStore = WorkflowStore(
    workflows: map<AppId, WorkflowState>,
    history: seq<WorkflowTransition>,
    statuses: map<AppId, Status>)

  /** Log consistency: every recorded transition was allowed by the table
      and belongs to an application that has a workflow. */
  ghost predicate ValidStore(st: WorkflowStore) {
    forall k :: 0 <= k < |st.history| ==>
      IsValidTransition(st.history[k].fromState, st.history[k].toState)
      && st.history[k].applicationId in st.workflows
  }

  /** `moveToState` succeeds exactly when the application has a workflow
      and the table allows the move. */
  predicate CanMove(st: WorkflowStore, id: AppId, to: WorkflowState) {
    id in st.workflows && IsValidTransition(st.workflows[id], to)
  }

  /** The effect of a successful `moveToState`; the status is written back
      only when the repository knows the application. */
  function Moved(st: WorkflowStore, apps: map<AppId, Application>, id: AppId, to: WorkflowState,
                 action: WorkflowAction, performer: string, comments: Option<string>, now: int): (r: WorkflowStore)
    requires CanMove(st, id, to)
    ensures ValidStore(st) ==> ValidStore(r)
    ensures r.workflows == st.workflows[id := to]
    ensures |r.history| == |st.history| + 1 && r.history[..|st.history|] == st.history
    ensures r.history[|st.history|] == WorkflowTransition(id, st.workflows[id], to, action, performer, comments, now)
    ensures id in apps ==> r.statuses == st.statuses[id := StatusFor(to)]
    ensures id !in apps ==> r.statuses == st.statuses
  {
    var t := WorkflowTransition(id, st.workflows[id], to, action, performer, comments, now);
    var r := WorkflowStore(st.workflows[id := to], st.history + [t],
                           if id in apps then st.statuses[id := StatusFor(to)] else st.statuses);
    assert r.history[..|st.history|] == st.history;
    r
  }

  /** `moveToState`: a refused move changes nothing. */
  function Move(st: WorkflowStore, apps: map<AppId, Application>, id: AppId, to: WorkflowState,
                action: WorkflowAction, performer: string, comments: Option<string>, now: int): (r: WorkflowStore)
    ensures ValidStore(st) ==> ValidStore(r)
    ensures !CanMove(st, id, to) ==> r == st
    ensures r.workflows.Keys == st.workflows.Keys
    ensures forall other :: other in st.workflows && other != id ==> r.workflows[other] == st.workflows[other]
    ensures CanMove(st, id, to) ==> r.workflows[id] == to && |r.history| == |st.history| + 1
  {
    if CanMove(st, id, to) then Moved(st, apps, id, to, action, performer, comments, now) else st
  }

  /** `getWorkflowHistory`: the transitions of one application, in the
      order they were recorded. */
  function HistoryFor(st: WorkflowStore, id: AppId): seq<WorkflowTransition> {
    Filter(st.history, (t: WorkflowTransition) => t.applicationId == id)
  }

  /** The history of an application holds exactly the recorded transitions
      that belong to it. */
  lemma HistoryForMembership(st: WorkflowStore, id: AppId, t: WorkflowTransition)
    ensures t in HistoryFor(st, id) <==> t in st.history && t.applicationId == id
  {
    FilterMembership(st.history, (t: WorkflowTransition) => t.applicationId == id, t);
  }

  /** A successful move appends exactly one record to the history of the
      application it moved and leaves every other application's history
      as it was; a refused move changes no history. */
  lemma MoveExtendsHistory(st: WorkflowStore, apps: map<AppId, Application>, id: AppId, to: WorkflowState,
                           action: WorkflowAction, performer: string, comments: Option<string>, now: int, other: AppId)
    requires other != id
    ensures var r := Move(st, apps, id, to, action, performer, comments, now);
      && (CanMove(st, id, to) ==>
            HistoryFor(r, id) == HistoryFor(st, id) + [WorkflowTransition(id, st.workflows[id], to, action, performer, comments, now)])
      && (!CanMove(st, id, to) ==> HistoryFor(r, id) == HistoryFor(st, id))
      && HistoryFor(r, other) == HistoryFor(st, other)
  {
    if CanMove(st, id, to) {
      var t := WorkflowTransition(id, st.workflows[id], to, action, performer, comments, now);
      FilterAppend(st.history, t, (t: WorkflowTransition) => t.applicationId == id);
      FilterAppend(st.history, t, (t: WorkflowTransition) => t.applicationId == other);
    }
  }

  /** The corrected `initiateApplicationWorkflow`: an unknown application
      fails; otherwise the state is set to INITIAL_REVIEW (overwriting any
      earlier workflow) and the initial review makes its move as SYSTEM. */
  function Initiate(st: WorkflowStore, apps: map<AppId, Application>, id: AppId, now: int): (r: WorkflowStore)
    ensures ValidStore(st) ==> ValidStore(r)
    ensures id !in apps ==> r == st
    ensures id in apps ==>
      && r.workflows == st.workflows[id := InitialReviewDecision(apps[id]).target]
      && r.workflows[id] in {TechnicalScreening, OnHold, Rejected}
      && r.history == st.history + [InitialReviewRecord(apps, id, now)]
  {
    if id !in apps then st
    else
      var started := st.(workflows := st.workflows[id := InitialReview]);
      var d := InitialReviewDecision(apps[id]);
      var r := Moved(started, apps, id, d.target, d.action, System, Some(d.comment), now);
      assert r.history == st.history + [InitialReviewRecord(apps, id, now)];
      r
  }

  /** The one record the initial review writes. */
  function InitialReviewRecord(apps: map<AppId, Application>, id: AppId, now: int): WorkflowTransition
    requires id in apps
  {
    var d := InitialReviewDecision(apps[id]);
    WorkflowTransition(id, InitialReview, d.target, d.action, System, Some(d.comment), now)
  }

  /** Initiating a known application adds exactly the review's record to
      its history, after whatever an earlier workflow recorded. */
  lemma InitiateRecordsTheReview(st: WorkflowStore, apps: map<AppId, Application>, id: AppId, now: int)
    requires id in apps
    ensures HistoryFor(Initiate(st, apps, id, now), id) == HistoryFor(st, id) + [InitialReviewRecord(apps, id, now)]
  {
    FilterAppend(st.history, InitialReviewRecord(apps, id, now), (t: WorkflowTransition) => t.applicationId == id);
  }

  /** `initiateApplicationWorkflow` as written: the log line that follows
      the store of INITIAL_REVIEW dereferences the application's student
      and job, so a missing one throws before the review runs. The
      exception is rethrown as a BusinessRuleException and the state stays
      INITIAL_REVIEW with nothing recorded. */
  function InitiateSucceedsAsWritten(apps: map<AppId, Application>, id: AppId): bool {
    id in apps && apps[id].student.Some? && apps[id].job.Some?
  }

  function InitiateAsWritten(st: WorkflowStore, apps: map<AppId, Application>, id: AppId, now: int): (r: WorkflowStore)
    ensures id in apps && !InitiateSucceedsAsWritten(apps, id) ==>
      r == st.(workflows := st.workflows[id := InitialReview])
  {
    if id !in apps then st
    else if !InitiateSucceedsAsWritten(apps, id) then st.(workflows := st.workflows[id := InitialReview])
    else Initiate(st, apps, id, now)
  }

  /** The "no student profile" branch of the initial review is dead in the
      code as written: such an application fails to initiate and is left in
      INITIAL_REVIEW with no record, and no initiation as written ever
      rejects. The corrected `Initiate` rejects it with one SYSTEM record. */
  lemma NoStudentRejectionIsUnreachable(st: WorkflowStore, apps: map<AppId, Application>, id: AppId, now: int)
    requires id in apps && apps[id].student.None?
    ensures !InitiateSucceedsAsWritten(apps, id)
    ensures InitiateAsWritten(st, apps, id, now).workflows[id] == InitialReview
    ensures HistoryFor(InitiateAsWritten(st, apps, id, now), id) == HistoryFor(st, id)
    ensures Initiate(st, apps, id, now).workflows[id] == Rejected
    ensures HistoryFor(Initiate(st, apps, id, now), id) == HistoryFor(st, id) + [InitialReviewRecord(apps, id, now)]
  {
    assert HistoryFor(InitiateAsWritten(st, apps, id, now), id) == HistoryFor(st, id);
    InitiateRecordsTheReview(st, apps, id, now);
  }

  lemma InitiateAsWrittenNeverRejects(st: WorkflowStore, apps: map<AppId, Application>, id: AppId, now: int)
    requires id in apps
    ensures InitiateAsWritten(st, apps, id, now).workflows[id] != Rejected
  {
    if InitiateSucceedsAsWritten(apps, id) {
      assert InitialReviewDecision(apps[id]).target != Rejected;
    }
  }

  // ---------------------------------------------------------------------
  // Bulk processing

  /** One item of `bulkProcessApplications`: ids without a workflow or
      without a target are skipped, and a refused move is caught. */
  function BulkStep(st: WorkflowStore, apps: map<AppId, Application>, id: AppId,
                    action: WorkflowAction, performer: string, comments: Option<string>, now: int): WorkflowStore
  {
    if id !in st.workflows then st
    else match DetermineNextState(st.workflows[id], action)
      case None => st
      case Some(to) => Move(st, apps, id, to, action, performer, comments, now)
  }

  /** `bulkProcessApplications` over a list of ids, item by item. */
  function Bulk(st: WorkflowStore, apps: map<AppId, Application>, ids: seq<AppId>,
                action: WorkflowAction, performer: string, comments: Option<string>, now: int): WorkflowStore
    decreases |ids|
  {
    if ids == [] then st
    else BulkStep(Bulk(st, apps, ids[..|ids| - 1], action, performer, comments, now), apps, ids[|ids| - 1], action, performer, comments, now)
  }

  /** Where a single application ends after one bulk item: the action's
      target when the table accepts it, else where it was. */
  function BulkOutcome(s: WorkflowState, action: WorkflowAction): (r: WorkflowState)
    ensures r == s || IsValidTransition(s, r)
    ensures r != s <==> DetermineNextState(s, action).Some? && IsValidTransition(s, DetermineNextState(s, action).value)
  {
    match DetermineNextState(s, action)
    case Some(to) => if IsValidTransition(s, to) then to else s
    case None => s
  }

  /** Bulk processing keeps the log consistent, tracks the same
      applications, leaves applications not in the list alone and only
      appends to the history. */
  lemma {:induction false} BulkFrame(st: WorkflowStore, apps: map<AppId, Application>, ids: seq<AppId>,
                                     action: WorkflowAction, performer: string, comments: Option<string>, now: int)
    ensures var r := Bulk(st, apps, ids, action, performer, comments, now);
      && (ValidStore(st) ==> ValidStore(r))
      && r.workflows.Keys == st.workflows.Keys
      && (forall id :: id in st.workflows && id !in ids ==> r.workflows[id] == st.workflows[id])
      && |st.history| <= |r.history| && r.history[..|st.history|] == st.history
    decreases |ids|
  {
    if ids != [] {
      var prefix := ids[..|ids| - 1];
      BulkFrame(st, apps, prefix, action, performer, comments, now);
      var mid := Bulk(st, apps, prefix, action, performer, comments, now);
      var r := Bulk(st, apps, ids, action, performer, comments, now);
      assert r == BulkStep(mid, apps, ids[|ids| - 1], action, performer, comments, now);
      forall id | id in st.workflows && id !in ids ensures r.workflows[id] == st.workflows[id] {
        assert id !in prefix;
      }
      assert r.history[..|mid.history|] == mid.history;
      assert r.history[..|st.history|] == mid.history[..|st.history|];
    }
  }

  /** Partial-failure isolation: with distinct ids, each listed application
      ends exactly where a single bulk item would take it from its original
      state, whatever happens to the other items. */
  lemma {:induction false} BulkPerItem(st: WorkflowStore, apps: map<AppId, Application>, ids: seq<AppId>,
                                       action: WorkflowAction, performer: string, comments: Option<string>, now: int, id: AppId)
    requires forall i, j :: 0 <= i < j < |ids| ==> ids[i] != ids[j]
    requires id in ids && id in st.workflows
    ensures var r := Bulk(st, apps, ids, action, performer, comments, now);
      id in r.workflows && r.workflows[id] == BulkOutcome(st.workflows[id], action)
    decreases |ids|
  {
    var prefix := ids[..|ids| - 1];
    var last := ids[|ids| - 1];
    var mid := Bulk(st, apps, prefix, action, performer, comments, now);
    BulkFrame(st, apps, prefix, action, performer, comments, now);
    if last == id {
      assert id !in prefix;
      assert mid.workflows[id] == st.workflows[id];
    } else {
      assert id in prefix;
      BulkPerItem(st, apps, prefix, action, performer, comments, now, id);
    }
  }

  // ---------------------------------------------------------------------
  // Statistics

  /** `getWorkflowStatistics`: one entry per state, holding the number of
      tracked applications in it. */
  function Statistics(st: WorkflowStore): (r: map<WorkflowState, nat>)
    ensures forall s :: s in r && r[s] == CountIn(st.workflows, s)
  {
    forall s: WorkflowState ensures s in AllStates {
      EveryStateIsListed(s);
    }
    map s | s in AllStates :: CountIn(st.workflows, s)
  }

  lemma EveryStateIsListed(s: WorkflowState)
    ensures s in AllStates
  {
    match s
    case InitialReview => assert AllStates[0] == s;
    case TechnicalScreening => assert AllStates[1] == s;
    case HrInterview => assert AllStates[2] == s;
    case TechnicalInterview => assert AllStates[3] == s;
    case FinalReview => assert AllStates[4] == s;
    case Approved => assert AllStates[5] == s;
    case Rejected => assert AllStates[6] == s;
    case OnHold => assert AllStates[7] == s;
  }

  /** The per-state counts add up to the number of tracked applications:
      every application is counted once, in the state it is in. */
  lemma StatisticsCoverEveryApplication(st: WorkflowStore)
    ensures SumCounts(st.workflows, AllStates) == |st.workflows|
  {
    forall id | id in st.workflows ensures st.workflows[id] in AllStates {
      EveryStateIsListed(st.workflows[id]);
    }
    CountsCoverMap(st.workflows, AllStates);
  }

  // ---------------------------------------------------------------------
  // The service object

  class WorkflowService {
    var applicationWorkflows: map<AppId, WorkflowState>
    var workflowHistory: seq<WorkflowTransition>
    /** The status column of the application repository, as written back. */
    var applicationStatuses: map<AppId, Status>

    function Model(): WorkflowStore
      reads this
    {
      WorkflowStore(applicationWorkflows, workflowHistory, applicationStatuses)
    }

    ghost predicate Valid()
      reads this
    {
      ValidStore(Model())
    }

    constructor ()
      ensures Valid()
      ensures applicationWorkflows == map[] && workflowHistory == [] && applicationStatuses == map[]
    {
      applicationWorkflows := map[];
      workflowHistory := [];
      applicationStatuses := map[];
    }

    /** `getCurrentState`; None is Java's null. */
    function GetCurrentState(id: AppId): (r: Option<WorkflowState>)
      reads this
      ensures r.Some? <==> id in applicationWorkflows
    {
      if id in applicationWorkflows then Some(applicationWorkflows[id]) else None
    }

    method MoveToState(apps: map<AppId, Application>, id: AppId, newState: WorkflowState, action: WorkflowAction,
                       performedBy: string, comments: Option<string>, now: int) returns (r: Result<()>)
      modifies this
      ensures r.Ok? <==> CanMove(old(Model()), id, newState)
      ensures Model() == Move(old(Model()), apps, id, newState, action, performedBy, comments, now)
      ensures old(Valid()) ==> Valid()
    {
      if id !in applicationWorkflows {
        return BusinessRuleFailure;
      }
      var currentState := applicationWorkflows[id];
      if !IsValidTransition(currentState, newState) {
        return BusinessRuleFailure;
      }
      applicationWorkflows := applicationWorkflows[id := newState];
      workflowHistory := workflowHistory + [WorkflowTransition(id, currentState, newState, action, performedBy, comments, now)];
      if id in apps {
        applicationStatuses := applicationStatuses[id := StatusFor(newState)];
      }
      r := Ok(());
    }

    /** `performInitialReview`, run right after the state was set to
      INITIAL_REVIEW; its moves from there are always allowed. */
    method PerformInitialReview(apps: map<AppId, Application>, id: AppId, now: int)
      requires id in apps && id in applicationWorkflows && applicationWorkflows[id] == InitialReview
      modifies this
      ensures var d := InitialReviewDecision(apps[id]);
        Model() == Moved(old(Model()), apps, id, d.target, d.action, System, Some(d.comment), now)
    {
      var application := apps[id];
      if application.student.None? {
        var _ := MoveToState(apps, id, Rejected, Reject, System, Some("No student profile found"), now);
        return;
      }
      var hasRequiredSkills := CheckStudentQualifications(application.student.value, application.job);
      var hasCompleteProfile := IsProfileComplete(application.student.value);
      if hasRequiredSkills && hasCompleteProfile {
        var _ := MoveToState(apps, id, TechnicalScreening, MoveToNextStage, System, Some("Passed initial review"), now);
      } else {
        var _ := MoveToState(apps, id, OnHold, PutOnHold, System, Some("Incomplete profile or missing qualifications"), now);
      }
    }

    /** `initiateApplicationWorkflow`, corrected so that the review runs for
      every known application (see `InitiateAsWritten`). */
    method InitiateApplicationWorkflow(apps: map<AppId, Application>, id: AppId, now: int) returns (r: Result<()>)
      modifies this
      ensures r.Ok? <==> id in apps
      ensures Model() == Initiate(old(Model()), apps, id, now)
      ensures old(Valid()) ==> Valid()
    {
      if id !in apps {
        return BusinessRuleFailure;
      }
      applicationWorkflows := applicationWorkflows[id := InitialReview];
      PerformInitialReview(apps, id, now);
      r := Ok(());
    }

    /** `bulkProcessApplications`: never fails; each id is handled on its
      own and a refused move only skips that id. */
    method BulkProcessApplications(apps: map<AppId, Application>, ids: seq<AppId>, action: WorkflowAction,
                                   performedBy: string, comments: Option<string>, now: int)
      modifies this
      ensures Model() == Bulk(old(Model()), apps, ids, action, performedBy, comments, now)
      ensures old(Valid()) ==> Valid()
    {
      for i := 0 to |ids|
        invariant Model() == Bulk(old(Model()), apps, ids[..i], action, performedBy, comments, now)
      {
        var id := ids[i];
        assert ids[..i + 1][..i] == ids[..i];
        var currentState := GetCurrentState(id);
        if currentState.Some? {
          var nextState := DetermineNextState(currentState.value, action);
          if nextState.Some? {
            var _ := MoveToState(apps, id, nextState.value, action, performedBy, comments, now);
          }
        }
      }
      assert ids[..|ids|] == ids;
      BulkFrame(old(Model()), apps, ids, action, performedBy, comments, now);
    }
  }

  // ---------------------------------------------------------------------
  // The end-to-end scenario

  /** A move the table allows sets the state and appends its record to
      the application's history. */
  lemma MoveAppends(st: WorkflowStore, apps: map<AppId, Application>, id: AppId, to: WorkflowState,
                    action: WorkflowAction, performer: string, comments: Option<string>, now: int)
    requires CanMove(st, id, to)
    ensures Move(st, apps, id, to, action, performer, comments, now).workflows[id] == to
    ensures HistoryFor(Move(st, apps, id, to, action, performer, comments, now), id)
      == HistoryFor(st, id) + [WorkflowTransition(id, st.workflows[id], to, action, performer, comments, now)]
  {
    MoveExtendsHistory(st, apps, id, to, action, performer, comments, now, id + 1);
  }

  /** Five moves take an application from INITIAL_REVIEW to APPROVED and
      record five transitions in that order; a sixth move out of APPROVED
      is refused. */
  lemma HappyPath(st: WorkflowStore, apps: map<AppId, Application>, id: AppId, performer: string, now: int)
    requires id in st.workflows && st.workflows[id] == InitialReview && HistoryFor(st, id) == []
    ensures
      var s1 := Move(st, apps, id, TechnicalScreening, MoveToNextStage, performer, None, now);
      var s2 := Move(s1, apps, id, HrInterview, MoveToNextStage, performer, None, now);
      var s3 := Move(s2, apps, id, TechnicalInterview, MoveToNextStage, performer, None, now);
      var s4 := Move(s3, apps, id, FinalReview, MoveToNextStage, performer, None, now);
      var s5 := Move(s4, apps, id, Approved, Approve, performer, None, now);
      && s5.workflows[id] == Approved
      && HistoryFor(s5, id) == [
           WorkflowTransition(id, InitialReview, TechnicalScreening, MoveToNextStage, performer, None, now),
           WorkflowTransition(id, TechnicalScreening, HrInterview, MoveToNextStage, performer, None, now),
           WorkflowTransition(id, HrInterview, TechnicalInterview, MoveToNextStage, performer, None, now),
           WorkflowTransition(id, TechnicalInterview, FinalReview, MoveToNextStage, performer, None, now),
           WorkflowTransition(id, FinalReview, Approved, Approve, performer, None, now)]
      && !CanMove(s5, id, OnHold)
  {
    var s1 := Move(st, apps, id, TechnicalScreening, MoveToNextStage, performer, None, now);
    MoveAppends(st, apps, id, TechnicalScreening, MoveToNextStage, performer, None, now);
    assert HistoryFor(s1, id) == [WorkflowTransition(id, InitialReview, TechnicalScreening, MoveToNextStage, performer, None, now)];
    var s2 := Move(s1, apps, id, HrInterview, MoveToNextStage, performer, None, now);
    MoveAppends(s1, apps, id, HrInterview, MoveToNextStage, performer, None, now);
    var s3 := Move(s2, apps, id, TechnicalInterview, MoveToNextStage, performer, None, now);
    MoveAppends(s2, apps, id, TechnicalInterview, MoveToNextStage, performer, None, now);
    var s4 := Move(s3, apps, id, FinalReview, MoveToNextStage, performer, None, now);
    MoveAppends(s3, apps, id, FinalReview, MoveToNextStage, performer, None, now);
    var s5 := Move(s4, apps, id, Approved, Approve, performer, None, now);
    MoveAppends(s4, apps, id, Approved, Approve, performer, None, now);
    assert s5.workflows[id] == Approved;
  }
}
