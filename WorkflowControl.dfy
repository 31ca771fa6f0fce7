/** The pure helpers of WorkflowController: its own copy of the action and
    next-stage tables, the list of actions it offers for a state, and the
    guard in front of a transition request. */
module WorkflowControl {
  import opened Streams
  import opened Workflow

  const ApiUser := "API_USER"

  /** `determineTargetState`; None is Java's null. */
  function DetermineTargetState(current: WorkflowState, action: WorkflowAction): Option<WorkflowState> {
    match action
    case Approve => if current == FinalReview then Some(Approved) else None
    case Reject => Some(Rejected)
    case PutOnHold => Some(OnHold)
    case MoveToNextStage => GetNextStage(current)
    case _ => None
  }

  /** `getNextStage`; None is Java's null. */
  function GetNextStage(current: WorkflowState): Option<WorkflowState> {
    match current
    case InitialReview => Some(TechnicalScreening)
    case TechnicalScreening => Some(HrInterview)
    case HrInterview => Some(TechnicalInterview)
    case TechnicalInterview => Some(FinalReview)
    case OnHold => Some(TechnicalScreening)
    case _ => None
  }

  /** The controller's tables compute the same functions as the service's. */
  lemma ControllerAgreesWithService(s: WorkflowState, a: WorkflowAction)
    ensures DetermineTargetState(s, a) == DetermineNextState(s, a)
    ensures GetNextStage(s) == NextStage(s)
    ensures GetNextStage(s).None? <==> s in {FinalReview, Approved, Rejected}
  {
  }

  /** `getAvailableActionsForState`. */
  function AvailableActions(s: WorkflowState): seq<WorkflowAction> {
    match s
    case InitialReview => [MoveToNextStage, Reject, PutOnHold]
    case TechnicalScreening => [MoveToNextStage, Reject, PutOnHold]
    case HrInterview => [MoveToNextStage, Reject, PutOnHold]
    case TechnicalInterview => [MoveToNextStage, Reject, PutOnHold]
    case FinalReview => [Approve, Reject]
    case OnHold => [MoveToNextStage, Reject]
    case Approved => []
    case Rejected => []
  }

  /** The actions offered for a state are exactly those whose target exists
      and is accepted by the service's transition table; nothing is offered
      in a terminal state. */
  lemma OfferedActionsAreExactlyTheAcceptedOnes(s: WorkflowState, a: WorkflowAction)
    ensures a in AvailableActions(s) <==>
      DetermineTargetState(s, a).Some? && IsValidTransition(s, DetermineTargetState(s, a).value)
    ensures AvailableActions(s) == [] <==> IsTerminal(s)
  {
  }

  /** What `transitionWorkflow` answers. */
  datatype TransitionReply =
    | Accepted(newState: WorkflowState)
    | NoWorkflowFound
    | InvalidActionForState(current: WorkflowState)
    | TransitionRefused

  /** `transitionWorkflow`: without a workflow, or without a target for the
      action, the request is answered with an error and the service is not
      called; otherwise the move is made as API_USER, and a move the table
      refuses comes back as an error. An accepted request always used an
      action that the controller offers for the state it started from. */
  method TransitionWorkflow(service: WorkflowService, apps: map<AppId, Application>, applicationId: AppId,
                            action: WorkflowAction, comments: Option<string>, now: int) returns (reply: TransitionReply)
    modifies service
    ensures old(service.GetCurrentState(applicationId)).None? ==>
      reply == NoWorkflowFound && service.Model() == old(service.Model())
    ensures old(service.GetCurrentState(applicationId)).Some? ==>
      var current := old(service.GetCurrentState(applicationId)).value;
      match DetermineTargetState(current, action)
      case None =>
        reply == InvalidActionForState(current) && service.Model() == old(service.Model())
      case Some(target) =>
        && service.Model() == Move(old(service.Model()), apps, applicationId, target, action, ApiUser, comments, now)
        && reply == (if IsValidTransition(current, target) then Accepted(target) else TransitionRefused)
    ensures reply.Accepted? ==> action in AvailableActions(old(service.GetCurrentState(applicationId)).value)
  {
    var currentState := service.GetCurrentState(applicationId);
    if currentState.None? {
      return NoWorkflowFound;
    }
    var newState := DetermineTargetState(currentState.value, action);
    if newState.None? {
      return InvalidActionForState(currentState.value);
    }
    var moved := service.MoveToState(apps, applicationId, newState.value, action, ApiUser, comments, now);
    if moved.Ok? {
      OfferedActionsAreExactlyTheAcceptedOnes(currentState.value, action);
      reply := Accepted(newState.value);
    } else {
      reply := TransitionRefused;
    }
  }
}
