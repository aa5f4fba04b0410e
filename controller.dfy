/** Reconcile dispatch for GitLabIdentityProvider objects: the type check on
    the incoming request, the finalizer step, and the fixed ordered phase
    lists for the create/update and the delete paths. The generic helpers
    (adding the finalizer, the error requeue, running a phase list) are
    collaborators given to the controller; only their calls are modelled. */
module GitLabIdentityProviderController {
  import opened Wrappers

  /** The kind of event a phase is told it is handling. */
  datatype Trigger = Create | Update | Delete

  /** What a phase calls when it runs. */
  datatype PhaseAction =
    | HandleClusterPhase(trigger: Trigger)
    | GetCurrentStatePhase
    | ApplyIdentityProviderPhase
    | CompletePhase(trigger: Trigger)
    | DestroyPhase
    | CompleteDestroyPhase

  /** A named phase of a pipeline. */
  datatype Phase = Phase(name: string, action: PhaseAction)

  /** A delivered reconcile request: either one for this resource kind,
      identified by its object key, or one of another kind. */
  datatype Request =
    | GitLabIdentityProviderRequest(key: string)
    | OtherRequest(kind: string)

  /** Errors this controller raises itself. */
  datatype ReconcileError =
    | TypeConvertError(expected: string)
    | AddFinalizerError(cause: string)

  /** The scheduling decision returned to the work queue. */
  datatype Result = Result(requeue: bool, requeueAfterSeconds: nat)

  /** A result together with the error returned beside it. */
  datatype Outcome = Outcome(result: Result, err: Option<string>)

  /** One call this controller makes to a collaborator. */
  datatype Call =
    | AddFinalizerCall(key: string)
    | OnErrorCall(req: Option<string>, err: ReconcileError)
    | ExecuteCall(key: string, phases: seq<Phase>)

  const ExpectedRequestType: string := "GitLabIdentityProviderRequest"

  /** The phases run on a create (and so on an update) event. */
  const CreatePhases: seq<Phase> := [
    Phase("HandleUpstreamCluster", HandleClusterPhase(Create)),
    Phase("GetCurrentState", GetCurrentStatePhase),
    Phase("ApplyIdentityProvider", ApplyIdentityProviderPhase),
    Phase("Complete", CompletePhase(Create))
  ]

  /** The phases run on a delete event. */
  const DeletePhases: seq<Phase> := [
    Phase("Destroy", DestroyPhase),
    Phase("CompleteDestroy", CompleteDestroyPhase)
  ]

  /** The names of a phase list, in order. */
  function PhaseNames(phases: seq<Phase>): (names: seq<string>)
    ensures |names| == |phases|
    ensures forall i :: 0 <= i < |phases| ==> names[i] == phases[i].name
  {
    if phases == [] then [] else [phases[0].name] + PhaseNames(phases[1..])
  }

  /** The create path declares exactly these four phases in this order;
      the disabled GitLab application phase is not among them. */
  lemma CreatePhaseNames()
    ensures PhaseNames(CreatePhases) == ["HandleUpstreamCluster", "GetCurrentState", "ApplyIdentityProvider", "Complete"]
    ensures "ApplyGitLab" !in PhaseNames(CreatePhases)
  {
  }

  /** The delete path declares exactly Destroy then CompleteDestroy. */
  lemma DeletePhaseNames()
    ensures PhaseNames(DeletePhases) == ["Destroy", "CompleteDestroy"]
  {
  }

  /** The controller, with the generic helpers it calls as collaborators:
      `addFinalizer` gives the error of adding the finalizer to the object
      with the given key (None on success), `onError` gives what the
      error requeue returns for a (possibly absent) typed request and an
      error, and `execute` gives what running a phase list for the object
      returns. `calls` records every collaborator call, oldest first. */
  class Controller {
    const addFinalizer: string -> Option<string>
    const onError: (Option<string>, ReconcileError) -> Outcome
    const execute: (string, seq<Phase>) -> Outcome
    ghost var calls: seq<Call>

    constructor (
      addFinalizer: string -> Option<string>,
      onError: (Option<string>, ReconcileError) -> Outcome,
      execute: (string, seq<Phase>) -> Outcome)
      ensures this.addFinalizer == addFinalizer && this.onError == onError && this.execute == execute
      ensures calls == []
    {
      this.addFinalizer := addFinalizer;
      this.onError := onError;
      this.execute := execute;
      calls := [];
    }

    /** The collaborator calls of a create event, in order. */
    ghost function CreateCalls(req: Request): (trace: seq<Call>) {
      match req
      case OtherRequest(_) => [OnErrorCall(None, TypeConvertError(ExpectedRequestType))]
      case GitLabIdentityProviderRequest(key) =>
        match addFinalizer(key)
        case Some(cause) => [AddFinalizerCall(key), OnErrorCall(Some(key), AddFinalizerError(cause))]
        case None => [AddFinalizerCall(key), ExecuteCall(key, CreatePhases)]
    }

    /** The outcome of a create event. */
    function CreateOutcome(req: Request): (out: Outcome) {
      match req
      case OtherRequest(_) => onError(None, TypeConvertError(ExpectedRequestType))
      case GitLabIdentityProviderRequest(key) =>
        match addFinalizer(key)
        case Some(cause) => onError(Some(key), AddFinalizerError(cause))
        case None => execute(key, CreatePhases)
    }

    /** The collaborator calls of a delete event, in order. */
    ghost function DeleteCalls(req: Request): (trace: seq<Call>) {
      match req
      case OtherRequest(_) => [OnErrorCall(None, TypeConvertError(ExpectedRequestType))]
      case GitLabIdentityProviderRequest(key) => [ExecuteCall(key, DeletePhases)]
    }

    /** The outcome of a delete event. */
    function DeleteOutcome(req: Request): (out: Outcome) {
      match req
      case OtherRequest(_) => onError(None, TypeConvertError(ExpectedRequestType))
      case GitLabIdentityProviderRequest(key) => execute(key, DeletePhases)
    }

    /** Create event: type check, then add the finalizer, then run the
        create phases; the first failing step ends the reconcile through
        the error requeue. */
    method ReconcileCreate(req: Request) returns (out: Outcome)
      modifies this
      ensures out == CreateOutcome(req)
      ensures calls == old(calls) + CreateCalls(req)
    {
      if !req.GitLabIdentityProviderRequest? {
        calls := calls + [OnErrorCall(None, TypeConvertError(ExpectedRequestType))];
        return onError(None, TypeConvertError(ExpectedRequestType));
      }
      var key := req.key;

      calls := calls + [AddFinalizerCall(key)];
      var err := addFinalizer(key);
      if err.Some? {
        calls := calls + [OnErrorCall(Some(key), AddFinalizerError(err.value))];
        return onError(Some(key), AddFinalizerError(err.value));
      }

      calls := calls + [ExecuteCall(key, CreatePhases)];
      return execute(key, CreatePhases);
    }

    /** Update event: the same as a create event. */
    method ReconcileUpdate(req: Request) returns (out: Outcome)
      modifies this
      ensures out == CreateOutcome(req)
      ensures calls == old(calls) + CreateCalls(req)
    {
      out := ReconcileCreate(req);
    }

    /** Delete event: type check, then run the delete phases. */
    method ReconcileDelete(req: Request) returns (out: Outcome)
      modifies this
      ensures out == DeleteOutcome(req)
      ensures calls == old(calls) + DeleteCalls(req)
    {
      if !req.GitLabIdentityProviderRequest? {
        calls := calls + [OnErrorCall(None, TypeConvertError(ExpectedRequestType))];
        return onError(None, TypeConvertError(ExpectedRequestType));
      }
      calls := calls + [ExecuteCall(req.key, DeletePhases)];
      return execute(req.key, DeletePhases);
    }

    /** A request of another kind ends both paths in the error requeue
        with a type-convert error and no typed request: no finalizer is
        added and no phase runs. */
    lemma WrongKindRunsNothing(req: Request)
      requires req.OtherRequest?
      ensures CreateOutcome(req) == DeleteOutcome(req) == onError(None, TypeConvertError(ExpectedRequestType))
      ensures CreateCalls(req) == DeleteCalls(req) == [OnErrorCall(None, TypeConvertError(ExpectedRequestType))]
    {
    }

    /** On the create path the finalizer is attempted first, and a phase
        list runs only after it succeeded; when it fails, the outcome is
        the error requeue of the finalizer error and no phase runs. */
    lemma FinalizerBeforePhases(req: Request)
      requires req.GitLabIdentityProviderRequest?
      ensures CreateCalls(req)[0] == AddFinalizerCall(req.key)
      ensures forall i :: 0 <= i < |CreateCalls(req)| && CreateCalls(req)[i].ExecuteCall? ==>
        0 < i && addFinalizer(req.key) == None
      ensures addFinalizer(req.key).Some? ==>
        && CreateOutcome(req) == onError(Some(req.key), AddFinalizerError(addFinalizer(req.key).value))
        && forall c :: c in CreateCalls(req) ==> !c.ExecuteCall?
    {
    }

    /** Every phase list the create (hence the update) path runs starts
        with the upstream-cluster phase told that this is a Create event,
        and the delete path never adds the finalizer. */
    lemma TriggersOfPaths(req: Request)
      ensures forall c :: c in CreateCalls(req) && c.ExecuteCall? ==>
        c.phases == CreatePhases && c.phases[0].action == HandleClusterPhase(Create)
      ensures forall c :: c in DeleteCalls(req) ==> !c.AddFinalizerCall?
      ensures forall c :: c in DeleteCalls(req) && c.ExecuteCall? ==> PhaseNames(c.phases) == ["Destroy", "CompleteDestroy"]
    {
    }
  }
}
