# GitLab identity-provider operator: resource type, reconcile dispatch, string helper

This project models, in Dafny, three pieces of an operator that keeps GitLab
identity providers of managed clusters in line with `GitLabIdentityProvider`
resources:

- **The resource type** (module `GitLabIdentityProviderTypes`). `Spec` and
  `Status` are records. `GitLabIdentityProvider` is a class, because
  `SetConditions` and `CopyFrom` overwrite its fields in place. The list call
  of `FindAll` is replaced by a `ListResult` input (the listed objects, or the
  cause of a failure). `FindAllByClusterID` is a method with the source's index
  loop. It returns references to elements of the listing, as the source returns
  `&objects[i]`. Its reference definition is `MatchesOf`, with `MatchIndices`
  beside it. `Builder` builds the remote identity-provider shape. `CopiedSpec`
  is the spec that `CopyFrom` leaves behind. The schema markers become
  `WithDefaults`, `Valid`, `Admit`, `ImmutableOnceSet` and `AdmissibleUpdate`.
- **Reconcile dispatch** (module `GitLabIdentityProviderController`). A
  `Controller` class holds three generic helpers whose bodies are not part of
  this model, as function-valued collaborators:
  - adding the finalizer (`addFinalizer`);
  - the error requeue (`onError`);
  - running a phase list (`execute`).

  A ghost `calls` log records every call to them. `ReconcileCreate`,
  `ReconcileUpdate` and `ReconcileDelete` are methods. Each is tied to the
  reference functions `CreateOutcome`/`CreateCalls` or
  `DeleteOutcome`/`DeleteCalls`, and lemmas state ordering and early exit
  about those functions. Phases are data: a name and the action the phase's
  closure calls, including the trigger it passes.
- **`ContainsString`** (module `Utils`). A method with the source's loop,
  proved against the recursive predicate `Occurs`.

`GetClusterID` and `GetConditions` are plain accessors of status fields. The
contract of `FindAllByClusterID` is stated through `GetClusterID`.
`SetConditions` states the set-then-get round trip through `GetConditions`.

Behaviours of the code worth noting:
- The update path passes the trigger `Create` to the upstream-cluster and
  Complete phases, because `ReconcileUpdate` calls `ReconcileCreate`. The model
  keeps `Create` there (`TriggersOfPaths`).
- `Builder` names the remote provider with `Spec.DisplayName` as it stands.
  Falling back to the object's name when the display name is empty is not
  done in this file, so the model does not do it either.
- The schema declares the cluster name, the display name and the status
  identifiers immutable with transition rules (`self == oldSelf`) on fields
  that are omitted when empty. Such a rule is checked only when the old and the new
  value are both present. `ImmutableOnceSet` therefore allows setting an empty
  field, and it also allows clearing a set one. The cluster name is the
  exception: it is also required, so an admitted object always carries it,
  and `AdmissibleUpdate` demands the same value before and after.
- `CopyFrom` writes the remote provider's CA into the field that, in the
  spec, holds the name of a config map. `Builder` is given the resolved CA
  data, not that name. So `Builder` followed by `CopyFrom` gives back the
  spec only when the CA data equals the config-map name. In practice that
  means no CA is configured (`CopyFromUndoesBuilder`).

## Model

| member | source | states |
|---|---|---|
| `Utils.ContainsString` | pkg/utils/utils.go:4-11 | returns true iff some index of the list holds the string, agrees with `Occurs`, and is false on the empty list; the loop keeps "no earlier index matched" |
| `Utils.OccursIffSomeIndex` | pkg/utils/utils.go:4-11 | the recursive reference `Occurs` holds iff some index holds the string (both directions) |
| `Utils.OccursMonotone` | pkg/utils/utils.go:5-9 | a string found in a list is still found once more entries are appended |
| `GitLabIdentityProviderTypes.GitLabIdentityProvider.GetClusterID` | api/v1alpha1/gitlabidentityprovider_types.go:202-204 | the cluster ID the workload interface reads is the status cluster ID, the same field `FindAllByClusterID` filters on |
| `GitLabIdentityProviderTypes.GitLabIdentityProvider.GetConditions` | api/v1alpha1/gitlabidentityprovider_types.go:208-210 | the conditions the workload interface reads are the status conditions, which `SetConditions` replaces |
| `GitLabIdentityProviderTypes.ListError.Message` | api/v1alpha1/gitlabidentityprovider_types.go:161 | the error text is the fixed prefix "unable to retrieve gitlab identity providers - " followed by the cause, which can be read back from it |
| `GitLabIdentityProviderTypes.GitLabIdentityProvider.FindAll` | api/v1alpha1/gitlabidentityprovider_types.go:154-165 | a successful listing yields its items and no error; a failed one yields an empty list and the failure wrapped as a list error |
| `GitLabIdentityProviderTypes.GitLabIdentityProvider.FindAllByClusterID` | api/v1alpha1/gitlabidentityprovider_types.go:168-187 | on a listing error: no matches and that error; otherwise the matches are `MatchesOf` the listing, and an object is a match iff it is listed and its `GetClusterID()` equals the given ID |
| `GitLabIdentityProviderTypes.MatchesOfMembership` | api/v1alpha1/gitlabidentityprovider_types.go:180-184 | an object is among the matches iff it is in the listing and its status cluster ID equals the given ID |
| `GitLabIdentityProviderTypes.MatchesOfKeepsOrder` | api/v1alpha1/gitlabidentityprovider_types.go:178-186 | the matches are the listed objects at strictly increasing indices, and those indices are exactly the ones whose status cluster ID matches: order and multiplicity kept, nothing new |
| `GitLabIdentityProviderTypes.MatchesOfNonEmpty` | api/v1alpha1/gitlabidentityprovider_types.go:195-197 | the match list is non-empty iff some listed object carries the cluster ID |
| `GitLabIdentityProviderTypes.GitLabIdentityProvider.ExistsForClusterID` | api/v1alpha1/gitlabidentityprovider_types.go:190-198 | true iff the listing succeeded and some listed object carries the cluster ID; the listing error is passed on, so on a failure the answer is false with that error |
| `GitLabIdentityProviderTypes.GitLabIdentityProvider.SetConditions` | api/v1alpha1/gitlabidentityprovider_types.go:214-216 | afterwards `GetConditions()` returns the given conditions; spec, name and every other status field are unchanged |
| `GitLabIdentityProviderTypes.CopiedSpec` | api/v1alpha1/gitlabidentityprovider_types.go:219-223 | the CA name, URL and client ID come from the remote GitLab section; client secret, mapping method, cluster name and display name are kept |
| `GitLabIdentityProviderTypes.GitLabIdentityProvider.CopyFrom` | api/v1alpha1/gitlabidentityprovider_types.go:219-223 | the spec becomes `CopiedSpec` of the old spec and the source; status and name are unchanged |
| `GitLabIdentityProviderTypes.GitLabIdentityProvider.Builder` | api/v1alpha1/gitlabidentityprovider_types.go:227-243 | the name is the display name, the mapping method is the spec's, the type is GitLab; URL and client ID come from the spec and the client secret is the argument; a CA is present iff the given CA is non-empty |
| `GitLabIdentityProviderTypes.CopyFromUndoesBuilder` | api/v1alpha1/gitlabidentityprovider_types.go:219-243 | copying back a provider that `Builder` made leaves the spec as it was iff the CA data given to `Builder` equals the spec's config-map name; with no CA configured the round trip holds, with a CA bundle it does not |
| `GitLabIdentityProviderTypes.WithDefaults` | api/v1alpha1/gitlabidentityprovider_types.go:65-71 | an omitted mapping method becomes `claim`; a given one, and every other field, is kept |
| `GitLabIdentityProviderTypes.Admit` | api/v1alpha1/gitlabidentityprovider_types.go:65-89 | an object is admitted iff its mapping method is omitted or one of claim/lookup/generate/add, its required cluster name is present, its display name is omitted or 4 to 15 characters long, and its name (rule at line 133) is at most 15 characters long; the admitted spec carries an enum mapping method, `claim` when omitted, and nothing else differs |
| `GitLabIdentityProviderTypes.AdmitIdempotent` | api/v1alpha1/gitlabidentityprovider_types.go:65-71 | admitting an admitted spec again gives the same spec |
| `GitLabIdentityProviderTypes.ImmutableOnceSet` | api/v1alpha1/gitlabidentityprovider_types.go:110-127 | an immutability rule on an optional field: when the old and the new value are both present they must be equal; when either is absent the rule does not apply |
| `GitLabIdentityProviderTypes.AdmissibleUpdate` | api/v1alpha1/gitlabidentityprovider_types.go:73-89 | an admitted update passes admission and keeps the cluster name exactly; display name and the status cluster ID, provider ID and callback URL cannot change between two present values (rules at lines 110, 117, 124); keeping all of them while passing admission is always admitted |
| `GitLabIdentityProviderTypes.CopyFromKeepsAdmissible` | api/v1alpha1/gitlabidentityprovider_types.go:219-223 | the spec `CopyFrom` leaves behind keeps the cluster name and display name exactly, and together with the unchanged status it is an admissible update of an admitted object |
| `GitLabIdentityProviderController.CreatePhaseNames` | controllers/reconcilers/gitlabidentityprovider/controller.go:82-95 | the create path declares exactly HandleUpstreamCluster, GetCurrentState, ApplyIdentityProvider, Complete in that order, and not ApplyGitLab |
| `GitLabIdentityProviderController.DeletePhaseNames` | controllers/reconcilers/gitlabidentityprovider/controller.go:115-118 | the delete path declares exactly Destroy then CompleteDestroy |
| `GitLabIdentityProviderController.Controller.ReconcileCreate` | controllers/reconcilers/gitlabidentityprovider/controller.go:67-96 | returns `CreateOutcome` and appends exactly `CreateCalls` to the call log: type check, then finalizer, then the create phases, ending at the first failing step |
| `GitLabIdentityProviderController.Controller.ReconcileUpdate` | controllers/reconcilers/gitlabidentityprovider/controller.go:101-103 | returns the outcome and makes the calls of `ReconcileCreate` for the same request |
| `GitLabIdentityProviderController.Controller.ReconcileDelete` | controllers/reconcilers/gitlabidentityprovider/controller.go:107-119 | returns `DeleteOutcome` and appends exactly `DeleteCalls`: type check, then the delete phases, no finalizer call |
| `GitLabIdentityProviderController.Controller.WrongKindRunsNothing` | controllers/reconcilers/gitlabidentityprovider/controller.go:69-72 | a request of another kind gives, on both the create and the delete path (lines 109-112), the error requeue of a type-convert error with no typed request, and that is the only call: no finalizer, no phase |
| `GitLabIdentityProviderController.Controller.FinalizerBeforePhases` | controllers/reconcilers/gitlabidentityprovider/controller.go:74-82 | on the create path the finalizer call comes first and a phase list runs only after it succeeded; when it fails the outcome is the error requeue of the finalizer error and no phase list runs |
| `GitLabIdentityProviderController.Controller.TriggersOfPaths` | controllers/reconcilers/gitlabidentityprovider/controller.go:83-118 | every phase list the create/update path runs is the create list, whose first phase handles the upstream cluster with trigger Create; the delete path never adds the finalizer and runs Destroy then CompleteDestroy |

## Left out

- The list call against the cluster inside `FindAll` is I/O. It is an input (`ListResult`), and the wrapped error keeps its cause (`ListError.Message` gives the text).
- The bodies of the phases (`HandleClusterPhase`, `GetCurrentState`, `ApplyIdentityProvider`, `Complete`, `Destroy`, `CompleteDestroy`) and of the generic helpers (adding the finalizer, the error requeue, running a phase list) are not part of this model. The helpers are collaborators given to the controller. Which phase short-circuits, and what the requeue decides, is not modelled.
- The controller's collaborators are pure functions of their arguments. A finalizer attempt that fails once and succeeds on the next delivery is modelled as two controllers, not as state. The change the finalizer makes to the object is recorded only as a call in the log.
- `Reconcile` delegates to a generic reconcile function, and `SetupWithManager` wires the controller into the manager. Neither is part of this model, because that body is not available and the rest is wiring.
- Type registration at start-up (`init`) is a global side effect and is not modelled.
- The cluster-manager connection, the cluster client, the event recorder, the logger, context cancellation and durations are runtime plumbing. They are left out. The default requeue interval of 30 seconds is not used in controller.go and is not modelled.
- Concurrency and repeated delivery of reconcile events belong to the work queue and are not modelled.
- Conditions are opaque records (type, status, reason, message). Timestamps are not modelled.
- The disabled access-token field and the disabled ApplyGitLab phase are not modelled. `CreatePhaseNames` states only that ApplyGitLab is absent.
- Admit: an explicit empty string cannot be told from an omitted field, because the model writes both as "". An explicit "" display name or mapping method is therefore admitted as if omitted, although the length rule and the enum refuse it. Conversely, an explicit "" cluster name meets the `Required` marker, which only asks that the key be present, but `Admit` refuses it as if the key were omitted.
- The data keys of the referenced secret and config map (`clientSecret`, `accessToken`, `ca.crt`) are not modelled. Only code outside this model reads them.
- `CopyFrom` reads the remote provider through nil-safe getters: an absent GitLab section or CA reads as the empty string. That is how `RemoteIdentityProvider.GitlabCA`, `GitlabURL` and `GitlabClientID` behave. The client library itself is not part of this model.
- `ContainsString` takes the list as a value. That the caller's list is not modified follows from this, not from a frame condition.
