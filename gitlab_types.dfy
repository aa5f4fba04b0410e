/** The GitLabIdentityProvider resource: its Spec and Status records, the
    accessors the generic reconciler uses, the cluster-ID filter over a
    listing, the copy from and the build towards the remote identity
    provider, and the admission rules the schema markers declare. */
module GitLabIdentityProviderTypes {
  import opened Wrappers

  /** A reference to a secret, by name. */
  datatype SecretNameReference = SecretNameReference(name: string)

  /** A reference to a config map, by name; the empty name means "none". */
  datatype ConfigMapNameReference = ConfigMapNameReference(name: string)

  /** A status condition. Its timestamp and other metadata internals are
      not modelled: the controller only stores and returns conditions. */
  datatype Condition = Condition(conditionType: string, status: string, reason: string, message: string)

  /** Desired state, as declared by the user. An omitted optional string
      field is the empty string. */
  datatype Spec = Spec(
    clientID: string,
    clientSecret: SecretNameReference,
    url: string,
    ca: ConfigMapNameReference,
    mappingMethod: string,
    clusterName: string,
    displayName: string)

  /** Observed state, as written by the controller. */
  datatype Status = Status(
    conditions: seq<Condition>,
    clusterID: string,
    providerID: string,
    callbackURL: string)

  // ---------------------------------------------------------------------
  // The remote identity-provider shape handed to the cluster-manager API.
  // ---------------------------------------------------------------------

  datatype IdentityProviderType = GitlabType | OtherType(name: string)

  /** The GitLab section of a remote identity provider; `ca` is None when
      the builder never set it. */
  datatype RemoteGitlab = RemoteGitlab(url: string, clientSecret: string, clientID: string, ca: Option<string>)

  /** A remote identity provider; `gitlab` is None when it has no GitLab
      section. The getters below read like the client library's nil-safe
      getters: an unset value reads as the empty string. */
  datatype RemoteIdentityProvider = RemoteIdentityProvider(
    mappingMethod: string,
    name: string,
    idpType: IdentityProviderType,
    gitlab: Option<RemoteGitlab>)
  {
    function GitlabCA(): (ca: string) {
      if gitlab.Some? && gitlab.value.ca.Some? then gitlab.value.ca.value else ""
    }

    function GitlabURL(): (url: string) {
      if gitlab.Some? then gitlab.value.url else ""
    }

    function GitlabClientID(): (clientID: string) {
      if gitlab.Some? then gitlab.value.clientID else ""
    }
  }

  /** The spec that CopyFrom leaves behind: the CA reference, the URL and
      the client ID come from the remote GitLab section, every other field
      is kept. */
  function CopiedSpec(spec: Spec, source: RemoteIdentityProvider): (r: Spec)
    ensures r.ca.name == source.GitlabCA() && r.url == source.GitlabURL() && r.clientID == source.GitlabClientID()
    ensures r.clientSecret == spec.clientSecret && r.mappingMethod == spec.mappingMethod
    ensures r.clusterName == spec.clusterName && r.displayName == spec.displayName
  {
    spec.(ca := ConfigMapNameReference(source.GitlabCA()), url := source.GitlabURL(), clientID := source.GitlabClientID())
  }

  // ---------------------------------------------------------------------
  // The resource itself.
  // ---------------------------------------------------------------------

  /** One GitLabIdentityProvider object. `name` is its metadata.name. */
  class GitLabIdentityProvider {
    var name: string
    var spec: Spec
    var status: Status

    constructor (name: string, spec: Spec, status: Status)
      ensures this.name == name && this.spec == spec && this.status == status
    {
      this.name := name;
      this.spec := spec;
      this.status := status;
    }

    /** The status cluster ID, as the generic workload interface reads it. */
    function GetClusterID(): (id: string)
      reads this
      ensures id == status.clusterID
    {
      status.clusterID
    }

    /** The status conditions, as the generic workload interface reads them. */
    function GetConditions(): (conditions: seq<Condition>)
      reads this
      ensures conditions == status.conditions
    {
      status.conditions
    }

    /** Replaces the status conditions and nothing else. */
    method SetConditions(conditions: seq<Condition>)
      modifies this
      ensures GetConditions() == conditions
      ensures status == old(status).(conditions := conditions)
      ensures spec == old(spec) && name == old(name)
    {
      status := status.(conditions := conditions);
    }

    /** Takes the CA reference, URL and client ID over from a remote
        identity provider; the rest of the object is left as it was. */
    method CopyFrom(source: RemoteIdentityProvider)
      modifies this
      ensures spec == CopiedSpec(old(spec), source)
      ensures status == old(status) && name == old(name)
    {
      spec := spec.(ca := ConfigMapNameReference(source.GitlabCA()));
      spec := spec.(url := source.GitlabURL());
      spec := spec.(clientID := source.GitlabClientID());
    }

    /** The remote identity provider to create from this object, given the
        resolved CA data and client secret. */
    function Builder(ca: string, clientSecret: string): (r: RemoteIdentityProvider)
      reads this
      ensures r.name == spec.displayName && r.mappingMethod == spec.mappingMethod && r.idpType == GitlabType
      ensures r.gitlab.Some?
      ensures r.gitlab.value.url == spec.url && r.gitlab.value.clientID == spec.clientID
      ensures r.gitlab.value.clientSecret == clientSecret
      ensures r.gitlab.value.ca.Some? <==> ca != ""
      ensures r.GitlabCA() == ca
    {
      var section := RemoteGitlab(spec.url, clientSecret, spec.clientID, None);
      var section := if ca != "" then section.(ca := Some(ca)) else section;
      RemoteIdentityProvider(spec.mappingMethod, spec.displayName, GitlabType, Some(section))
    }

    /** The outcome of listing every object of this kind. */
    function FindAll(listing: ListResult): (r: (seq<GitLabIdentityProvider>, Option<ListError>))
      ensures listing.Listed? ==> r == (listing.items, None)
      ensures listing.ListFailed? ==> r.0 == [] && r.1 == Some(ListError(listing.cause))
    {
      match listing
      case Listed(items) => (items, None)
      case ListFailed(cause) => ([], Some(ListError(cause)))
    }

    /** The listed objects whose status cluster ID is `clusterID`, in list
        order, each one an element of the listing; a listing failure gives
        no matches and the wrapped error. */
    method FindAllByClusterID(listing: ListResult, clusterID: string)
      returns (matches: seq<GitLabIdentityProvider>, err: Option<ListError>)
      ensures err == FindAll(listing).1
      ensures listing.ListFailed? ==> matches == []
      ensures listing.Listed? ==> matches == MatchesOf(listing.items, clusterID)
      ensures forall o :: o in matches <==> o in FindAll(listing).0 && o.GetClusterID() == clusterID
    {
      var found := FindAll(listing);
      var objects := found.0;
      err := found.1;
      if err.Some? {
        return [], err;
      }

      matches := [];
      for i := 0 to |objects|
        invariant matches == MatchesOf(objects[..i], clusterID)
      {
        if objects[i].status.clusterID == clusterID {
          matches := matches + [objects[i]];
        }
        assert objects[..i + 1][..i] == objects[..i];
      }
      assert objects[..|objects|] == objects;
      MatchesOfMembership(objects, clusterID);
    }

    /** Whether any listed object carries `clusterID` in its status; the
        listing error, if any, is passed on. */
    method ExistsForClusterID(listing: ListResult, clusterID: string) returns (found: bool, err: Option<ListError>)
      ensures found <==> listing.Listed? && exists i :: 0 <= i < |listing.items| && listing.items[i].status.clusterID == clusterID
      ensures err == FindAll(listing).1
    {
      var objects;
      objects, err := FindAllByClusterID(listing, clusterID);
      found := |objects| > 0;
      if listing.Listed? {
        MatchesOfNonEmpty(listing.items, clusterID);
      }
    }
  }

  const ListErrorPrefix: string := "unable to retrieve gitlab identity providers - "

  /** The error FindAll wraps a listing failure in. */
  datatype ListError = ListError(cause: string) {
    function Message(): (text: string)
      ensures |text| == |ListErrorPrefix| + |cause|
      ensures text[..|ListErrorPrefix|] == ListErrorPrefix
      ensures text[|ListErrorPrefix|..] == cause
    {
      ListErrorPrefix + cause
    }
  }

  /** What the list call against the cluster returns. */
  datatype ListResult = Listed(items: seq<GitLabIdentityProvider>) | ListFailed(cause: string)

  // ---------------------------------------------------------------------
  // The filter of FindAllByClusterID, as a reference definition.
  // ---------------------------------------------------------------------

  /** The objects of `objects` whose status cluster ID is `clusterID`,
      kept in list order. */
  function MatchesOf(objects: seq<GitLabIdentityProvider>, clusterID: string): (matches: seq<GitLabIdentityProvider>)
    reads set o | o in objects
    decreases |objects|
  {
    if objects == [] then []
    else
      var last := objects[|objects| - 1];
      MatchesOf(objects[..|objects| - 1], clusterID) + (if last.status.clusterID == clusterID then [last] else [])
  }

  /** The indices of `objects` whose status cluster ID is `clusterID`, in
      increasing order. */
  function MatchIndices(objects: seq<GitLabIdentityProvider>, clusterID: string): (indices: seq<nat>)
    reads set o | o in objects
    decreases |objects|
  {
    if objects == [] then []
    else
      var n := |objects| - 1;
      MatchIndices(objects[..n], clusterID) + (if objects[n].status.clusterID == clusterID then [n] else [])
  }

  /** A match is exactly a listed object carrying the cluster ID. */
  lemma {:induction false} MatchesOfMembership(objects: seq<GitLabIdentityProvider>, clusterID: string)
    ensures forall o :: o in MatchesOf(objects, clusterID) ==> o in objects && o.status.clusterID == clusterID
    ensures forall o :: o in objects && o.status.clusterID == clusterID ==> o in MatchesOf(objects, clusterID)
    decreases |objects|
  {
    if objects != [] {
      var n := |objects| - 1;
      MatchesOfMembership(objects[..n], clusterID);
      assert objects == objects[..n] + [objects[n]];
    }
  }

  /** There are matches exactly when some index carries the cluster ID. */
  lemma MatchesOfNonEmpty(objects: seq<GitLabIdentityProvider>, clusterID: string)
    ensures MatchesOf(objects, clusterID) != [] <==> exists i :: 0 <= i < |objects| && objects[i].status.clusterID == clusterID
  {
    MatchesOfMembership(objects, clusterID);
  }

  /** The matches are the listed objects at strictly increasing indices,
      and those indices are exactly the ones carrying the cluster ID: the
      filter keeps list order and multiplicity and adds nothing. */
  lemma {:induction false} MatchesOfKeepsOrder(objects: seq<GitLabIdentityProvider>, clusterID: string)
    ensures var m, idx := MatchesOf(objects, clusterID), MatchIndices(objects, clusterID);
      |idx| == |m|
      && (forall k :: 0 <= k < |idx| ==> idx[k] < |objects| && m[k] == objects[idx[k]])
      && (forall k, l :: 0 <= k < l < |idx| ==> idx[k] < idx[l])
      && (forall i :: i in idx <==> 0 <= i < |objects| && objects[i].status.clusterID == clusterID)
    decreases |objects|
  {
    if objects != [] {
      var n := |objects| - 1;
      MatchesOfKeepsOrder(objects[..n], clusterID);
    }
  }

  // ---------------------------------------------------------------------
  // Admission rules declared by the schema markers.
  // ---------------------------------------------------------------------

  const MappingMethods: set<string> := {"claim", "lookup", "generate", "add"}
  const DefaultMappingMethod: string := "claim"
  const MaxNameLength: nat := 15
  const MinDisplayNameLength: nat := 4
  const MaxDisplayNameLength: nat := 15

  /** The spec as admission stores it: an omitted mapping method becomes
      the default. */
  function WithDefaults(spec: Spec): (r: Spec)
    ensures r.mappingMethod == (if spec.mappingMethod == "" then DefaultMappingMethod else spec.mappingMethod)
    ensures r.(mappingMethod := spec.mappingMethod) == spec
  {
    if spec.mappingMethod == "" then spec.(mappingMethod := DefaultMappingMethod) else spec
  }

  /** The per-object rules: the mapping method is one of the enum values,
      the required cluster name is present, a display name that is set is
      4 to 15 characters long, and the object name is at most 15
      characters long. */
  predicate Valid(name: string, spec: Spec) {
    && spec.mappingMethod in MappingMethods
    && spec.clusterName != ""
    && (spec.displayName != "" ==> MinDisplayNameLength <= |spec.displayName| <= MaxDisplayNameLength)
    && |name| <= MaxNameLength
  }

  /** Admission of a new object: defaults first, then the rules; None
      means the object is refused. */
  function Admit(name: string, spec: Spec): (r: Option<Spec>)
    ensures r.Some? <==>
      && (spec.mappingMethod == "" || spec.mappingMethod in {"claim", "lookup", "generate", "add"})
      && spec.clusterName != ""
      && (spec.displayName == "" || 4 <= |spec.displayName| <= 15)
      && |name| <= 15
    ensures r.Some? ==> r.value.mappingMethod in {"claim", "lookup", "generate", "add"}
    ensures r.Some? && spec.mappingMethod == "" ==> r.value.mappingMethod == "claim"
    ensures r.Some? ==> r.value.(mappingMethod := spec.mappingMethod) == spec
  {
    var defaulted := WithDefaults(spec);
    if Valid(name, defaulted) then Some(defaulted) else None
  }

  /** A field marked immutable may not change value; the rule compares
      the old and new values only when both are present, and an omitted
      string field is absent. */
  function ImmutableOnceSet(before: string, after: string): (ok: bool)
    ensures before != "" && after != "" ==> (ok <==> before == after)
    ensures before == "" || after == "" ==> ok
  {
    before == "" || after == "" || before == after
  }

  /** An update is admitted when the new object passes the per-object
      rules and keeps every field marked immutable. The cluster name is
      required, so both values are present and must be equal. */
  function AdmissibleUpdate(oldSpec: Spec, oldStatus: Status, name: string, newSpec: Spec, newStatus: Status): (ok: bool)
    ensures ok ==> Admit(name, newSpec).Some? && newSpec.clusterName == oldSpec.clusterName
    ensures ok && oldSpec.displayName != "" && newSpec.displayName != "" ==> newSpec.displayName == oldSpec.displayName
    ensures ok && oldStatus.clusterID != "" && newStatus.clusterID != "" ==> newStatus.clusterID == oldStatus.clusterID
    ensures ok && oldStatus.providerID != "" && newStatus.providerID != "" ==> newStatus.providerID == oldStatus.providerID
    ensures ok && oldStatus.callbackURL != "" && newStatus.callbackURL != "" ==> newStatus.callbackURL == oldStatus.callbackURL
    ensures (Admit(name, newSpec).Some? && newSpec.clusterName == oldSpec.clusterName
             && newSpec.displayName == oldSpec.displayName && newStatus == oldStatus) ==> ok
  {
    && Admit(name, newSpec).Some?
    && oldSpec.clusterName == newSpec.clusterName
    && ImmutableOnceSet(oldSpec.displayName, newSpec.displayName)
    && ImmutableOnceSet(oldStatus.clusterID, newStatus.clusterID)
    && ImmutableOnceSet(oldStatus.providerID, newStatus.providerID)
    && ImmutableOnceSet(oldStatus.callbackURL, newStatus.callbackURL)
  }

  /** Admission is idempotent: an admitted spec is admitted again as it is. */
  lemma AdmitIdempotent(name: string, spec: Spec)
    requires Admit(name, spec).Some?
    ensures Admit(name, Admit(name, spec).value) == Admit(name, spec)
  {
  }

  /** CopyFrom keeps the cluster name, the display name and the status
      exactly as they were, and the per-object rules do not look at the
      fields it copies, so an admitted object stays admissible as an
      update after it. */
  lemma CopyFromKeepsAdmissible(name: string, spec: Spec, status: Status, source: RemoteIdentityProvider)
    requires Admit(name, spec) == Some(spec)
    ensures CopiedSpec(spec, source).clusterName == spec.clusterName
    ensures CopiedSpec(spec, source).displayName == spec.displayName
    ensures AdmissibleUpdate(spec, status, name, CopiedSpec(spec, source), status)
  {
  }

  /** Copying back a remote identity provider built from an object leaves
      the spec as it was exactly when the CA data given to the builder is
      the spec's config-map name. CopyFrom stores the remote CA data in the
      config-map name field, so with no CA configured (name and data both
      empty) the round trip holds, and with a CA bundle it does not. */
  lemma CopyFromUndoesBuilder(g: GitLabIdentityProvider, ca: string, clientSecret: string)
    ensures CopiedSpec(g.spec, g.Builder(ca, clientSecret)) == g.spec <==> ca == g.spec.ca.name
  {
  }
}
