/** The configuration-resolution cascade of `src/utils/get-pull-config.ts`:
    for one repository, decide whether upstream syncing applies and with which
    configuration. The three remote reads become inputs: the repository
    metadata read first, the parsed control file (`None` when none was
    found), and the metadata read a second time inside synthesis, which may
    disagree with the first. The schema validator is an opaque function. */
module PullConfigCascade {
  import opened Wrappers
  import opened Json
  import opened Schema

  const InvalidConfig := "Invalid config"
  const InvalidDefaultConfig := "Invalid default config"
  /** The schema revision a synthesised configuration declares. */
  const DefaultVersion := "1"

  /** The owner account of a parent repository. */
  datatype Owner = Owner(login: Option<string>)

  /** The repository a fork was made from. */
  datatype Parent = Parent(owner: Option<Owner>, defaultBranch: Option<string>)

  /** One snapshot of repository metadata. */
  datatype Repository = Repository(archived: bool, fork: bool, parent: Option<Parent>)

  /** What a resolution step yields: `Skip` is the program's `null` (not
      configured, archived, not eligible), `Use` a schema-valid configuration,
      `Fail` the error thrown when a configuration object fails validation. */
  datatype Outcome = Skip | Use(config: PullConfig) | Fail(message: string)

  /** The schema validator: the typed configuration, or `None` on failure. */
  type Validator = JsValue -> Option<PullConfig>

  /** A configuration the validator produces from some object. */
  ghost predicate SchemaValid(config: PullConfig, validate: Validator) {
    exists x :: validate(x) == Some(config)
  }

  // ---------------------------------------------------------------------------
  // Live configuration

  /** The control file declares a configuration: it parsed to an object whose
      `version` member is truthy. */
  predicate Declared(config: Option<JsValue>) {
    && config.Some?
    && config.value.JObject?
    && "version" in config.value.fields
    && Truthy(config.value.fields["version"])
  }

  /** `getLivePullConfig`: a file that declares no configuration is "not
      found" and never reaches the validator; a declared one is validated,
      and a rejection is fatal. */
  function GetLivePullConfig(config: Option<JsValue>, validate: Validator): (r: Outcome)
    ensures r.Skip? <==> !Declared(config)
    ensures r.Fail? <==> Declared(config) && validate(config.value).None?
    ensures r.Fail? ==> r.message == InvalidConfig
    ensures r.Use? ==> validate(config.value) == Some(r.config)
  {
    if !IsTruthy(config) || !IsTruthy(Member(config.value, "version")) then
      Skip
    else
      match validate(config.value)
      case None => Fail(InvalidConfig)
      case Some(parsed) => Use(parsed)
  }

  // ---------------------------------------------------------------------------
  // Default configuration

  /** The parent a fork of upstream `u` reports. */
  function ParentOf(u: Upstream): Parent {
    Parent(Some(Owner(Some(u.owner))), Some(u.branch))
  }

  /** The second metadata read shows a fork of upstream `u`, with a non-empty
      owner login and a non-empty default branch. */
  predicate Names(data: Option<Repository>, u: Upstream) {
    && data.Some?
    && data.value.fork
    && data.value.parent == Some(ParentOf(u))
    && u.owner != ""
    && u.branch != ""
  }

  /** The eligibility test of synthesis, with JavaScript truthiness: a missing
      response body, owner, login or branch and an empty login or branch all
      make the repository ineligible. The upstream found is exactly the one
      the metadata names. */
  function SyncSource(data: Option<Repository>): (r: Option<Upstream>)
    ensures r.Some? ==> Names(data, r.value)
    ensures forall u :: Names(data, u) ==> r == Some(u)
  {
    if data.Some? && data.value.fork && data.value.parent.Some? then
      var parent := data.value.parent.value;
      var upstreamOwner := if parent.owner.Some? then parent.owner.value.login else None;
      var defaultBranch := parent.defaultBranch;
      if StringTruthy(upstreamOwner) && StringTruthy(defaultBranch) then
        Some(Upstream(upstreamOwner.value, defaultBranch.value))
      else
        None
    else
      None
  }

  /** The untyped object synthesis hands to the validator. */
  function DefaultCandidate(u: Upstream, defaultMergeMethod: string): JsValue {
    JObject(map[
      "version" := JString(DefaultVersion),
      "rules" := JArray([JObject(map[
        "base" := JString(u.branch),
        "upstream" := JString(UpstreamRef(u)),
        "mergeMethod" := JString(defaultMergeMethod)])])])
  }

  /** The typed configuration synthesis means to produce for upstream `u`. */
  function DefaultConfig(u: Upstream, defaultMergeMethod: string): PullConfig {
    PullConfig(DefaultVersion, [SyncRule(u.branch, UpstreamRef(u), defaultMergeMethod)])
  }

  /** `getDefaultPullConfig`: `Skip` exactly when the second read names no
      upstream; otherwise the validator's verdict on the candidate for that
      upstream, a rejection being fatal. */
  function GetDefaultPullConfig(data: Option<Repository>, validate: Validator, defaultMergeMethod: string): (r: Outcome)
    ensures r.Skip? <==> forall u :: !Names(data, u)
    ensures forall u :: Names(data, u) ==> (r.Fail? <==> validate(DefaultCandidate(u, defaultMergeMethod)).None?)
    ensures forall u :: Names(data, u) && r.Use? ==> validate(DefaultCandidate(u, defaultMergeMethod)) == Some(r.config)
    ensures r.Fail? ==> r.message == InvalidDefaultConfig
  {
    match SyncSource(data)
    case None => Skip
    case Some(u) =>
      match validate(DefaultCandidate(u, defaultMergeMethod))
      case None => Fail(InvalidDefaultConfig)
      case Some(parsed) => Use(parsed)
  }

  // ---------------------------------------------------------------------------
  // Orchestration

  /** `getPullConfig`: archived repositories are skipped before anything else
      is read; a declared live configuration decides alone (used as the
      validator returns it, or fatal); otherwise non-forks are skipped and
      forks get the synthesised default, judged on the second metadata read.
      Whatever is used is schema-valid. */
  function GetPullConfig(repository: Repository, liveConfig: Option<JsValue>, forkRead: Option<Repository>,
                         validate: Validator, defaultMergeMethod: string): (r: Outcome)
    ensures repository.archived ==> r == Skip
    ensures !repository.archived && Declared(liveConfig) ==>
      r == (if validate(liveConfig.value).Some? then Use(validate(liveConfig.value).value) else Fail(InvalidConfig))
    ensures !repository.archived && !Declared(liveConfig) && !repository.fork ==> r == Skip
    ensures !repository.archived && !Declared(liveConfig) && repository.fork ==>
      r == GetDefaultPullConfig(forkRead, validate, defaultMergeMethod)
    ensures r.Use? ==> SchemaValid(r.config, validate)
    ensures r.Fail? ==> r.message == InvalidConfig || r.message == InvalidDefaultConfig
  {
    if repository.archived then
      Skip
    else
      var config := GetLivePullConfig(liveConfig, validate);
      if config.Skip? && !repository.fork then
        Skip
      else if config.Skip? then
        GetDefaultPullConfig(forkRead, validate, defaultMergeMethod)
      else
        config
  }

  // ---------------------------------------------------------------------------
  // Properties

  /** An archived repository is skipped whatever the control file, the second
      metadata read, the validator and the merge method: none is consulted. */
  lemma ArchivedConsultsNothing(repository: Repository,
                                live1: Option<JsValue>, fork1: Option<Repository>, validate1: Validator, method1: string,
                                live2: Option<JsValue>, fork2: Option<Repository>, validate2: Validator, method2: string)
    requires repository.archived
    ensures GetPullConfig(repository, live1, fork1, validate1, method1) == Skip
    ensures GetPullConfig(repository, live1, fork1, validate1, method1) == GetPullConfig(repository, live2, fork2, validate2, method2)
  {
  }

  /** The test `!config || !config.version` lets a control file through
      exactly when it declares a configuration. */
  lemma VersionTestIsDeclared(config: Option<JsValue>)
    ensures (IsTruthy(config) && IsTruthy(Member(config.value, "version"))) <==> Declared(config)
  {
  }

  /** A control file without a truthy `version` is "not found" for every
      validator: the validator is not consulted. */
  lemma UndeclaredIgnoresValidator(config: Option<JsValue>, validate1: Validator, validate2: Validator)
    requires !Declared(config)
    ensures GetLivePullConfig(config, validate1) == Skip
    ensures GetLivePullConfig(config, validate1) == GetLivePullConfig(config, validate2)
  {
  }

  /** An empty-string `version` counts as absent, as does any falsy one. */
  lemma FalsyVersionIsNotFound(fields: map<string, JsValue>, validate: Validator)
    requires "version" in fields
    requires fields["version"] in {JString(""), JNull, JBool(false), JNumber(0.0)}
    ensures GetLivePullConfig(Some(JObject(fields)), validate) == Skip
  {
  }

  /** A declared live configuration the validator rejects is fatal, whatever
      the second metadata read says: synthesis is no fallback. */
  lemma InvalidLiveConfigIsFatal(repository: Repository, liveConfig: Option<JsValue>, forkRead: Option<Repository>,
                                 validate: Validator, defaultMergeMethod: string)
    requires !repository.archived && Declared(liveConfig)
    requires validate(liveConfig.value).None?
    ensures GetPullConfig(repository, liveConfig, forkRead, validate, defaultMergeMethod) == Fail(InvalidConfig)
  {
  }

  /** A declared live configuration the validator accepts is used exactly as
      the validator returns it, whatever the second metadata read says. */
  lemma LiveConfigPassesThrough(repository: Repository, liveConfig: Option<JsValue>, forkRead: Option<Repository>,
                                validate: Validator, defaultMergeMethod: string, parsed: PullConfig)
    requires !repository.archived && Declared(liveConfig)
    requires validate(liveConfig.value) == Some(parsed)
    ensures GetPullConfig(repository, liveConfig, forkRead, validate, defaultMergeMethod) == Use(parsed)
  {
  }

  /** Eligibility is judged on the second metadata read alone: a repository
      the first read calls a fork is skipped when the second read does not. */
  lemma SecondReadDecidesEligibility(repository: Repository, liveConfig: Option<JsValue>, forkRead: Option<Repository>,
                                     validate: Validator, defaultMergeMethod: string)
    requires !repository.archived && repository.fork && !Declared(liveConfig)
    requires forkRead.Some? && !forkRead.value.fork
    ensures GetPullConfig(repository, liveConfig, forkRead, validate, defaultMergeMethod) == Skip
  {
  }

  /** The synthesised candidate is the encoding of the intended default: one
      rule that syncs the parent's default branch from `owner:branch` with the
      default merge method. */
  lemma {:induction false} DefaultCandidateEncodes(u: Upstream, defaultMergeMethod: string)
    ensures DefaultCandidate(u, defaultMergeMethod) == Encode(DefaultConfig(u, defaultMergeMethod))
    ensures |DefaultConfig(u, defaultMergeMethod).rules| == 1
    ensures DefaultConfig(u, defaultMergeMethod).version == "1"
    ensures DefaultConfig(u, defaultMergeMethod).rules[0].base == u.branch
    ensures DefaultConfig(u, defaultMergeMethod).rules[0].upstream == u.owner + ":" + u.branch
    ensures DefaultConfig(u, defaultMergeMethod).rules[0].mergeMethod == defaultMergeMethod
  {
    var config := DefaultConfig(u, defaultMergeMethod);
    var encoded := seq(|config.rules|, i requires 0 <= i < |config.rules| => EncodeRule(config.rules[i]));
    assert encoded == [EncodeRule(config.rules[0])];
  }

  /** The default rule's upstream reference splits back into the parent's
      owner and default branch whenever the login has no colon, as no
      account login does. */
  lemma DefaultUpstreamSplitsBack(u: Upstream, defaultMergeMethod: string)
    requires ':' !in u.owner
    ensures SplitUpstream(DefaultConfig(u, defaultMergeMethod).rules[0].upstream) == Some(u)
  {
    SplitUpstreamRef(u);
  }

  /** A non-archived fork without a declared live configuration, whose second
      read names upstream `u`, resolves to the intended default whenever the
      validator reads encoded configurations faithfully. */
  lemma ForkResolvesToDefault(repository: Repository, liveConfig: Option<JsValue>, forkRead: Option<Repository>,
                              validate: Validator, defaultMergeMethod: string, u: Upstream)
    requires !repository.archived && repository.fork && !Declared(liveConfig)
    requires Names(forkRead, u)
    requires validate(Encode(DefaultConfig(u, defaultMergeMethod))) == Some(DefaultConfig(u, defaultMergeMethod))
    ensures GetPullConfig(repository, liveConfig, forkRead, validate, defaultMergeMethod) == Use(DefaultConfig(u, defaultMergeMethod))
  {
    DefaultCandidateEncodes(u, defaultMergeMethod);
  }

  /** A rejected synthesised candidate is fatal, never a skip. */
  lemma InvalidDefaultIsFatal(repository: Repository, liveConfig: Option<JsValue>, forkRead: Option<Repository>,
                              validate: Validator, defaultMergeMethod: string, u: Upstream)
    requires !repository.archived && repository.fork && !Declared(liveConfig)
    requires Names(forkRead, u)
    requires validate(DefaultCandidate(u, defaultMergeMethod)).None?
    ensures GetPullConfig(repository, liveConfig, forkRead, validate, defaultMergeMethod) == Fail(InvalidDefaultConfig)
  {
  }

  /** A fork whose second read lacks a parent, an owner, a login or a default
      branch, or has an empty login or branch, is skipped. */
  lemma IneligibleForkIsSkipped(repository: Repository, liveConfig: Option<JsValue>, forkRead: Option<Repository>,
                                validate: Validator, defaultMergeMethod: string)
    requires !repository.archived && repository.fork && !Declared(liveConfig)
    requires forkRead.Some? && forkRead.value.fork
    requires || forkRead.value.parent.None?
             || forkRead.value.parent.value.owner.None?
             || forkRead.value.parent.value.owner.value.login in {None, Some("")}
             || forkRead.value.parent.value.defaultBranch in {None, Some("")}
    ensures GetPullConfig(repository, liveConfig, forkRead, validate, defaultMergeMethod) == Skip
  {
  }
}
