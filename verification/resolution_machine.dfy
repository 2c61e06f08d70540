/** The resolution orchestrator as a state machine, one state per decision
    point of `getPullConfig`, run to a terminal state. The trace of states visited shows
    which reads a resolution performs; the lemmas prove that the direct
    cascade of `getPullConfig` decides exactly as the machine does. */
module ResolutionMachine {
  import opened Wrappers
  import opened Json
  import opened Schema
  import opened PullConfigCascade

  /** The inputs of one resolution. */
  datatype Inputs = Inputs(repository: Repository, liveConfig: Option<JsValue>, forkRead: Option<Repository>,
                         validate: Validator, defaultMergeMethod: string)

  datatype State =
    | Start                        // metadata not yet read
    | ArchivedCheck                // metadata read, archived flag under test
    | LiveFetch                    // about to read and validate the control file
    | LiveFound(config: PullConfig)
    | LiveAbsent                   // no live configuration: fork flag under test
    | Synthesis                    // about to read metadata again and synthesise
    | Skipped
    | UseLive(config: PullConfig)
    | UseDefault(config: PullConfig)
    | Failed(message: string)

  predicate Terminal(s: State) {
    s.Skipped? || s.UseLive? || s.UseDefault? || s.Failed?
  }

  /** How far a state is from termination, at most. */
  function Rank(s: State): nat {
    match s
    case Start => 5
    case ArchivedCheck => 4
    case LiveFetch => 3
    case LiveFound(_) => 2
    case LiveAbsent => 2
    case Synthesis => 1
    case _ => 0
  }

  /** One transition: the decision `getPullConfig` takes in state `s`. */
  function Step(s: State, inputs: Inputs): (t: State)
    requires !Terminal(s)
    ensures Rank(t) < Rank(s)
  {
    match s
    case Start => ArchivedCheck
    case ArchivedCheck => if inputs.repository.archived then Skipped else LiveFetch
    case LiveFetch =>
      (match GetLivePullConfig(inputs.liveConfig, inputs.validate)
       case Skip => LiveAbsent
       case Use(config) => LiveFound(config)
       case Fail(message) => Failed(message))
    case LiveFound(config) => UseLive(config)
    case LiveAbsent => if inputs.repository.fork then Synthesis else Skipped
    case Synthesis =>
      (match GetDefaultPullConfig(inputs.forkRead, inputs.validate, inputs.defaultMergeMethod)
       case Skip => Skipped
       case Use(config) => UseDefault(config)
       case Fail(message) => Failed(message))
  }

  /** The states visited from `s` up to and including a terminal one. */
  function Trace(s: State, inputs: Inputs): (t: seq<State>)
    ensures 0 < |t| <= Rank(s) + 1
    ensures t[0] == s && Terminal(t[|t| - 1])
    ensures forall i :: 0 <= i < |t| - 1 ==> !Terminal(t[i])
    decreases Rank(s)
  {
    if Terminal(s) then [s] else [s] + Trace(Step(s, inputs), inputs)
  }

  /** The verdict a terminal state stands for. */
  function Verdict(s: State): Outcome
    requires Terminal(s)
  {
    match s
    case Skipped => Skip
    case UseLive(config) => Use(config)
    case UseDefault(config) => Use(config)
    case Failed(message) => Fail(message)
  }

  /** The final state of a resolution. */
  function Resolve(inputs: Inputs): (s: State)
    ensures Terminal(s)
  {
    var t := Trace(Start, inputs);
    t[|t| - 1]
  }

  function Cascade(inputs: Inputs): Outcome {
    GetPullConfig(inputs.repository, inputs.liveConfig, inputs.forkRead, inputs.validate, inputs.defaultMergeMethod)
  }

  /** The states visited from `LiveFetch` on. */
  lemma {:induction false} TraceFromLiveFetch(inputs: Inputs)
    ensures Trace(LiveFetch, inputs) ==
      match GetLivePullConfig(inputs.liveConfig, inputs.validate)
      case Use(config) => [LiveFetch, LiveFound(config), UseLive(config)]
      case Fail(message) => [LiveFetch, Failed(message)]
      case Skip =>
        if inputs.repository.fork then [LiveFetch, LiveAbsent, Synthesis, Step(Synthesis, inputs)]
        else [LiveFetch, LiveAbsent, Skipped]
  {
  }

  /** The states visited by a whole resolution. */
  lemma {:induction false} TraceFromStart(inputs: Inputs)
    ensures Trace(Start, inputs) ==
      if inputs.repository.archived then [Start, ArchivedCheck, Skipped]
      else [Start, ArchivedCheck] + Trace(LiveFetch, inputs)
  {
  }

  /** The cascade of `getPullConfig` reaches the verdict the state machine
      reaches, on every input. */
  lemma MachineMatchesCascade(inputs: Inputs)
    ensures Verdict(Resolve(inputs)) == Cascade(inputs)
  {
    TraceFromStart(inputs);
    TraceFromLiveFetch(inputs);
  }

  /** The control file is read exactly when the repository is not archived. */
  lemma LiveReadOnlyWhenActive(inputs: Inputs)
    ensures LiveFetch in Trace(Start, inputs) <==> !inputs.repository.archived
  {
    TraceFromStart(inputs);
    TraceFromLiveFetch(inputs);
  }

  /** Synthesis (and with it the second metadata read) is attempted exactly
      when the repository is an active fork that declares no live
      configuration; a live configuration, valid or not, rules it out. */
  lemma SynthesisOnlyForUnconfiguredForks(inputs: Inputs)
    ensures Synthesis in Trace(Start, inputs) <==>
      !inputs.repository.archived && !Declared(inputs.liveConfig) && inputs.repository.fork
  {
    TraceFromStart(inputs);
    TraceFromLiveFetch(inputs);
  }
}
