# Pull configuration resolution, modelled in Dafny

This project models how the pull app resolves, for one repository, the
configuration that governs automated syncing with an upstream repository
(`src/utils/get-pull-config.ts`). There are three verdicts:

- skip (`null`): the repository is archived, has no live configuration and
  is not a fork, or is a fork that names no usable upstream;
- use a configuration: either the live one from the repository's control
  file or a default synthesised from the fork's parent;
- fail: the error thrown when a configuration object does not pass the
  schema validator.

The model is pure. The three remote reads become plain inputs:

- the repository metadata read first;
- the parsed control file, `None` when none was found;
- the metadata read again inside synthesis, which may disagree with the
  first read.

The schema validator is an opaque function parameter `JsValue -> Option<PullConfig>`.
The default merge method is a parameter.

Files:

- `wrappers.dfy`: `Option`.
- `json.dfy`: parsed document values with JavaScript truthiness and member
  access. `null`, `false`, `0` and `""` are falsy, and every object is truthy.
- `schema.dfy`: `SyncRule`, `PullConfig`, and the `owner:branch` upstream
  reference with its inverse `SplitUpstream`. It also holds `Encode`, which
  writes a typed configuration as the untyped object the validator reads.
- `pull_config.dfy`: the cascade itself (`GetLivePullConfig`,
  `GetDefaultPullConfig`, `GetPullConfig`) and its properties.
- `resolution_machine.dfy`: the orchestration written as a state machine,
  one state per decision point of `getPullConfig`. Its lemmas prove that the cascade
  reaches the machine's verdict on every input, and they say which reads
  each run performs.

The live configuration counts as not found in more cases than a missing
`version` field. `!config.version` also treats a present but falsy
`version` (`""`, `0`, `false`, `null`) as not found, and so is a control
file that is falsy or not an object. `Declared` states this, and
`VersionTestIsDeclared` proves it equivalent to the test the code makes.

## Model

| member | source | states |
|---|---|---|
| PullConfigCascade.GetLivePullConfig | src/utils/get-pull-config.ts:6-35 | not found (skip) exactly when the control file is not an object with a truthy `version`. Otherwise the validator decides: a rejection fails with "Invalid config", and an acceptance returns the validator's output |
| Json.Truthy | src/utils/get-pull-config.ts:22 | JavaScript truthiness of a parsed value, the `!x` tests at lines 22, 51 and 56 |
| Json.FalsyValues | src/utils/get-pull-config.ts:22 | the falsy values are exactly `null`, `false`, `0` and the empty string; arrays and objects, even empty ones, are truthy |
| Json.Member | src/utils/get-pull-config.ts:22 | `config.version`: an object's own member, `undefined` for every other value |
| PullConfigCascade.VersionTestIsDeclared | src/utils/get-pull-config.ts:22 | the test `!config \|\| !config.version` lets a control file through exactly when it is an object with a truthy `version` member |
| PullConfigCascade.UndeclaredIgnoresValidator | src/utils/get-pull-config.ts:22-24 | a control file with no truthy `version` is skipped under every validator, so the validator is not consulted |
| PullConfigCascade.FalsyVersionIsNotFound | src/utils/get-pull-config.ts:22-24 | an empty-string, `null`, `false` or `0` version counts as absent |
| PullConfigCascade.InvalidLiveConfigIsFatal | src/utils/get-pull-config.ts:29-31 | an active repository whose declared live configuration is rejected resolves to the "Invalid config" failure, whatever the second metadata read says; there is no fallback to synthesis |
| PullConfigCascade.LiveConfigPassesThrough | src/utils/get-pull-config.ts:100-107 | an accepted live configuration is the result, exactly as the validator returned it, whatever the second metadata read says |
| PullConfigCascade.SyncSource | src/utils/get-pull-config.ts:51-56 | an upstream is found exactly when the second read is present and is a fork whose parent has a non-empty owner login and a non-empty default branch. The upstream found is the one the parent names |
| PullConfigCascade.GetDefaultPullConfig | src/utils/get-pull-config.ts:37-82 | skip exactly when the second read names no upstream. Otherwise it fails with "Invalid default config" exactly when the validator rejects that upstream's candidate, and else returns the validator's output |
| PullConfigCascade.IneligibleForkIsSkipped | src/utils/get-pull-config.ts:51-81 | a fork whose second read lacks a parent, owner, login or default branch, or has an empty login or branch, is skipped |
| PullConfigCascade.SecondReadDecidesEligibility | src/utils/get-pull-config.ts:46-51 | eligibility is judged on the second metadata read: a repository the first read calls a fork is skipped when the second read does not |
| PullConfigCascade.DefaultCandidate | src/utils/get-pull-config.ts:61-70 | the object literal synthesis hands to the validator |
| PullConfigCascade.DefaultCandidateEncodes | src/utils/get-pull-config.ts:61-70 | for every upstream, the synthesised object encodes version "1" and exactly one rule. The rule's base is the parent's default branch, its upstream is `owner:branch`, and its merge method is the default |
| PullConfigCascade.DefaultUpstreamSplitsBack | src/utils/get-pull-config.ts:66 | the default rule's upstream reference splits back into the parent's owner and default branch whenever the login has no colon |
| PullConfigCascade.ForkResolvesToDefault | src/utils/get-pull-config.ts:61-77 | an active fork with no declared live configuration, whose second read names an upstream, resolves to that one-rule default whenever the validator decodes encoded configurations faithfully |
| PullConfigCascade.InvalidDefaultIsFatal | src/utils/get-pull-config.ts:72-75 | a rejected synthesised candidate gives the "Invalid default config" failure, never a skip |
| PullConfigCascade.GetPullConfig | src/utils/get-pull-config.ts:84-108 | archived means skip. A declared live configuration decides alone. Otherwise a non-fork is skipped and a fork gets the synthesised default. Every configuration used is one the validator produced, and every failure is one of the two validation errors |
| PullConfigCascade.ArchivedConsultsNothing | src/utils/get-pull-config.ts:95-98 | an archived repository is skipped whatever the control file, second read, validator and merge method |
| Schema.SplitUpstream | src/utils/get-pull-config.ts:66 | inverse of the upstream reference: a split result rebuilds the reference, and the split fails exactly when there is no colon |
| Schema.SplitUpstreamRef | src/utils/get-pull-config.ts:66 | splitting `owner:branch` recovers owner and branch when the owner has no colon |
| Schema.UpstreamRefInjective | src/utils/get-pull-config.ts:66 | two upstreams whose owners have no colon and whose references are equal are the same upstream |
| ResolutionMachine.TraceFromStart | src/utils/get-pull-config.ts:93-100 | a resolution first reads metadata and tests `archived`; an archived repository stops there, skipped |
| ResolutionMachine.TraceFromLiveFetch | src/utils/get-pull-config.ts:100-107 | the states visited after the control file is read: live used, live rejected, non-fork skipped, or synthesis for a fork |
| ResolutionMachine.MachineMatchesCascade | src/utils/get-pull-config.ts:84-108 | on every input, the cascade's verdict is the verdict of the orchestration state machine |
| ResolutionMachine.LiveReadOnlyWhenActive | src/utils/get-pull-config.ts:95-100 | the control file is read exactly when the repository is not archived |
| ResolutionMachine.SynthesisOnlyForUnconfiguredForks | src/utils/get-pull-config.ts:100-105 | synthesis, and with it the second metadata read, happens exactly for active forks that declare no live configuration |

## Left out

- The remote reads (`octokit.rest.repos.get`, `octokit.config.get`, `octokit.repos.get`) and `async`/`await`: their results are inputs. Failures of these reads propagate unchanged in the program and are not modelled.
- The first metadata read is always a present response body. A missing body would make `repository.archived` throw a `TypeError`, which is outside the model.
- Logging (`log.debug`, `log.info`, `log.warn`): side effects with no bearing on the result.
- The control-file path `.github/<configFilename>` only feeds the read. `configFilename` and the loading of the app configuration are not modelled.
- The job-cancellation TODOs on the skip paths: they are not implemented.
- The schema of `pullConfigSchema` (`src/utils/schema.ts` is not part of this model). Validation is an opaque function, and `ForkResolvesToDefault` assumes a validator that decodes encoded configurations faithfully.
- `NaN` and the infinities among parsed numbers: floating point is not modelled. Numbers are reals, and only zero is falsy.
- `Json.Member` models access to keys that no built-in prototype defines, such as `version`. Inherited members are not modelled.
