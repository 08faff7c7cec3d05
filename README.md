# Gitness decision and validation core, in Dafny

This project models six small pieces of logic from the Gitness source-control platform.
It states and proves what each of them promises.

- **Branch protection** (`protection_branch.dfy`, module `Protection`). The evaluation of one
  `Branch` protection definition against a proposed pull request merge (`MergeVerify`)
  and against a proposed ref change (`RefChangeVerify`). It covers bypass eligibility,
  violation codes and their order, the allowed merge methods and source-branch deletion.
  The implementation file is not part of this model. The behaviour modelled is the one that
  the table tests in `app/services/protection/rule_branch_test.go` fix, and both test tables
  are restated as lemmas.
- **Name validators** (`check_common.dfy`, module `Check`). `PathName`, `Name` and `UID`:
  a length bound, then an anchored one-character-class regex, written here as a predicate
  on bytes.
- **Space validator** (`check_space.dfy`, module `SpaceCheck`). It chains the validators,
  then checks the parent ID's sign, then rejects the reserved path-name prefixes of root spaces.
- **Rule partial update** (`rule_update.dfy`, module `RuleUpdate`). `sanitize`, `isEmpty`
  and the field-by-field patch that `RuleUpdate` applies to a stored protection rule.
  Mutable objects are classes: the request input (sanitize rewrites its state), the loaded
  rule (patched in place) and the rule store.
- **Repo attribute enum** (`enum_repo.dfy`, module `RepoAttrs`). The case-insensitive
  parser and its printer.
- **Typed errors** (`errors_status.dfy`, module `Errors`). Classification of an error by
  the first application `Error` down its wrap chain (`AsError`, `AsStatus`, `Message`,
  `Details`, the `Is*` predicates). Also `Format`, which sorts its variadic arguments into
  the source error, the details map and the message arguments.

`wrappers.dfy` holds `Option` (Go's nil) and `Result` (Go's `(value, error)` returns).

Modelling choices:

- Go strings that are validated by `len` and byte-level regex classes are byte sequences.
  `len` counts bytes, and the ASCII classes never match a byte of a multi-byte character.
- Go integers are Dafny `int`. No modelled check depends on overflow.
- Collaborators the code calls but this model does not contain are passed in as functions.
  These are the rule state sanitizer, the pattern validator and its JSON form, the protection
  manager's definition sanitizer, the rule user lookup, the store lookup and write outcome,
  and `fmt.Sprintf`. The repository access check is passed in as a flag.
- The tests "admin-no-bypass" (rule_branch_test.go:48-77 and :233-255) expect
  `Bypassable: true` for an administrator with an empty `DefBypass`. So an administrator is
  always bypass-eligible here.
- Required status checks produce one combined `pullreq-status-checks-required-uids` violation
  that names every failing check. The tests only ever require one check, so they cannot tell
  this apart from one violation per check. A check counts as passing only if it was reported
  and succeeded.
- `RefChangeVerify` evaluates only branch refs, and only when at least one ref name is given.
  A branch deletion under `DeleteForbidden` gives one combined `lifecycle-delete` violation,
  however many names the batch holds.
- The enum spellings `uid`, `created`, `created_at`, `updated`, `updated_at` and `undefined`
  are defined outside `types/enum/repo.go` and are taken as these lower-case strings.

## Model

| member | source | states |
|---|---|---|
| Protection.FailingChecks | app/services/protection/rule_branch_test.go:52-74 | a required check fails exactly when it has no reported, succeeded result; the result lists exactly those required UIDs |
| Protection.Bypassable | app/services/protection/rule_branch_test.go:48-135 | bypass eligibility: an administrator, a user listed in the rule's bypass user IDs, or a repo owner when the rule lets owners bypass |
| Protection.MergeViolations | app/services/protection/rule_branch_test.go:67-75 | the comments code appears iff comments are unresolved and required, the status-checks code iff a required check has not passed, each at most once (the length is the number of violated constraints); comments first, status checks last, naming the failing checks |
| Protection.AllowedMethods | app/services/protection/rule_branch_test.go:137-157 | the rule's allowed strategies when it lists any, otherwise every merge method |
| Protection.Annotate | app/services/protection/rule_branch_test.go:97-105 | no violations give no entry; otherwise one entry holding all of them, Bypassable from eligibility, Bypassed = Bypassable and AllowBypass |
| Protection.MergeVerify | app/services/protection/rule_branch_test.go:38-158 | DeleteSourceBranch equals Merge.DeleteBranch; AllowedMethods is StrategiesAllowed in its order, or the full enumeration when empty; an entry exists iff a violation does, and it is annotated with bypass |
| Protection.RefChangeViolations | app/services/protection/rule_branch_test.go:222-255 | exactly one lifecycle-delete violation iff a branch delete with ref names meets DeleteForbidden, otherwise none |
| Protection.RefChangeVerify | app/services/protection/rule_branch_test.go:222-303 | one entry with exactly one lifecycle-delete violation iff the deletion is forbidden; bypass annotation as for merges |
| Protection.EmptyBranchIsNoop | app/services/protection/rule_branch_test.go:38-47 | the zero definition gives no violations, no deletion and every merge method, and no ref-change violation |
| Protection.CommentsBeforeStatusChecks | app/services/protection/rule_branch_test.go:67-75 | with both constraints violated the rule's list is exactly [comments, status-checks] |
| Protection.MissingCheckIsViolation | app/services/protection/rule_branch_test.go:52-62 | a required check with no reported result yields a status-check violation naming it |
| Protection.OutsiderCannotBypass | app/services/protection/rule_branch_test.go:108-135 | a non-admin outside every bypass criterion is neither bypassable nor bypassed, even when asking |
| Protection.BypassKeepsViolations | app/services/protection/rule_branch_test.go:97-135 | who acts and whether bypass is requested never changes which violations are reported |
| Protection.MergeVerifyTable | app/services/protection/rule_branch_test.go:38-158 | each of the five merge test cases produces its expected output (DeleteSourceBranch, AllowedMethods) and its expected violations |
| Protection.RefChangeVerifyTable | app/services/protection/rule_branch_test.go:222-303 | the four ref-change test cases produce the expected violations |
| Check.PathName | types/check/common.go:49-61 | length error iff length outside 1..64; otherwise regex error iff the first byte is not a-z or a later one is not in [a-z0-9-_]; nil iff both pass |
| Check.Name | types/check/common.go:63-75 | length error iff length outside 1..256; otherwise regex error iff the first byte is not a letter or a later one is not in [a-zA-Z0-9-_ ]; nil iff both pass |
| Check.UID | types/check/common.go:77-89 | length error iff length outside 2..64, before any charset check; otherwise the path-name charset; nil iff both pass |
| Check.UIDIsPathName | types/check/common.go:13-23 | every string UID accepts, PathName accepts |
| Check.OneLetterIsPathNameNotUID | types/check/common.go:13-22 | a single lower-case letter is a valid path name but too short for a UID |
| Check.DisplayNamesOutgrowPathNames | types/check/common.go:49-75 | an input of 65 to 256 bytes is a length error for PathName and UID whatever its bytes, while Name accepts it iff it matches the display-name regex |
| SpaceCheck.HasReservedPrefix | types/check/space.go:43-47 | true iff some reserved name is a prefix of the path name |
| SpaceCheck.ValidateSpace | types/check/space.go:26-51 | path-name errors first, then display-name errors, then a negative parent ID, then the reserved prefix of a root space; nil iff every check passes |
| SpaceCheck.ChildSpaceIgnoresReservedNames | types/check/space.go:42 | a child space with valid names is accepted whatever its prefix |
| SpaceCheck.ApiaryIsReservedAtRoot | types/check/space.go:15 | "apiary" is rejected as a root space (prefix match) and accepted as a child |
| RuleUpdate.SanitizeInput | app/api/controller/repo/rule_update.go:39-66 | checks run in the order UID, state, pattern, definition: an empty UID skips the UID check, a non-empty one must pass UID (InvalidUID); then an invalid state gives InvalidState; then, with the state replaced by its sanitized value, an invalid pattern gives InvalidPattern and a present empty definition DefinitionMissing; only the state ever changes |
| RuleUpdate.RuleUpdateInput.Sanitize | app/api/controller/repo/rule_update.go:39-66 | the new input and the error are those of SanitizeInput on the old input |
| RuleUpdate.RuleUpdateInput.IsEmpty | app/api/controller/repo/rule_update.go:68-70 | true iff the UID is empty and every optional field is absent |
| RuleUpdate.SanitizeKeepsEmptiness | app/api/controller/repo/rule_update.go:52 | sanitizing never changes whether the update is empty |
| RuleUpdate.Patch | app/api/controller/repo/rule_update.go:102-119 | absent fields keep their stored values, provided ones overwrite them; fails iff a provided definition is rejected by the sanitizer |
| RuleUpdate.ApplyPatch | app/api/controller/repo/rule_update.go:102-119 | the in-place field updates of the loaded rule produce Patch of its old value |
| RuleUpdate.RuleStore.FindByUID | app/api/controller/repo/rule_update.go:89-92 | no rule for an unknown UID; otherwise a new rule object holding the stored record |
| RuleUpdate.UpdateOutcome | app/api/controller/repo/rule_update.go:73-132 | access, sanitize and lookup errors come first; an empty update that gets its users returns the found rule with those users and writes nothing, or fails with UsersLookupFailed; a non-empty update fails with InvalidDefinition when the definition is rejected, UsersLookupFailed when the user lookup fails, UpdateFailed when the store refuses, and otherwise returns and writes the patched rule with its users |
| RuleUpdate.FailedUpdateWritesNothing | app/api/controller/repo/rule_update.go:84-87 | an update that returns an error writes nothing to the store |
| RuleUpdate.RuleUpdate | app/api/controller/repo/rule_update.go:73-132 | the returned rule or error and the store's written records are exactly those UpdateOutcome gives |
| RuleUpdate.RuleStore.Update | app/api/controller/repo/rule_update.go:126-129 | a write the store accepts is appended to its records; a refused one leaves them unchanged |
| RepoAttrs.ParseRepoAttr | types/enum/repo.go:34-45 | result in none..updated; uid, created or created_at, updated or updated_at after lower-casing; anything else is none |
| RepoAttrs.RepoAttrString | types/enum/repo.go:48-61 | "" exactly for none, "undefined" exactly for out-of-range values |
| RepoAttrs.LowerIdempotent | types/enum/repo.go:35 | lower-casing twice is lower-casing once |
| RepoAttrs.ParseIgnoresCase | types/enum/repo.go:35 | a text and its lower-cased form parse alike |
| RepoAttrs.ParsePrintRoundTrip | types/enum/repo.go:34-61 | parsing the printed form of each of the four named values gives it back |
| RepoAttrs.UndefinedParsesToNone | types/enum/repo.go:42-43 | the printed form of an out-of-range value parses to none |
| Errors.Unwrap | errors/status.go:50-52 | an application error unwraps to its wrapped error; unwrapping always yields a strictly smaller error, so the walk ends |
| Errors.ErrorText | errors/status.go:55-57 | the Error() text of an application error is its message |
| Errors.AppMessageIsErrorText | errors/status.go:55-82 | Message of an application error equals its Error() text |
| Errors.Chain | errors/status.go:50-52 | the wrap chain starts with the error itself |
| Errors.AsError | errors/status.go:97-105 | nil for nil; otherwise an application error iff the chain holds one, and then the first one |
| Errors.AsStatus | errors/status.go:61-70 | "" for nil, the first application error's status, or internal when the chain holds none |
| Errors.Message | errors/status.go:73-82 | "" for nil, the first application error's message, or the error's own text when the chain holds none |
| Errors.Details | errors/status.go:85-94 | nil for nil, the first application error's details, or nil when the chain holds none |
| Errors.WrappingKeepsClassification | errors/status.go:61-94 | wrapping an error in a non-application error keeps its status and details, and its message when an application error is inside |
| Errors.IsNotFound | errors/status.go:187-190 | true iff the error is non-nil and the first application error down its wrap chain has status not_found |
| Errors.IsConflict | errors/status.go:192-195 | true iff the first application error down the wrap chain has status conflict |
| Errors.IsInvalidArgument | errors/status.go:197-200 | true iff the first application error down the wrap chain has status invalid |
| Errors.IsInternal | errors/status.go:202-205 | true iff the first application error down the wrap chain has status internal, or the error is non-nil and its chain holds no application error |
| Errors.IsPreconditionFailed | errors/status.go:207-210 | true iff the first application error down the wrap chain has status precondition_failed |
| Errors.IsAborted | errors/status.go:212-215 | true iff the first application error down the wrap chain has status aborted |
| Errors.ClassificationIsExclusive | errors/status.go:188-215 | nil satisfies no Is* predicate, and at most one holds of any error |
| Errors.LastError | errors/status.go:120-126 | none iff no error argument; otherwise the last error argument |
| Errors.ValueArgs | errors/status.go:131-136 | only value arguments reach the message formatting |
| Errors.ValueArgsConcat | errors/status.go:131-136 | value arguments keep their order: the list splits over concatenation |
| Errors.ValueArgsSingle | errors/status.go:131-136 | one argument contributes its value iff it is a value argument; with ValueArgsConcat this makes the list the in-order filter of the value arguments |
| Errors.ValueArgsComplete | errors/status.go:131-136 | every value argument reaches the message formatting |
| Errors.DetailListContents | errors/status.go:126-130 | the collected details are exactly those the Arg and []Arg arguments carry, and none iff no argument carries one |
| Errors.DetailMap | errors/status.go:142-147 | the map's keys are exactly the detail keys |
| Errors.DetailMapLastWins | errors/status.go:142-147 | each key maps to the value of its last detail, later duplicates overwriting earlier ones |
| Errors.NilArgIsSkipped | errors/status.go:121-123 | a nil argument changes neither the source error, the details nor the message arguments |
| Errors.SortArgs | errors/status.go:120-134 | the argument loop yields the last error argument, the collected details and the value arguments |
| Errors.BuildDetailMap | errors/status.go:142-147 | the details loop yields the last-wins details map |
| Errors.Format | errors/status.go:113-149 | status is the code; the source error is the last error argument; the message formats the value arguments; details are nil without detail arguments, otherwise the last-wins map |
| Errors.NotFound | errors/status.go:152-154 | Format with not_found; IsNotFound holds of the result |
| Errors.InvalidArgument | errors/status.go:157-159 | Format with invalid; IsInvalidArgument holds of the result |
| Errors.Internal | errors/status.go:162-164 | Format with internal; IsInternal holds of the result |
| Errors.Conflict | errors/status.go:167-169 | Format with conflict; IsConflict holds of the result |
| Errors.PreconditionFailed | errors/status.go:173-175 | Format with precondition_failed; IsPreconditionFailed holds of the result |
| Errors.Failed | errors/status.go:178-180 | Format with failed; the result's status is failed |
| Errors.Aborted | errors/status.go:183-185 | Format with aborted; IsAborted holds of the result |

## Left out

- The implementation of the branch protection rule is not part of this model. `Branch.Sanitize`, which the tests run first, is not modelled. Definitions are taken as already sanitized.
- Pattern matching of refs and aggregation of several rules are not modelled. Their code is not part of this model, so one `Branch` definition is evaluated, as in the tests.
- Lifecycle create and update restrictions are not modelled. The tests exercise only `DeleteForbidden`.
- Protection.Violation: carries the code and the failing check UIDs, not the human-readable message text.
- RepoAttrs.ParseRepoAttr: lower-cases ASCII letters only. Go's `strings.ToLower` also maps non-ASCII letters, and a few of them (U+0130, U+212A) map to ASCII letters that could complete a known spelling.
- Errors.AsError: follows a single `Unwrap() error` chain. Errors that unwrap to several errors, and custom `As` methods, are not modelled.
- Errors.Format: a typed nil pointer passed as an argument is not modelled; it is not `nil` in Go and would become the source error. The message text comes from a formatting function passed in; `fmt.Sprintf` is not modelled.
- The repository access check, the `context.Context` parameters and the store's database are not modelled. The access outcome is a flag. The store is a lookup function, an accept function and a list of written records.
- RuleUpdate.RuleStore.Update: does not model the version bump and timestamps a database write makes.
- `types/pipeline.go` is not modelled: it is a plain data type with no behaviour.
- `app/api/controller/webhook/list_executions.go` is not modelled: it is an access check plus a store pass-through.
- `app/api/controller/limiter/limiter.go` is not modelled: its only limiter always succeeds.
- `internal/pipeline/events/wire.go` is not modelled: it is dependency-injection wiring.
