# Verified model of the saved-plan pipeline

This project models the part of the repository that decides whether a Pulumi plan may be sealed and later
replayed, and proves what those decisions are worth. `dafny verify dfyconfig.toml` checks everything.

| files | what they model |
|---|---|
| `Texts`, `Json`, `JsonText`, `CanonicalJson`, `CanonicalText`, `ScalarSpelling`, `JsonWriting` | Python strings (code points, surrogates included), JSON values with Python's `==`, a JSON reader and the sorted printer, the text it prints character by character, the spellings of strings and numbers, strict parsing, and all ways to write a document |
| `WireForms` | reviewed IAM documents, the workload projection's wire form, concatenated response pages |
| `RegistryRows`, `RegistryPlan`, `RegistryHistory`, `RegistryProperties` | the registry plan gate, its rows and goals, and histories of accepted plans and replays |
| `RegistryStart`, `RegistryRuns`, `RegistryRecheck` | the first plan on bootstrap rows, what its replay stores, that histories start and go on, and the provider's recheck of rows that exist |
| `RegistryRowsReference`, `RegistryReference` | the rows and the whole registry gate a second time, as one declarative statement |
| `Redaction`, `NoChange`, `NoChangeProperties`, `NoChangeReference` | recursive redaction, the gate that accepts only plans that change nothing, and that gate as one statement |
| `Topology`, `TopologyProperties`, `TopologyAcceptance`, `TopologyReference` | the gate for the first workload, on top of the registry gate, and that gate as one statement |
| `SavedPlan`, `SavedPlanRuns` | sealing and replaying plans as a state machine over artifacts, manifest and replays |
| `BackendListing`, `BackendSnapshot`, `BackendReference`, `RegistryRunner` | listings and snapshots of a versioned object store under concurrent writers, its checkpoints and their inventories, and the gate tied to them |
| `Networks`, `Contracts` | CIDR blocks as sets of addresses, contract documents and their histories |
| `Materializer` | all-or-nothing publication of a directory over a failing file system |
| `BranchPolicies` | convergence of branch policies over failing calls |
| `Rulesets`, `RulesetProperties`, `RulesetReference` | the ruleset builder against its own verifier, and which rules each of them means |
| `StackConfig` | in-place pinning and merging of a stack configuration |

Code that computes a value is a function; code that changes things step by step is a method with loops, and
objects with state (the workspace, the backend client, the disk, the policy server, the configuration
document) are classes. Each method is proved equal to a specification function or predicate, and the theorems
are about those. Each gate is described twice: once the way the program computes it, once as a statement about the
documents in the names they use, and a theorem whose name ends in `Exactly` says that the two are the same on all
inputs. Cloud constants, the resource graph, the JSON float conversion, SHA-256 and the answers of
outside services are parameters. SHA-256 is not assumed to be injective: a theorem that rests on it concludes that
two texts are equal or names them as a collision. An exception is a `None`, a `false` or an outcome.

Where a theorem has hypotheses on the installation, they can be met: `InstalledPossible` and `AnswersPossible` give
the smallest graph and answers, `EmptyPrior` an acceptable start, and `WorkloadReachable` a whole run from any
acceptable start to the workload. A store at rest meets what the captures ask of writers, services and listings
(`RestIsQuiet`, `RestIsHonest`), a complete rendering what is asked of the policy server (`HonestResponse`), and some
codec what the wire form needs (`RuntimePossible`).

## What the proofs found

* Canonical printing is not injective on all Python strings: a character outside the basic plane and its two
  surrogates print alike. `CanonicalRoundTrip` and `PrintExact` give the exact condition, `SplitPairCollides`
  the collision.
* A failed plan run can leave a readable manifest behind, but only when every stack was sealed and the write of
  the job outputs failed (`PlanRunExit`, `FailedRunLeavesManifest`).
* A stack listed twice is sealed twice under one path, and its first entry is then refused
  (`RepeatedStackRefused`); with distinct artifact paths an untouched plan is always admitted
  (`UntouchedPlanAdmitted`) and can be replayed as a whole (`UntouchedPlanReplays`). Previews and the manifest are
  cleared before planning, plan files are not, so a plan file left over from an earlier run can be sealed; the model
  keeps that.
* An accepted first-workload preview contains no refresh step (`NothingRefreshed`), because it may show no
  resource twice, while the `plan` command always refreshes. Unrefreshed previews are accepted
  (`FirstWorkloadAccepted`).
* A ruleset whose existing review count is a float above one, even 2.0, is built and then blocked by its own
  verifier (`PayloadUnblocked`, `FloatCountBlocked`).
* When creating the workload directory takes effect but that call or the opening after it fails, the empty
  private directory stays behind: both calls lie outside the guarded block. Otherwise an unpublished directory
  is left only by a second failure, in the rollback (`Populate`).

## Model

| member | source | states |
|---|---|---|
| CanonicalJson.UniqueMembers | policy/reviewed_iam.py:58-65 | the pairs hook fails exactly on a repeated name, and otherwise gives the dict with exactly the listed members |
| JsonText.StringReads | policy/reviewed_iam.py:95-105 | reading back a printed string gives it with split surrogate pairs merged, whatever follows it |
| JsonText.PrintStringInjective | policy/reviewed_iam.py:95-105 | two strings print alike exactly when merging their surrogate pairs makes them equal (section 7 of RFC 8259) |
| JsonText.TreeReads | policy/reviewed_iam.py:95-105 | every printed document, of any depth, is read back and leaves the rest of the text |
| ScalarSpelling.StringExactly | policy/reviewed_iam.py:95-105 | a string literal is read exactly if it is spelled by plain characters, the eight short escapes and escapes of four digits in either case, and denotes these with escaped surrogate pairs merged (section 7 of RFC 8259) |
| ScalarSpelling.NumberExactly | policy/reviewed_iam.py:95-105 | a numeral without leading zeros that nothing extends is read whole: without fraction and exponent as the integer of its digits, else as what the float conversion makes of it (section 6 of RFC 8259) |
| Json.EqualExactly | scripts/poc_registry_plan.py:404-455 | Python's `==` on JSON values, case by case: booleans and numbers by value, strings as they are, lists and dicts item by item |
| Json.DictExactly | scripts/poc_registry_plan.py:233-247 | `dict` of a list succeeds exactly if every item is a list of a string and a value or a string of two characters, and gives each name the value of its last pair |
| CanonicalJson.CanonicalRoundTrip | policy/reviewed_iam.py:73-105 | strict parsing undoes canonical printing for exactly the values without split surrogate pairs |
| CanonicalJson.PrintInjective | policy/reviewed_iam.py:73-105 | whole values print alike only if they are equal, members in any order (sections 4 and 7 of RFC 8259) |
| CanonicalJson.PrintExact | policy/reviewed_iam.py:73-105 | any two values print alike exactly when they differ only in how surrogate pairs are held |
| CanonicalJson.SplitPairCollides | policy/reviewed_iam.py:95-105 | two different values with one canonical text, one of them not whole |
| CanonicalText.ObjectText | policy/reviewed_iam.py:95-105 | the text of an object is `{`, its members in the order of their names, each the quoted name, `:` and the text of its value, separated by one `,` and nothing else, and `}` |
| CanonicalText.ArrayText | policy/reviewed_iam.py:95-105 | the text of an array is the texts of its items, in order, between `[` and `]`, separated by one `,` |
| CanonicalText.StringText | policy/reviewed_iam.py:95-105 | a string is written in quotes, character by character: printable ASCII as it is, the short escapes, and `\u` with four lower-case digits for every other code unit |
| CanonicalText.IntegerText | policy/reviewed_iam.py:95-105 | an integer is written as its decimal digits after a minus sign if it is negative |
| JsonWriting.DuplicateRejected | policy/reviewed_iam.py:58-105 | a document, in any spelling and with any blanks, is refused exactly when some object in it, at any depth, repeats a member, and else denotes what it says |
| JsonWriting.LoadsExactly | policy/reviewed_iam.py:58-105 | strict parsing accepts exactly the documents without a repeated member, and gives their values |
| ReviewedIam.OnlyReviewedMatches | policy/reviewed_iam.py:95-132 | a pinned digest admits the reviewed document, as object or as text, and no other but one whose text collides with it |
| ReviewedIam.ResolvedExactly | policy/reviewed_iam.py:68-92 | a document is taken for resolved exactly if no string at any depth of it mentions the engine's unknown value |
| WorkloadProjection.WireRoundTrip | scripts/poc_workload_phase_entrypoint.py:127-177 | decoding gives a projection exactly on its own encoding, for projections whose document has no split surrogate pair |
| WorkloadProjection.EncodedExactly | scripts/poc_workload_phase_entrypoint.py:93-177 | a projection has a wire form exactly if path, digests, phase and contract digest are sound and it fits, and the form is the text of the document with the four members and the seven source fields |
| WorkloadProjection.SourceFixesContract | scripts/poc_workload_phase_entrypoint.py:93-124 | two admitted projections with the same source have the same contract, or canonical texts that collide |
| ResponsePages.DecodePaginatedPages | scripts/pulumi_command_preflight.py:38-58 | the pages are the values written one after the other, if there are any and all are arrays or all objects |
| ResponsePages.PagesRoundTrip | scripts/pulumi_command_preflight.py:38-58 | the values written in same-kind pages printed with any white space around them, which is what the method returns, are exactly those pages |
| RegistryRows.SemanticInputsIdempotent | scripts/poc_mail_prerequisite.py:125-138 | stripping provider defaults twice is stripping them once |
| RegistryPlan.Prior | scripts/poc_registry_plan.py:365-387 | the inventory holds every listed row under its URN, and exists exactly for acceptable, closed, bound rows |
| RegistryPlan.CheckSteps | scripts/poc_registry_plan.py:645-670 | the two-set pass accepts exactly distinct refreshes followed by distinct other steps that cover the required resources |
| RegistryPlan.Validate | scripts/poc_registry_plan.py:673-707 | accepts exactly when rows, goals and preview are one coherent graph |
| RegistryHistory.DiffEffect | scripts/poc_registry_plan.py:390-422 | a diff has domain old minus deletes plus adds, changes the size by their difference, keeps the rest and is undone by another accepted diff |
| RegistryHistory.RecheckNeutral | scripts/poc_registry_plan.py:433-455 | on every observed row the provider's recheck reconstruction succeeds and keeps the semantic inputs |
| RegistryHistory.RetainedKeeps | scripts/poc_registry_plan.py:458-512 | the goal of a retained row has its owner, outputs and semantic inputs |
| RegistryRecheck.RetainedGoalExactly | scripts/poc_registry_plan.py:433-512 | which plans are acceptable for a row that exists, and the row each describes: one `same` step, the row's own place and owner, no change of outputs, and no change of inputs but the provider's recheck of its kind |
| RegistryRecheck.RecheckedPlanAccepted | scripts/poc_registry_plan.py:433-473 | on every acceptable whole graph and for any of its repositories, identity and records, the unchanged plan with the recheck of exactly these is accepted with its refreshed preview, which shows their stored inputs with empty defaults and the one nested block |
| RegistryRowsReference.RowExactly | scripts/poc_registry_plan.py:125-347 | a row is accepted exactly if it is in its place, unflagged, and its inputs, outputs and id have field by field the values of its kind, without any normalisation |
| RegistryReference.AcceptsExactly | scripts/poc_registry_plan.py:365-707 | the gate passes exactly if there are desired rows that the plans ask for, every plan in the literal form for a new, kept or hardened resource, linked and bound by token rank, and the preview lists the refreshes and then the other steps, each showing its row |
| RegistryHistory.ReplayExtends | scripts/poc_registry_plan.py:673-707 | after one accepted replay the state is the whole graph, nothing observed is lost or changes owner, and every row but the legacy provider is kept |
| RegistryHistory.HistoryKeeps | scripts/poc_registry_plan.py:365-387 | the same between any two states of any history of accepted plans and replays; the legacy provider never comes back |
| RegistryHistory.LaterPlansOnlySame | scripts/poc_registry_plan.py:476-512 | every plan accepted after the first replay has only `same` steps, and its preview only refreshes and `same` steps |
| RegistryProperties.ReplayPlaces | scripts/poc_registry_plan.py:297-347 | after an accepted plan and its replay every resource of the graph is in its place, of its kind, and linked to the one AWS provider if it needs it |
| RegistryProperties.PreviewTellsReplay | scripts/poc_registry_plan.py:543-620 | every step of an accepted preview after the refreshes shows the owner and provider of the row the replay leaves, as far as their ids are known yet, the inputs of the goal it carries out, and the owner of the row observed before |
| RegistryProperties.RequiredRefreshShape | scripts/poc_registry_plan.py:585-670 | with refresh required, an accepted preview is each observed resource but the provider once as refresh, then each resource of the graph but the provider once |
| RegistryProperties.RecordsCarryTokens | scripts/poc_mail_prerequisite.py:275-298 | accepted DKIM records carry the live identity's tokens one to one, in sorted order |
| RegistryProperties.RecordInputsInjective | scripts/poc_mail_prerequisite.py:113-122 | two tokens with the same record inputs are the same token |
| RegistryProperties.UnchangedPlanAccepted | scripts/poc_registry_plan.py:673-707 | the engine's unchanged plan with its full refreshed preview is accepted on every acceptable whole graph |
| RegistryStart.StartAccepted | scripts/poc_registry_plan.py:673-707 | on every acceptable bootstrap list, empty, partial or legacy, the plan that hardens a legacy provider, keeps what is there and creates the rest is accepted, refresh required or not |
| RegistryRuns.StartPossible | scripts/poc_registry_plan.py:365-387 | its replay, with whatever id the provider and whatever tokens the mail identity gets, leaves the whole graph's rows, acceptable again |
| RegistryRuns.HistoryPossible | scripts/poc_registry_plan.py:673-707 | from every acceptable list a history of any length starts, and ends in an acceptable list |
| Redaction.RedactUnmarks | scripts/poc_workload_reconciliation.py:68-83 | redaction fails exactly on a malformed wrapper and leaves no wrapper at any depth |
| Redaction.RedactUnmarked | scripts/poc_workload_reconciliation.py:68-83 | it is the identity on values without wrappers |
| Redaction.RedactIdempotent | scripts/poc_workload_reconciliation.py:68-83 | redacting twice is redacting once |
| Redaction.RedactHidesSecrets | scripts/poc_workload_reconciliation.py:68-83 | values that differ only inside wrappers are shown alike |
| Redaction.RedactShowsTheRest | scripts/poc_workload_reconciliation.py:68-83 | values without a literal placeholder that are shown alike differ only inside wrappers |
| Redaction.PlaceholderLooksSecret | scripts/poc_workload_reconciliation.py:68-83 | a literal placeholder is shown like a secret, so the condition is needed |
| NoChange.CollectRows | scripts/poc_workload_reconciliation.py:86-104 | the inventory exists exactly for sound rows with distinct URNs and holds each row under its URN |
| NoChange.CheckSteps | scripts/poc_workload_reconciliation.py:167-221 | the `seen` pass accepts exactly acceptable steps of distinct resources |
| NoChange.ValidateNoChange | scripts/poc_workload_reconciliation.py:224-245 | accepts exactly the plans and previews that leave a sound inventory unchanged |
| NoChangeReference.AcceptsExactly | scripts/poc_workload_reconciliation.py:86-245 | the gate passes exactly if rows, saved plan and preview change nothing, said of the documents in their own names: every shown step is `same`, without reasons, of a listed row, and shows the redacted row twice |
| NoChangeReference.UnchangedShownAccepted | scripts/poc_workload_reconciliation.py:167-245 | the unchanged plan is accepted with a preview exactly if that shows different rows, in any order, each as `same` and as it is |
| NoChangeProperties.GoalKeepsRow | scripts/poc_workload_reconciliation.py:141-164 | an accepted goal leaves every field of its row with the same canonical text, and inputs and outputs as they were |
| NoChangeProperties.NoChangeReplaysToPrior | scripts/poc_workload_reconciliation.py:141-164 | carrying out the accepted goals gives back the prior rows with the same fields, whose values differ at most in how surrogate pairs are held, and not at all in rows without split pairs |
| NoChangeProperties.ProvidersResolve | scripts/poc_workload_reconciliation.py:122-138 | every provider link splits into the URN of a provider row and that row's id |
| NoChangeProperties.OrderIndependent | scripts/poc_workload_reconciliation.py:207-245 | the verdict is the same for any order of the resource list and the preview steps |
| NoChangeProperties.UnchangedAccepted | scripts/poc_workload_reconciliation.py:224-245 | for every sound graph the plan that asks for nothing is accepted with an empty preview |
| Topology.BaselineSteps | scripts/poc_workload_topology.py:344-362 | the registry part of the preview, with left-out component outputs restored |
| Topology.CheckShown | scripts/poc_workload_topology.py:296-341 | the `seen` pass accepts exactly distinct resources whose new ones are shown as the wanted creation, and returns them |
| Topology.ValidateTopology | scripts/poc_workload_topology.py:255-293 | accepts exactly the extensions of an accepted registry plan described by the gate |
| TopologyReference.FirstWorkloadExactly | scripts/poc_workload_topology.py:193-362 | the gate passes exactly if the registry's steps and plans, picked out in order, are coherent, every other plan is the literal creation of its resource, references stay inside, and the preview shows each creation with its secrets hidden |
| TopologyReference.HidesExactly | scripts/poc_workload_reconciliation.py:68-83 | redaction gives exactly the value in which every wrapper, of one of the two shapes, is replaced by `[secret]` |
| TopologyProperties.NothingRefreshed | scripts/poc_workload_topology.py:296-305 | every step of an accepted preview is `same` on a registry resource or a creation of another; none is a refresh |
| TopologyProperties.ConservativeExtension | scripts/poc_workload_topology.py:255-293 | registry resources keep their rows and get `same` plans, all others get creations disjoint from the prior, and all references stay inside the union |
| TopologyProperties.RegistryUnchanged | scripts/poc_workload_topology.py:255-279 | the desired row of each registry resource keeps the observed row |
| TopologyProperties.NewRowPlaced | scripts/poc_workload_topology.py:193-243 | each new resource is in its place and protected as the graph says, and its provider link leads to a provider of its package, with the observed id for AWS |
| TopologyProperties.SecretTextHidden | scripts/poc_workload_topology.py:246-252 | a new secret version shows its text only as hidden or unknown |
| TopologyProperties.NewShownOnce | scripts/poc_workload_topology.py:286-305 | each new resource that is no provider appears exactly once in the preview, as the creation its goal asks for |
| TopologyProperties.CreationHidesSecrets | scripts/poc_workload_topology.py:308-341 | a shown creation has no wrapper in it and is the same for all inputs that differ only inside wrappers |
| TopologyProperties.WorkloadKeeps | scripts/poc_workload_topology.py:255-293 | carrying the accepted plan out, with whatever ids the new resources get, leaves every observed row in place as it was |
| TopologyProperties.HistoryThenWorkload | scripts/poc_workload_topology.py:255-293 | no row seen in any registry history before the workload is lost or changes owner by it |
| TopologyAcceptance.FirstWorkloadAccepted | scripts/poc_workload_topology.py:255-293 | unchanged registry plans with sound creations, and the unrefreshed preview of both, are accepted on every acceptable whole registry |
| TopologyAcceptance.FirstWorkloadPossible | scripts/poc_workload_topology.py:255-293 | on every such registry some plan and preview are accepted |
| TopologyAcceptance.WorkloadReplayPossible | scripts/poc_workload_topology.py:255-293 | every accepted plan can be carried out so that new resources are linked to the ids their new providers got |
| TopologyAcceptance.WorkloadReachable | scripts/poc_workload_topology.py:255-293 | from every acceptable registry list some history and some accepted workload plan lead to the whole workload |
| SavedPlan.Workspace.PreparePlanArtifacts | scripts/run_pulumi_command.py:575-584 | removes the manifest and every preview, and nothing else |
| SavedPlan.Workspace.RunPlan | scripts/run_pulumi_command.py:587-633 | files, manifest and outcome of a plan run are those of the specification `PlanRun` |
| SavedPlan.Workspace.ReplayOne | scripts/run_pulumi_command.py:767-806 | one stack is applied only after every check on the bytes on disk, with the status the specification gives |
| SavedPlan.Workspace.RunUpPlan | scripts/run_pulumi_command.py:730-743 | the replays made and the status are those of the specification `UpPlanRun` |
| SavedPlanRuns.HeaderExactly | scripts/run_pulumi_command.py:303-389 | a sealed manifest's header is accepted exactly at the same commit, which is the requested one if one is requested, with the same backend and directories below the root, and in time |
| SavedPlanRuns.AdmittedExactly | scripts/run_pulumi_command.py:280-417 | any manifest, whoever wrote it, admits a stack exactly if its schema, age, commit, backend and directories fit and the first entry of the stack names, by path and digest, the files on disk, with a safe preview |
| SavedPlanRuns.SealedAreWritten | scripts/run_pulumi_command.py:587-628 | what a complete run seals for a stack is the preview it printed and the plan file Pulumi left |
| SavedPlanRuns.PlanRunStops | scripts/run_pulumi_command.py:587-628 | the first stack that does not go well ends the run with the status of its failure, its files as they are and no manifest |
| SavedPlanRuns.ReplayStops | scripts/run_pulumi_command.py:730-806 | an undisturbed replaying run ends at the first stack that is refused or fails, with the status of that |
| SavedPlanRuns.ReplaysAreSealed | scripts/run_pulumi_command.py:508-528 | in every run of plan, change and up-plan steps, each replay applies the very plan and preview bytes the last plan run sealed for that stack, unless SHA-256 collides on them, in the same commit, backend, directories and provider identity, at the commit requested of the replay if one is, with age in bounds, a safe preview and a passed gate; artifacts may change between any two steps and any two stacks |
| SavedPlanRuns.ManifestIsSealed | scripts/run_pulumi_command.py:245-259 | whenever a manifest is readable it is the one written by the last plan run, which was complete |
| SavedPlanRuns.PlanRunExit | scripts/run_pulumi_command.py:587-633 | a readable manifest is left exactly when every stack was planned well, the clock read and the manifest written; exit 0 exactly when the outputs were written too |
| SavedPlanRuns.FailedRunLeavesManifest | scripts/run_pulumi_command.py:629-633 | a run that fails while writing the outputs leaves its manifest |
| SavedPlanRuns.UpPlanExit | scripts/run_pulumi_command.py:730-756 | replayed stacks are a prefix of the list, all but the last applied; exit 0 exactly when all were, and the failing stack's code otherwise; none for a selected file with several stacks |
| SavedPlanRuns.ManifestAdmitsExactly | scripts/run_pulumi_command.py:303-417 | after a complete plan run a stack is admitted exactly when the setting agrees, and the sealed bytes, or a collision of theirs, are on disk with a safe preview |
| SavedPlanRuns.UntouchedPlanAdmitted | scripts/run_pulumi_command.py:228-259 | with distinct artifact paths an untouched plan passes every manifest check of every stack exactly in its own setting and time |
| SavedPlanRuns.UntouchedPlanReplays | scripts/run_pulumi_command.py:730-806 | an untouched plan over distinct artifacts is replayed as a whole, with the very bytes sealed, exactly when the setting, the sealing of each stack and Pulumi all agree |
| SavedPlanRuns.RepeatedStackRefused | scripts/run_pulumi_command.py:280-300 | a stack listed twice with plans of different digests is refused |
| BackendListing.ListPages | scripts/poc_backend_observer.py:237-258 | at most twenty requests against any server; the result is the sorted, duplicate-free union of all pages up to the first not truncated, and exists exactly if such sound pages exist |
| BackendListing.ListingExactly | scripts/poc_backend_observer.py:237-258 | a listing ends with request `n` exactly when `n` pages, at most twenty, answer each other's tokens, each with at most a thousand keys under the prefix, no key and no token twice, and only the last not truncated |
| BackendListing.ListedExactly | scripts/poc_backend_observer.py:237-258 | its result has exactly the keys of these pages |
| BackendListing.AbsenceProof | scripts/poc_backend_observer.py:237-258 | a key missing from the result of an honest, changing server was not current at one of the requests |
| BackendListing.PresenceProof | scripts/poc_backend_observer.py:237-258 | a listed key was current at one of the requests |
| BackendSnapshot.SameIdThroughout | scripts/poc_backend_observer.py:294-319 | under append-only writers a version id that is latest twice is one version, latest all the time between |
| BackendSnapshot.Backend.ReadPinned | scripts/poc_backend_observer.py:294-319 | an object is returned exactly if one version, not deleted, named, within the limit and encrypted as it has to be, is latest at the three moments; and it is that version, with its head and bytes |
| BackendSnapshot.TakeInventory | scripts/poc_backend_observer.py:384-416 | the inventory exists exactly for a sound checkpoint, and counts, digests and classifies its public rows |
| BackendReference.CheckpointExactly | scripts/poc_backend_observer.py:358-416 | bytes are a sound checkpoint exactly if they decode to at most ten thousand resources of the stack, none pending, each with a type and a URN of its own |
| BackendReference.InventoryExactly | scripts/poc_backend_observer.py:358-416 | the digest is that of the seven public fields of exactly these rows in URN order, and the baseline flag says that all of them are stacks and providers |
| BackendSnapshot.DigestDeterminesRows | scripts/poc_backend_observer.py:358-416 | two inventories have one digest exactly when their public rows are the same, in whatever order, or collide |
| BackendSnapshot.Backend.CaptureBackend | scripts/poc_backend_observer.py:438-492 | a returned capture is one checkpoint version, latest from its first head to its last, with digest, inventory and rows from its bytes, inside a window in which the metadata did not change; before and after it no lock was listed and the checkpoint listing was the same, a checkpoint being reported exactly if listed; and if the services answer well and alike for long enough, no lock is listed, the listing stays the same without a compressed key, and metadata and any listed checkpoint are sound and do not change, a capture is returned |
| BackendSnapshot.CaptureProves | scripts/poc_backend_observer.py:438-476 | with a server that lists what the store holds whenever it answers, each lock was absent at a moment before and one after the checkpoint was read, and so was a checkpoint reported absent and any compressed one |
| RegistryRunner.SameStateSameVersion | scripts/poc_registry_runner.py:303-312 | two captures in the same state saw the same version, latest from the first capture to the second |
| RegistryRunner.Gate | scripts/poc_registry_runner.py:303-325 | a passing gate accepted the plan on the rows of the version of the initial capture, still latest at its recheck, with artifacts unchanged, everything reviewed and the identity bound to that version and the key in force; and if nothing happens to the backend that is enough for it to pass |
| RegistryRunner.CaptureThenGate | scripts/poc_registry_runner.py:328-366 | whatever time planning takes, the plan is judged against the version observed before it; if nothing happens all the while and the gate's conditions hold, it passes |
| Networks.OverlapIsIntersection | scripts/poc_contract.py:132-148 | the endpoint test holds exactly when the blocks share an address |
| Networks.ContainsRange | scripts/poc_contract.py:132-148 | masking selects exactly the addresses from an aligned block's first to its last (section 3.1 of RFC 4632, section 2.3 of RFC 4291) |
| Networks.BlockHalves | scripts/poc_contract.py:132-148 | a block with the full prefix is one address, and any other consists of its two halves, which share none (section 3.1 of RFC 4632) |
| Networks.TrustedProxies | scripts/poc_contract.py:132-148 | accepts exactly canonical, non-default entries of which no two overlap |
| Networks.AcceptedExactly | scripts/poc_contract.py:132-148 | a list is accepted exactly if each entry is the canonical text, without a zone, of a block with a prefix of at least one bit, and no address is in two of the blocks |
| Networks.MatchesOne | scripts/poc_contract.py:132-148 | an address matches at most one entry of an accepted list |
| Networks.UnionSize | scripts/poc_contract.py:132-148 | the addresses an accepted list admits number the sum of 2^(width-prefix) |
| Networks.OrderIndependent | scripts/poc_contract.py:132-148 | the verdict does not depend on the order of the list |
| Contracts.ValidateContract | scripts/poc_contract.py:190-253 | returns the canonical digest exactly of the contracts that may follow the previous one |
| Contracts.ContractExactly | scripts/poc_contract.py:132-253 | a contract is accepted exactly if it is sound and, as an initial one, a registry, or else follows a sound one: the same in six ownership fields, never back to registry, naming the registry's digest, and keeping every service-generated secret |
| Contracts.HistoryExactly | scripts/poc_contract.py:190-253 | the histories are exactly the series of sound contracts that begin with a registry and of which each may follow the one before |
| Contracts.PhasesInOrder | scripts/poc_contract.py:205-253 | the phases of every history are registries followed by workloads |
| Contracts.OwnershipConstant | scripts/poc_contract.py:205-220 | account, region, environment, backend, registries and mail identity are the same in any two contracts of a history |
| Contracts.FirstWorkloadBound | scripts/poc_contract.py:196-202 | the first workload's release names the last registry contract and no other document but a collision with it |
| Contracts.SecretsFrozen | scripts/poc_contract.py:221-228 | a service-generated secret reference never changes once it appears |
| Contracts.ProxiesDisjoint | scripts/poc_contract.py:132-160 | in every workload of a history an address matches at most one trusted proxy |
| Materializer.Disk.WriteFile | scripts/poc_workload_materializer.py:181-194 | it stops at the first failing call; after a failure only that file differs and the child cannot enter; success leaves its bytes, group and mode |
| Materializer.Disk.RollBack | scripts/poc_workload_materializer.py:243-251 | it goes through exactly if all its calls work, leaving the parent without the directory; one that fails never lets the child see a partial directory |
| Materializer.Disk.Populate | scripts/poc_workload_materializer.py:220-250 | all calls working, everything is published; any one failing call of the guarded part is undone and the parent is exactly as before; at every state the child may enter, all files are complete with their modes; an unpublished directory stays behind only if creating it took effect but that call or opening it failed, or if a call of the rollback fails as well |
| Materializer.PublishedExactly | scripts/poc_workload_materializer.py:146-250 | published is a directory 0750 of the child's group with the four files, 0440 and the interpreter 0550, and nothing else; in a safe parent the child never enters one with other files |
| BranchPolicies.ValidatedPolicies | scripts/configure_github_repository_controls.py:184-217 | gives the records in id order exactly if the whole response is sound, distinct and complete |
| BranchPolicies.ResponseExactly | scripts/configure_github_repository_controls.py:184-217 | a response is acted on exactly if every record has a positive integer id of its own, a trimmed name and type `branch` or `tag`, and the total is their number |
| BranchPolicies.PolicyServer.Configure | scripts/configure_github_repository_controls.py:220-240 | no mutation unless the listing validates; the smallest `main` rule is there in every state; what a run cut off anywhere has done; a lone `main` rule is left alone |
| BranchPolicies.Converges | scripts/configure_github_repository_controls.py:220-240 | any series of cut-off runs followed by a complete one ends with exactly one rule, the smallest `main` of every earlier state that had one |
| Rulesets.ReconcileChecks | scripts/_github_repository_controls.py:64-101 | the loops give the hardened checks followed by the missing gates |
| Rulesets.RulesetPayload | scripts/_github_repository_controls.py:142-175 | the payload's rules are the four hardened ones followed by the rules of other types |
| RulesetReference.PayloadExactly | scripts/_github_repository_controls.py:64-182 | the builder returns exactly: the last deletion and force-push rule or a plain one, the last review rule with the gates set and a larger count kept, the last status rule with its checks and the missing gates in order, then the rules of other types in order; and fails exactly if there is no such list |
| Rulesets.Blockers | scripts/_github_repository_controls.py:330-410 | there are no blockers exactly if contexts, issuer, strictness and reviews are right, and each missing one is reported |
| RulesetReference.UnblockedExactly | scripts/_github_repository_controls.py:254-410 | no blockers exactly if every gate is required by context or name, the promotion gate from its issuer, some status rule is strict, and the first review rule asks for reviews with all four flags |
| RulesetProperties.PayloadUnblocked | scripts/_github_repository_controls.py:113-182 | what the builder accepts has no blockers exactly unless the existing review count is a float above one |
| RulesetProperties.FloatCountBlocked | scripts/_github_repository_controls.py:129-139 | a count of 1.5 is built and then blocked |
| RulesetProperties.ChecksKept | scripts/_github_repository_controls.py:64-110 | every existing check stays in place with context and issuer, and only gates no check names are added |
| RulesetProperties.OthersKept | scripts/_github_repository_controls.py:155-175 | rules of other types are kept, in order, and nothing else is added |
| RulesetProperties.PayloadFixedPoint | scripts/_github_repository_controls.py:142-182 | building from a built ruleset gives it back |
| StackConfig.Document.MaterializePins | scripts/_pulumi_stack_config.py:346-374 | succeeds exactly if every provider entry equals its pin, and leaves the specified document |
| StackConfig.Document.Configure | scripts/_pulumi_stack_config.py:531-555 | the document after the whole step is that of the specification `Configured` |
| StackConfig.ConfiguredExactly | scripts/_pulumi_stack_config.py:332-555 | the step succeeds exactly on documents without a salt, with no other encryption and only pinned provider entries, that agree with the workload; and leaves exactly the document with the encryption, the five pins, the other settings and the workload's |
| StackConfig.PinsExact | scripts/_pulumi_stack_config.py:346-374 | exactly the pinned `aws:` entries are left with their values, and every other setting and part is unchanged |
| StackConfig.PinsSize | scripts/_pulumi_stack_config.py:346-374 | there are five of them |
| StackConfig.MergeExtends | scripts/_pulumi_stack_config.py:509-528 | the workload merge changes no setting and adds exactly the workload's |
| StackConfig.ConfigurationIdempotent | scripts/_pulumi_stack_config.py:531-555 | running the whole step on its own output changes nothing |

## Left out

- Byte encodings of JSON input: text arrives decoded, and the byte codec of the wire form is a parameter that gives back what it was given.
- The recursion and integer-digit limits of Python's JSON module, and float texts that overflow to infinity, which the model's reader refuses.
- The literal composition of the registry and workload graphs, account numbers, ARNs, tags and provider metadata: parameters with the shape the gates need.
- The JSON Schema of contracts and projections and the mail, registry and release semantics of a contract: one predicate.
- Non-string identifiers, unhashable list items and symbolic links, on which the program raises: the model's types exclude them or count them as refusals.
- Unknown fields of goals, steps and saved plans in the registry and topology gates: records with exactly the known fields stand for them; lifecycle flags are one boolean. The no-change gate keeps raw JSON and checks its field lists.
- The replay itself: a relation that keeps retained rows and gives created rows every value their goal knows; ids and values not known yet are the engine's, and secrets are wrapped anew.
- Changes of artifacts between the check of a stack's files and their use by Pulumi, and by others during a plan run.
- SavedPlanRuns.ReplaysAreSealed: other writers may change every artifact and damage or remove the manifest, but do not write one, because the manifest itself is not signed.
- JsonWriting.LoadsExactly: scalars are spelled as the reader of one scalar takes them; `ScalarSpelling` says which spellings that are for strings and numerals.
- WorkloadProjection.WireRoundTrip: documents with a split surrogate pair, which are encoded and then not read back, are excluded by the right-hand side.
- The parse of Pulumi previews and the destructive-step classifier: one predicate on preview bytes.
- Failing calls of the object store are refusals, and its reads return the stored bytes of the version asked for.
- Textual notation of IP networks: strict parsing and canonical text are parameters; blocks are aligned numbers of 32 or 128 bits.
- The materializer's `_documents`, whose two in-place steps are those of `StackConfig`, and its checks of the worker, of ownership and of link counts.
- The claim of a comment command (`claim_request`), a read followed by a post that relies on the workflow's own serialization.
- Status-check contexts that are not strings, which the ruleset verifier turns into text; the builder refuses them.
- YAML loading and the validators of workload settings in `StackConfig`: one predicate, of which only that the settings are strings and not the provider's is used.
- Component construction, command lines, HTTP, the AWS and GitHub tools, summaries and reports.
