# Verification of the agent daemon

The daemon registers, starts, stops and kills sandboxed agents, answers policy questions about them, and keeps a
registry file and an audit log. This project models three connected parts of it and proves what they promise.

**A. The daemon as a concurrent system that can crash.** `Machine` is a state machine: one step is one lock-protected
section, one file operation or one audit append, and a crash may come before any step. Start, Stop and Kill release the
manager lock around the systemd call, so calls in flight carry the pointer they captured, and the engine's half of
Register, Unregister and the load loop is a step of its own. Every theorem about runs is for all `Behavior`s: any length,
any interleaving, any save failure, any number of crashes and restarts. `Objects`, `AuditLog`, `PolicyEngine`, `Storage`,
`Sandbox`, `AgentManager` and `ApiServer` are the same parts as heap objects: methods write fields in place through
pointers, and each is proved equal to the changes of module `Memory` from which the machine is built, so the theorems about
the machine speak of the objects. An agent record is an object too: a runtime agent embeds one, the engine keeps pointers to
others, a write through a runtime agent reaches whatever object it embeds, and that the two never share one is proved, on
the objects (`AgentManager.Manager.EngineRecordsAreCopies`) and on every run (`Lifetimes.EngineRecordsAreSeparate`).
`SequentialRuns` proves the converse link: each whole call is a run of the machine.

**B. The decision rules.** `Rego` gives rule programs their meaning (a rule holds if some body holds, `not` of a failed or
erring literal holds), `BasePolicy` writes the shipped rules down as such a program, and `Decisions`, `NetworkDecisions` and
`OperatorModules` prove what the program decides for every agent record the manager can create, and how added modules
change it. What the library behind `net.cidr_contains` makes of IPv6 addresses and prefixes is a parameter: every theorem
holds for every library. `PolicyInFull` states the whole decision once more as one condition on strings and addresses.
`DecisionLog` and `PolicyLog` bring this back to part A: what any evaluation of any run answers and logs.

**C. Names.** `Identity`, `Paths` and `FalcoIds` prove the string facts on which isolation and purging rest.

How the modules build on each other:

- `Text`, `Identity`, `Paths`, `FalcoIds`, `Address`: strings, paths and addresses
- `Records`, `Rego`, `BasePolicy`, `RuleMeanings`, `Decisions`, `NetworkDecisions`, `OperatorModules`: the rules;
  `PolicyInFull`: what they decide, spelled out without them
- `Registry`, `EngineState`, `Memory`, `Machine`: the system on values
- `StepFrames` and `Footprints` (what each step changes), `MachineInvariants`, `Lifetimes`, `AuditReplay`,
  `StartCounting`, `Evaluations`, `DecisionLog`, `LateWrites`, `DurableRuns`, `Provenance`, `PolicyLog`: theorems about
  behaviors
- `RunLaws`, `SequentialRuns`, `FirstRuns`, `KilledRuns`, `RestartedUnits`: theorems about runs from one state to another
- `Units`: whole calls and systemd units; `UnitStates`: the manager's changes to memory are those calls
- `Objects`, `AuditLog`, `PolicyEngine`, `Storage`, `Sandbox`, `WholeCalls`, `AgentManager`, `ApiServer`: the objects

`dafny verify dfyconfig.toml` checks everything.

## Assumptions

- A lock-protected section is atomic; renaming a file is atomic; a partly written file does not parse as JSON, a complete one
  decodes to what was encoded. Losing power after a rename is not considered.
- A compiled policy query is a pure function of its input, and the policy files do not change during one load.
- Strings are sequences of bytes. Times are opaque values.
- Facts that need a root that is not empty, or the default root, say so; the others hold for every root.
- What systemd does with a job is an outcome chosen by the environment; so are I/O failures and clock readings.

## Where code, comments and documentation differ

- A killed agent need not stay killed: from the initial state there is a run in which a Start in flight writes `running`
  over it (`KilledRuns.KilledIsNotFinal`). It stays killed, through everything but a new Start or Stop, exactly when no Start
  or Stop that has captured the object is in flight (`KilledRuns.KilledIsFinal`). The exact count of Starts in flight is
  `StartCounting.StartsInFlight`.
- "Agents cannot access other agents' workspaces" is a comparison of text. With `..` segments an agent is allowed to read and
  write in another agent's directory, for instance its own workspace path followed by `/../../` and the other id; without
  them it is not, even after cleaning (`Decisions.CleanedIsolation`).
- "Deny overrides allow" holds only inside the shipped `allow` body. A custom module of the documented kind (an `allow` body
  of its own) is vetoed in every case exactly when its directory and the denied directories do not contain each other
  (`OperatorModules.DenyPrecedence`).
- A comment says the infrastructure profile overrides the private-range block; the rules do not
  (`NetworkDecisions.NetworkExactly`).
- `filesystem_delete` and `exec` are never allowed, whatever the profile documentation says of executables
  (`Decisions.OnlyFourTypesAllowed`).
- A critical alert kills the agent whatever `auto_kill_on_critical` says: the setting is parsed and not read.
- A registry file that cannot be read only draws a warning: the daemon comes up without agents, and the next save overwrites
  the file with what was registered since (`DurableRuns.UnreadableForgets`, `DurableRuns.UnreadableIsOverwritten`).
- With an empty root a purge removes `/id`, not the directory that was provisioned (`Paths.PurgedDirIsAgentDir`).
- The result of a stop job is not looked at, and units outlive the daemon while recorded states do not. Unit safety therefore
  depends on what systemd does (`Units.UnitSafety`), and after a restart on there being no active unit
  (`Units.SafeAfterRestart`). A failed save or an unreadable file even leaves active units that no agent owns: exactly when an
  agent with an active unit is not among those restored (`RestartedUnits.OwnedAfterCrash`); a run that ends so is
  `RestartedUnits.FailedSaveOrphans`.

## Model

| member | source | states |
|---|---|---|
| Identity.PatternMeaning | daemon/internal/agent/identity.go:11 | the anchored pattern, matched by derivation, accepts exactly the strings of 2 to 64 characters `a`-`z`, `0`-`9` and `-` that neither begin nor end with `-` |
| Identity.ValidateIDDecides | daemon/internal/agent/identity.go:15-27 | which of the three errors or success each string gets; the separator error never occurs |
| Identity.UnitNameInjective | daemon/internal/agent/identity.go:48-50 | different ids have different unit names |
| Identity.WorkspacesNeverOverlap | daemon/internal/agent/identity.go:40-42 | no path begins with the workspace paths of two valid ids |
| FalcoIds.NormalizeFindsTheAgent | daemon/internal/api/server.go:304-306 | normalisation returns a valid id exactly for the texts that render it with some hyphens as underscores |
| FalcoIds.AlertTargetsOneUnit | daemon/internal/api/server.go:304-323 | a rendered id leads to that agent's unit and no other valid id's |
| FalcoIds.UpperFindsCritical | daemon/internal/api/server.go:307 | the upper-cased priority is `CRITICAL` exactly for the eight letters of the word, each in either case |
| Paths.CleanLeadsToTheSame | daemon/internal/agent/lifecycle.go:141 | lexical cleaning: the cleaned path leads where the path does, from the root or from any directory, without empty or `.` segments and, if rooted, without `..` |
| Paths.PurgedDirIsAgentDir | daemon/internal/agent/lifecycle.go:139-145 | the directory purged is root/id, however the root is spelled, if and only if the root is not empty |
| Paths.PurgeIsConfined | daemon/internal/agent/lifecycle.go:139-145 | a purge removes exactly the paths under root/id, and for any root none of another valid id |
| Paths.PurgeKeepsRegistry | daemon/internal/agent/registry.go:24-55 | registry.json, registry.json.tmp and the root survive every purge, for any root |
| Paths.PurgeUndoesProvision | daemon/internal/agent/sandbox.go:59-83 | however far provisioning got, a purge leaves nothing of it below the root |
| Paths.ProvisionMakes | daemon/internal/agent/sandbox.go:59-83 | for each way provisioning can break off, which paths exist afterwards; the workspace path is returned exactly when directory, workspace and metadata file are all there |
| Paths.ProvisionIsIdempotent | daemon/internal/agent/sandbox.go:59-83 | provisioning after a complete or broken-off attempt gives what one attempt gives |
| Address.ParseOfPrint | policy/base/network_policy.rego:16-42 | dotted-quad text of an address parses to it |
| Address.PrintOfParse | policy/base/network_policy.rego:16-42 | every text that parses is the canonical text of its address |
| Address.MaskClearsLowBits | policy/base/network_policy.rego:46-56 | masking octet by octet subtracts the remainder modulo the block size |
| Address.PrefixIsInterval | policy/base/network_policy.rego:46-56 | the prefix test is membership in an interval of addresses |
| Rego.Monotone | policy/base/agent_permissions.rego:29-42 | if rules grow and shrink only where negation permits, decisions move the same way |
| Rego.SameBodiesSameDecision | daemon/internal/policy/engine.go:64-95 | order and repetition of rule bodies do not matter |
| Rego.LoadOrderIrrelevant | daemon/internal/policy/engine.go:64-95 | order and repetition of loaded modules do not matter |
| BasePolicy.BaseIsRanked | policy/base/agent_permissions.rego:29-135 | no shipped rule depends on itself, so the program has one meaning |
| RuleMeanings.AuditMeaning | policy/base/agent_permissions.rego:44-57 | audit is required exactly for the infrastructure profile, connections and executions |
| Decisions.DecisionByType | policy/base/agent_permissions.rego:29-135 | the whole allow/deny program as one condition per action type, for any record and any address library; connections are spelled out by NetworkExactly |
| Decisions.OnlyFourTypesAllowed | policy/base/agent_permissions.rego:29-96 | deletes, executions and unlisted action types are allowed to nobody |
| Decisions.WorkspaceUsable | policy/base/agent_permissions.rego:61-71 | an agent may read and write its whole workspace if and only if no sensitive prefix begins the workspace path |
| Decisions.ClosedForm | policy/base/agent_permissions.rego:29-135 | under the default root no deny body vetoes a filesystem allow body: reads and writes equal a negation-free condition |
| Decisions.Isolation | policy/base/agent_permissions.rego:130-135 | a filesystem action whose path begins with another agent's workspace path is allowed for some action if and only if that workspace path begins with the policy directory; never under the default root |
| Decisions.CleanedIsolation | policy/base/agent_permissions.rego:61-83 | no allowed read or write lies in another agent's directory after cleaning, if and only if `..` segments are excluded |
| Decisions.WriteIsConfined | policy/base/agent_permissions.rego:67-71 | an allowed write lies under root/id by segments, in an entry that begins with `workspace`; without `..` also after cleaning |
| Decisions.ReadsRefineFilesystemPolicy | policy/base/filesystem_policy.rego:51-76 | allowed reads are permitted and not never-readable, for every root |
| Decisions.WritesRefineFilesystemPolicy | policy/base/filesystem_policy.rego:46-60 | exactly when all allowed writes are workspace writes and not never-writable; always under the default root |
| NetworkDecisions.PrivateBlocks | policy/base/network_policy.rego:46-56 | the three prefix tests are the three ranges of section 3 of RFC 1918 |
| NetworkDecisions.BlockedTexts | policy/base/network_policy.rego:28-37 | the textual blocklist, for every text: two IPv4 addresses in canonical spelling, one IPv6 spelling, one host name |
| NetworkDecisions.NetworkExactly | policy/base/network_policy.rego:13-65 | the connections allowed to each profile, exactly: in terms of addresses for IPv4 addresses and host names, of the library's answers for other texts |
| NetworkDecisions.ProfilesAreAdditive | docs/policy-reference.md:89-98 | all that minimal may do developer may; developer and infrastructure may do the same; for every resource and library |
| PolicyInFull.AllowInFull | policy/base/agent_permissions.rego:29-135 | for every record, action and address library the rules allow exactly what one condition on the literal action types, profiles, paths and addresses says |
| PolicyInFull.DenyInFull | policy/base/agent_permissions.rego:35-42 | the same for what the deny side vetoes, with every path, prefix and binary spelled out |
| PolicyInFull.AuditInFull | policy/base/agent_permissions.rego:44-57 | auditing is required exactly for profile `infrastructure` and types `network_connect` and `exec` |
| PolicyInFull.FilesystemInFull | policy/base/filesystem_policy.rego:33-76 | the four filesystem rules, spelled out |
| PolicyInFull.DefaultRootInFull | docs/policy-reference.md:101-118 | a managed agent of the default root reads exactly what is public or begins with its workspace path, writes exactly what begins with it, and so writes no documented system path |
| OperatorModules.RankIrrelevant | daemon/internal/policy/engine.go:64-95 | the meaning does not depend on the order of rules chosen to define it |
| OperatorModules.ExtraAllowEnlarges | policy/base/agent_permissions.rego:29-96 | added allow-side bodies only enlarge what is allowed |
| OperatorModules.ExtraDenyShrinks | policy/base/agent_permissions.rego:29-42 | added deny-side bodies only shrink what is allowed |
| OperatorModules.DenyPrecedence | docs/policy-reference.md:52-71 | with a documented custom module, deny still beats allow for every managed agent of the default root if and only if the module's directory and the denied ones do not contain each other |
| Registry.SavedEntriesListTheAgents | daemon/internal/agent/registry.go:30-42 | for every iteration order a save lists each agent once, with its durable fields |
| Registry.LoadAddsEach | daemon/internal/agent/lifecycle.go:165-178 | for any entries, repeated ids included: agents that are there stay, and each other id gets the agent of its first entry, idle, with that entry's fields |
| Registry.LoadRebuilds | daemon/internal/agent/lifecycle.go:156-180 | loading a listing rebuilds every agent, registered and idle; nothing is skipped |
| Registry.SaveThenLoad | daemon/internal/agent/registry.go:30-86 | save then load, for every map and order, gives every agent back with the same record but for the last start, the same executable, and no state, times or reason |
| StepFrames.WriteKeepsRecords | daemon/internal/agent/lifecycle.go:183-289 | a write of Start, Stop or Kill changes no map, no record field but the last start, and no record but the one its object embeds |
| MachineInvariants.ShapeKept | daemon/internal/agent/lifecycle.go:68-289 | every step keeps pointers, keys, ids and workspace paths well formed |
| MachineInvariants.AgreementKept | daemon/internal/agent/lifecycle.go:97-133 | every step keeps manager and engine in agreement up to the operation under way |
| MachineInvariants.DiskKept | daemon/internal/agent/registry.go:30-55 | every step keeps the registry file one complete save |
| Lifetimes.ManagerAndEngineAgree | daemon/internal/agent/lifecycle.go:97-180 | in every state the id sets differ by at most one id; with the lock free they are equal, and records agree but for the last start |
| Lifetimes.RegistryFileIsComplete | daemon/internal/agent/registry.go:49-74 | in every state the file holds the whole last successful save, whatever crashed |
| Lifetimes.RestartRebuilds | daemon/internal/agent/lifecycle.go:156-180 | after a restart manager and engine hold exactly the last save, every agent registered |
| Lifetimes.RestoreNeverSkips | daemon/internal/agent/lifecycle.go:166-168 | the load loop's skip is never taken |
| Lifetimes.CapacityAndNames | daemon/internal/agent/lifecycle.go:69-104 | over all lifetimes memory and file stay within MaxAgents, with valid ids, matching keys and canonical paths |
| Lifetimes.QueriesAreLastLoad | daemon/internal/policy/engine.go:48-60 | the engine always holds the three profiles of the last successful load |
| AuditReplay.AuditReplayGivesTheAgents | daemon/internal/agent/lifecycle.go:68-150 | folding the registration events of a lifetime over the restored ids gives the registered ids whenever the lock is free |
| Provenance.EveryAgentWasRegistered | daemon/internal/agent/lifecycle.go:89-104 | in every state of every run, restarts included, each agent has id, profile, executable, workspace and registration time of an accepted Register of the run, in the manager and in the engine |
| Provenance.EveryEntryWasRegistered | daemon/internal/agent/registry.go:30-55 | and so has each entry of the registry file, whatever was saved, lost or restored |
| StartCounting.StartsInFlight | daemon/internal/agent/lifecycle.go:183-289 | Starts in flight on any object of the lifetime, registered or removed, are its mark `starting` plus the Stop and Kill writes that took that mark, minus the results written late |
| StartCounting.RacingStartsAreExclusive | daemon/internal/agent/lifecycle.go:127-129 | without Stop and Kill at most one Start is in flight, and Unregister then leaves the agent alone |
| Evaluations.EvaluationIsLinearizable | daemon/internal/policy/engine.go:100-165 | an evaluation's answer and log entry are the decision on queries and records of one instant during the call, although writes to agents, reloads and removals run in between |
| LateWrites.RemovedStaysRemoved | daemon/internal/agent/lifecycle.go:97-132 | a removed object never re-enters the map |
| LateWrites.LateWriteChangesNoAgent | daemon/internal/agent/lifecycle.go:223-262 | the late write of a Start or Stop on an agent unregistered meanwhile changes no registered agent and no record of the engine, even if the id is back |
| KilledRuns.KilledIsFinal | daemon/internal/agent/lifecycle.go:230-283 | a killed agent stays killed, through every continuation without a new Start or Stop, if and only if no Start or Stop in flight holds its object |
| KilledRuns.KillInRun | daemon/internal/agent/lifecycle.go:276-283 | the same right after the Kill write of any run |
| KilledRuns.KilledIsNotFinal | daemon/internal/agent/lifecycle.go:230-235 | for every configuration and valid id, a run from the initial state in which a killed agent becomes running |
| DurableRuns.FileEqualsMemory | daemon/internal/agent/lifecycle.go:106-137 | after a save the file equals memory's durable part until the next Register, Unregister or crash |
| DurableRuns.UnreadableForgets | daemon/cmd/atomicagentd/main.go:133-137 | a restart comes up without agents at once if and only if the file exists and cannot be read |
| DurableRuns.UnreadableUntilSave | daemon/cmd/atomicagentd/main.go:133-137 | from then to the next save the file stays, and every agent in memory was registered since |
| DurableRuns.UnreadableIsOverwritten | daemon/internal/agent/registry.go:49-55 | that save leaves in the file only agents registered since |
| DurableRuns.PurgeHitsOneAgent | daemon/internal/agent/lifecycle.go:139-145 | in every state a purge by the recorded path touches no other registered agent and not the registry |
| DecisionLog.LogOnlyGrows | daemon/internal/audit/logger.go:57-92 | over every run, restarts included, the log is only appended to |
| DecisionLog.EveryDecisionHasAnInstant | daemon/internal/api/server.go:246-274 | whatever policies are loaded, every logged allow and deny is what queries and records of one earlier state of the run decide |
| PolicyLog.ShippedDecision | daemon/internal/policy/engine.go:100-165 | with shipped policies a registered agent under a loaded profile always gets an answer, never an error: `allow` exactly by `PolicyInFull.MayDo`, no reasons, auditing exactly by profile and type |
| PolicyLog.EveryDecisionIsRuled | daemon/internal/api/server.go:246-274 | in every run with shipped policies each logged decision, allow or deny, is that decision on the records of one earlier state, with its profile and reasons, or the denial of an unknown agent or profile |
| PolicyLog.EveryAnswerIsRuled | daemon/internal/policy/engine.go:126-165 | and so is each answer of an evaluation, in any state, its audit flag included |
| PolicyLog.EveryAllowIsGranted | daemon/internal/policy/engine.go:100-165 | with shipped policies, for every logged allow an earlier state of the run holds a record of that agent in the engine, under that profile, which the rules allow the action; so unknown agents and profiles never get one |
| PolicyLog.LoggedAllowsAreIsolated | policy/base/agent_permissions.rego:29-135 | in every such run under the default root: one of four action types, writes beginning with the agent's own workspace path, no file action beginning with another's, and without `..` none in another's directory after cleaning |
| PolicyLog.ShippedQuery | policy/base/agent_permissions.rego:20-57 | queries that answer as the rules do exist for every library |
| Units.HarmlessIsSafe | daemon/internal/agent/sandbox.go:91-210 | every call and exit keeps "an active unit is that of a registered, running agent" unless systemd does harm |
| Units.HarmfulIsUnsafe | daemon/internal/agent/lifecycle.go:218-289 | and each harmful outcome breaks it |
| Units.UnitSafety | daemon/internal/agent/lifecycle.go:119-289 | from any safe world, in particular any agents with no unit active, all later states are safe if and only if no outcome is harmful |
| Units.RunningMeansStarted | daemon/internal/agent/lifecycle.go:218-289 | after any calls an agent is recorded as running if and only if some start of it succeeded (no active unit, a job that is done) and no Stop or accepted Kill came after |
| Units.UnregisterLeavesNoUnit | daemon/internal/agent/lifecycle.go:127-132 | in a safe world no agent with an active unit is removed |
| Units.SafeAfterRestart | daemon/internal/agent/lifecycle.go:153-155 | safety survives a restart if and only if no unit is active |
| Units.OwnedAfterRestart | daemon/internal/agent/lifecycle.go:106-180 | from a safe world, every unit keeps an owner if and only if every agent with an active unit is restored |
| Units.UnregisterAfterRestart | daemon/internal/agent/lifecycle.go:127-132 | after a restart any restored agent can be unregistered, and ownership then holds if and only if it held before and the agent's unit is not active |
| RestartedUnits.WorldAfterRestart | daemon/internal/agent/lifecycle.go:153-180 | from a crash to the next time the daemon is up: units stay, and the agents are those of the last save, or none if the file cannot be read |
| RestartedUnits.OwnedAfterCrash | daemon/internal/agent/lifecycle.go:106-108 | if all was safe at the crash, every unit has an owner afterwards if and only if every agent with an active unit was in the last save and the file was read |
| RestartedUnits.FailedSaveOrphans | daemon/internal/agent/lifecycle.go:106-108 | for every configuration and valid id, a run from the initial state in which a failed save and a restart leave an active unit without an agent |
| Units.StopsRecover | daemon/internal/agent/lifecycle.go:244-268 | stopping the agents that own the active units makes a restarted world safe again |
| Lifetimes.DistinctAlways | daemon/internal/agent/lifecycle.go:97-103 | in every state of every run distinct ids point to distinct objects |
| Lifetimes.EngineRecordsAreSeparate | daemon/internal/agent/lifecycle.go:90-104 | in every state no runtime agent embeds a record that another, the engine or an evaluation in flight holds |
| UnitStates.StartRefines | daemon/internal/agent/lifecycle.go:183-241 | the changes of a whole Start are the start of module Units |
| UnitStates.StopRefines | daemon/internal/agent/lifecycle.go:244-268 | the same for Stop |
| UnitStates.KillRefines | daemon/internal/agent/lifecycle.go:271-289 | the same for Kill |
| UnitStates.RegisterRefines | daemon/internal/agent/lifecycle.go:68-114 | the same for Register, accepted or refused |
| UnitStates.UnregisterRefines | daemon/internal/agent/lifecycle.go:119-151 | the same for Unregister, accepted or refused |
| WholeCalls.RefusalDecides | daemon/internal/agent/lifecycle.go:69-87 | the ordered checks of Register accept exactly what the machine's step accepts |
| WholeCalls.RestoreShows | daemon/internal/agent/lifecycle.go:156-180 | the changes of the load loop are the load of module Registry, for any entries |
| WholeCalls.RestoreTellsEngine | daemon/internal/agent/lifecycle.go:175-176 | and every agent they add is in the engine with the record the manager has |
| SequentialRuns.StartRuns | daemon/internal/agent/lifecycle.go:183-241 | an undisturbed Start is a run of the machine with exactly the method's changes |
| SequentialRuns.StopRuns | daemon/internal/agent/lifecycle.go:244-268 | the same for Stop |
| SequentialRuns.KillRuns | daemon/internal/agent/lifecycle.go:271-289 | the same for Kill |
| SequentialRuns.RegisterRuns | daemon/internal/agent/lifecycle.go:89-114 | the same for Register, for every outcome of the save |
| SequentialRuns.UnregisterRuns | daemon/internal/agent/lifecycle.go:131-150 | the same for Unregister |
| SequentialRuns.RestoreRuns | daemon/internal/agent/lifecycle.go:156-180 | the whole load loop is a run with exactly the method's changes, whatever the entries |
| SequentialRuns.EvaluateRuns | daemon/internal/api/server.go:246-274 | an undisturbed evaluation request is a run that logs the decision of now |
| SequentialRuns.ReloadRuns | daemon/internal/api/server.go:276-284 | an undisturbed reload is a run that swaps the queries and logs, or does neither |
| AuditLog.Logger.Log | daemon/internal/audit/logger.go:57-92 | journal and stderr together keep every event once; the file keeps them in order but for failed writes, which are counted |
| AuditLog.Logger.FileIsComplete | daemon/internal/audit/logger.go:89-91 | if no file write failed the file is the log |
| AuditLog.Logger.LogAgentAction | daemon/internal/audit/logger.go:95-111 | one event, a denial exactly for the decision `deny` |
| AuditLog.Logger.LogRuntimeAlert | daemon/internal/audit/logger.go:114-127 | one event, critical exactly if told so |
| AuditLog.Logger.LogAgentLifecycle | daemon/internal/audit/logger.go:130-134 | one event of the given kind |
| PolicyEngine.LoadSucceedsWhen | daemon/internal/policy/engine.go:48-95 | a load succeeds if and only if every base file is readable and each profile has modules that compile; each profile then has what its own modules compile to |
| PolicyEngine.OneDirectory | daemon/internal/policy/engine.go:67-85 | one directory gives its base files in glob order, each with its path and text, then the readable overlay of the profile, and nothing else |
| PolicyEngine.DirectoryByDirectory | daemon/internal/policy/engine.go:67-85 | the modules of several directories are those of each, one after the other, or none if one has an unreadable base file |
| PolicyEngine.CompiledFiles | daemon/internal/policy/engine.go:67-85 | a file is compiled for a profile if and only if one of the directories that exist has it as a base file or as the readable overlay of that profile |
| PolicyEngine.OverridesOnlyAdd | daemon/internal/policy/engine.go:64-95 | operator modules come after the shipped ones, all of both |
| PolicyEngine.Engine.NewEngine | daemon/internal/policy/engine.go:25-44 | an engine exists if and only if all profiles load, with exactly the queries of the three profiles and no agents |
| PolicyEngine.Engine.LoadPolicies | daemon/internal/policy/engine.go:48-60 | the loop fills the map with every profile's query or fails |
| PolicyEngine.Engine.PrepareQuery | daemon/internal/policy/engine.go:64-95 | the nested loops compile the modules that OneDirectory, DirectoryByDirectory and CompiledFiles describe, or fail at an unreadable base file or with none |
| PolicyEngine.Engine.Reload | daemon/internal/policy/engine.go:191-208 | all queries are replaced or none |
| PolicyEngine.Engine.RegisterAgent | daemon/internal/policy/engine.go:169-173 | the pointer itself is kept under the id its record has |
| PolicyEngine.Engine.UnregisterAgent | daemon/internal/policy/engine.go:176-180 | only the one id goes |
| PolicyEngine.Engine.Find | daemon/internal/policy/engine.go:101-124 | the locked half of Evaluate: the pointer and query of this instant |
| PolicyEngine.Engine.Decide | daemon/internal/policy/engine.go:126-165 | the unlocked half: an error exactly for a failed query or a result that is no object; each flag exactly if the object has `true` under its name; the strings of `reasons` |
| PolicyEngine.Engine.Evaluate | daemon/internal/policy/engine.go:100-165 | undisturbed: the denial of an unknown agent or profile, or what the query reports on the current record, flag by flag |
| EngineState.DecisionReports | daemon/internal/policy/engine.go:100-165 | the same of every decision on values, so of every answer in the theorems about runs |
| EngineState.TextsInOrder | daemon/internal/policy/engine.go:150-157 | an item of the list that is a string stays where it is among the reasons, any other goes |
| PolicyEngine.TextsOf | daemon/internal/policy/engine.go:150-157 | the reasons are the strings of the list, in order |
| Storage.CollectEntries | daemon/internal/agent/registry.go:30-42 | one entry per agent in some iteration order |
| Storage.SaveRegistry | daemon/internal/agent/registry.go:30-55 | the files after each possible failure of a save; the registry changes only on success |
| Sandbox.SandboxManager.ProvisionWorkspace | daemon/internal/agent/sandbox.go:59-83 | directories and metadata made up to the first failure |
| Sandbox.SandboxManager.StartAgent | daemon/internal/agent/sandbox.go:91-176 | a success exactly if no unit of the name is active and the job ends as `done`; the unit is active afterwards exactly if it was or the job left it so; no other unit changes |
| Sandbox.SandboxManager.StopAgent | daemon/internal/agent/sandbox.go:179-188 | a success exactly if the request is taken; the unit stays active exactly if it was and the request was refused or left it so; no other unit changes |
| Sandbox.SandboxManager.KillAgent | daemon/internal/agent/sandbox.go:191-210 | the same for the kill request |
| AgentManager.Manager.EngineRecordsAreCopies | daemon/internal/agent/lifecycle.go:90-104 | whenever the manager's invariant holds, no runtime agent ever created embeds a record object the engine points to |
| AgentManager.Manager.SnapshotIsSeparate | daemon/internal/agent/lifecycle.go:90-104 | the same of the state as a value |
| AgentManager.Manager.Register | daemon/internal/agent/lifecycle.go:68-114 | each refusal exactly when its reason holds and no earlier one does, with nothing changed; else the given id, profile, executable and time and the canonical workspace in a fresh idle object, in another record of the engine and, if the save succeeds, in the file; one event |
| AgentManager.Manager.TellEngine | daemon/internal/agent/lifecycle.go:104 | the engine gets the address of a record that no runtime agent embeds |
| AgentManager.Manager.Unregister | daemon/internal/agent/lifecycle.go:119-151 | accepted exactly for a registered, stopped, killed or failed agent: gone from map and engine, saved, its directory purged if asked, one event; else nothing changes |
| AgentManager.Manager.LoadPersistedAgents | daemon/internal/agent/lifecycle.go:156-180 | the agents afterwards are the load of the listed entries, each new one in the engine with the same record; no event |
| AgentManager.Manager.StartBegin | daemon/internal/agent/lifecycle.go:184-198 | the first locked section: refused if running or starting, else the one object is marked |
| AgentManager.Manager.StartEnd | daemon/internal/agent/lifecycle.go:219-235 | the second one writes through the held pointer and the record it embeds, and nothing else |
| AgentManager.Manager.Start | daemon/internal/agent/lifecycle.go:183-241 | an undisturbed Start succeeds exactly if the agent is idle or ended, has no active unit and the job is done; then running since now with one event, otherwise failed with none |
| AgentManager.Manager.StopBegin | daemon/internal/agent/lifecycle.go:245-252 | any registered agent is marked, whatever its state |
| AgentManager.Manager.StopEnd | daemon/internal/agent/lifecycle.go:258-262 | the late write of Stop |
| AgentManager.Manager.Stop | daemon/internal/agent/lifecycle.go:244-268 | an undisturbed Stop succeeds exactly if the agent is known and the request is taken; then stopped since now with one event, otherwise left `stopping` with none |
| AgentManager.Manager.KillEnd | daemon/internal/agent/lifecycle.go:276-283 | the record is looked up by id after the signal |
| AgentManager.Manager.Kill | daemon/internal/agent/lifecycle.go:271-289 | an undisturbed Kill succeeds exactly if the request is taken; then one event, even for an id not registered, and the agent killed since now for the given reason; otherwise nothing changes |
| AgentManager.Manager.GetStatus | daemon/internal/agent/lifecycle.go:292-302 | a fresh copy of the agent |
| AgentManager.Manager.ListAgents | daemon/internal/agent/lifecycle.go:305-314 | distinct fresh copies of all agents, each once |
| ApiServer.Server.HandleFalcoWebhook | daemon/internal/api/server.go:291-326 | one alert event with its rule and output, critical exactly for the eight-letter word in any case; exactly then, if the id is not empty and the request is taken, a kill event and the named agent killed with the rule as reason; every other agent, and every other valid id's unit, is left alone |
| ApiServer.Server.HandleEvaluatePolicy | daemon/internal/api/server.go:246-274 | the decision is answered, and logged as allow or deny with its profile and reasons; an error is not logged; with shipped policies the answer is the spelled-out policy, audit flag included |
| ApiServer.Server.HandleReloadPolicy | daemon/internal/api/server.go:276-284 | all three profiles are swapped and the event logged together, or nothing changes |
| ApiServer.Server.HandleListAgents | daemon/internal/api/server.go:179-191 | one response per registered agent, with its id, profile, state and workspace |
| ApiServer.AlertHitsRenderedAgent | daemon/internal/api/server.go:304-323 | the text names exactly the valid id it renders, whatever systemd does |

## Left out

- NetworkDecisions.NetworkExactly: which answers the address library gives for IPv6 spellings and prefixes is not modelled; the statement is in terms of them.
- FalcoIds.UpperFindsCritical: priorities are upper-cased as ASCII only; a spelling with a dotless i, which the library also upper-cases to `I`, is not found.
- PolicyEngine.Engine.Reload: the list of profile names is a parameter, always the three shipped ones in the calls modelled.
- Units.UnitSafety: about calls one after another; under concurrency recorded states and units can differ.
- OPA's parser, compiler and evaluator: a compiled query is a function; the shipped rules are modelled directly.
- D-Bus, unit properties, resource limits and the delayed reset of a failed unit: only success, failure and activity of a unit remain.
- JSON, time formats, fsync, journal transport, HTTP routing, sockets, the command-line client, configuration parsing.
- `policy/profiles/*.rego`: nothing in `allow` reads these packages.
- Token generation, the executable fallback, audit severities and message texts, validation of policy directories: single-branch facts.
