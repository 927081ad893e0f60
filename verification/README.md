# The gateway agent, modelled and proved in Dafny

The agent runs on a home gateway under Home Assistant's Supervisor. It has to stay
correct through reboots, redelivery, lost uplinks and racing goroutines. This
project models six of its state machines and proves what holds of whole runs.

| Modules | What they model |
|---|---|
| `World`, `SupervisorSpec`, `SupervisorClient`, `Fleet` | the gateway's device, disk and Supervisor as a world in which every call or write uses up one *fate* (done, ignored, rejected, lost before or after the change); when none is left the process dies there |
| `UpdateSpec`, `UpdateAgent`, `UpdateTheorems`, `UpdateOutcome`, `UpdateResume`, `SingleFlight`, `Throttle` | the fleet update pass, what it reports, its resume marker, the single-flight guard, the daily self-check and the recovery cool-down |
| `ShadowProtocol`, `ShadowHandler`, `Translate`, `Documents` | desired-state convergence between cloud, broker and agent, and what the service calls do to a home |
| `Pairing` | the pairing manager at lock granularity |
| `OnboardSpec`, `OnboardEngine`, `OnboardTheorems`, `OnboardProgress`, `OnboardQuiet`, `ZigbeeOptions` | resumable onboarding: check, act and verify over a device |
| `Provision` | the credential store and the agent's copy of it |
| `Command`, `Buffer`, `ConfigState`, `EntityMap` | the command path, the offline buffer, the claim config and the entity map |

The style is the same throughout. What the code does step by step is a class or a
method with a loop, and its contract equates the new state with a specification
function (or a step of a state machine); the lemmas are about that function. Where
goroutines, the cloud or the broker interleave, the machine's steps are those
between two accesses to shared state, and a lemma ties the class to them.
`dafny verify dfyconfig.toml` checks the whole project.

Three statements that look obvious are false of the code. Each has a lemma that says
exactly when it does hold, and one at an input where it fails:

- every commanded update gets exactly one terminal report: `UpdateResume.TerminalReports`
  and `CommandReportExactly`, with `CommandDied`, `DiedBeforeReport`, `TakenOver` and
  `CommandedTwice`;
- an active pairing session has an open join window: `Pairing.StrandedExactly`, with
  `StrandedRun`;
- a restart restores claim and entity map: `ConfigState.RestartRestores`, with
  `EmptyMapNotRestored` and `UnsavedNotRestored`.

Two more conditions are exact in the same way: `EntityMap.InverseExactly` and
`OnboardTheorems.SeparateExactly`.

Where the code and its comments differ, the model follows the code: `splitAction`
accepts later dots although its comment speaks of a single one; the comment on
`handlePairingCommand` says that every failure emits a `failed` event, but a command
without a session, or with an unknown action, only gets its ack; and the parameters of
a command may override the entity that the call names.

## Assumptions

- Order of phases: Supervisor does not report success without effect (`Sincere`).
  Convergence counts the passes whose effects all work; any others may lie between.
  `latest` does not move, and no managed add-on goes by the alias `self`
  (`PlainSlugs`), as in the shipped manifest.
- How many terminal reports an update gets is counted for every life of the unit
  (`TerminalReports`); which later boots drive it is traced through the marker, and
  that for a disk that takes the writes (`CommandReportExactly`).
- Onboarding gets there (`OnboardingSucceeds`) if every call works, in development the
  agent is installed, the manifest has the add-ons that it is asked to configure, and the
  store offers each add-on or a repository that is not there yet brings it.
- Onboarding looks at the gateway from outside, where `self` is an ordinary slug
  (`NoAlias`). The client reads a rejected info request as "not installed"; what
  onboarding does is therefore stated with the number of such misreads, and without
  any for runs in which there are none (`Honest`).
- The shadow protocol assumes that the version file can be written, and that the
  cloud issues one document per version with rising versions. A report without a
  version leaves the cloud's reported version as it is.
- Buffer and command guard have room for at least one entry, as they are built.
- Clocks do not run backwards in the two rate bounds.

## Model

| member | source | states |
|---|---|---|
| `UpdateTheorems.Convergence` | smart-home-agent/internal/agent/update.go:205-276 | however working, crashed, failing and deceived passes follow each other, if at least four working ones finish then one of the first four reports ok, the last one converges, OS, Core and self are current, and every managed add-on that resolves, and the agent itself if it was installed, is installed, fresh and self-updating |
| `UpdateTheorems.SeriesProgress` | smart-home-agent/internal/agent/update.go:205-276 | the finished working passes are first restarts, never more than there were outdated phases, and from then on all converge, with the agent itself fresh and self-updating; the first of them completes the store, from the second on every managed add-on that resolves is current, and nothing in between makes anything worse |
| `UpdateTheorems.PassKeeps` | smart-home-agent/internal/agent/update.go:216-284 | a pass that is cut, fails or is told lies makes nothing worse and leaves a complete store alone |
| `UpdateTheorems.PhasesKeep` | smart-home-agent/internal/agent/update.go:232-269 | the same of the phases |
| `UpdateTheorems.SystemKeeps` | smart-home-agent/internal/agent/update.go:238-269 | the same of the reboot-prone phases |
| `UpdateTheorems.StoreProgress` | smart-home-agent/internal/agent/update.go:289-331 | a finished working pass leaves a complete store, and on a complete store leaves every managed add-on that resolves current |
| `UpdateTheorems.PassProgress` | smart-home-agent/internal/agent/update.go:216-429 | a pass whose calls work never fails: it sets off exactly one restart with its marker set and one phase fewer outdated, or clears the marker, reports ok and leaves nothing outdated |
| `UpdateTheorems.PhasesProgress` | smart-home-agent/internal/agent/update.go:232-269 | the same of the phases alone: managed add-ons current, then one trigger and a smaller rank, or rank zero |
| `UpdateTheorems.SystemProgress` | smart-home-agent/internal/agent/update.go:238-269 | the reboot-prone phases lower the number of outdated phases exactly when they trigger |
| `UpdateTheorems.OneRestart` | smart-home-agent/internal/agent/update.go:238-269 | a finished run of the reboot-prone phases makes exactly one trigger request if it triggered and none otherwise |
| `UpdateTheorems.PhaseOrder` | smart-home-agent/internal/agent/update.go:232-269 | in every pass, failures and crashes included, each trigger is requested only with every managed add-on installed and fresh: the OS update only if one is available, the Core update only with OS current too, the self-update only of an outdated agent with OS and Core current; and nothing is requested after a trigger |
| `UpdateTheorems.PhasesInOrder` | smart-home-agent/internal/agent/update.go:232-269 | the order of the phases once the marker is set |
| `UpdateTheorems.SystemInOrder` | smart-home-agent/internal/agent/update.go:238-269 | the order of OS, Core and self, each trigger being the last request |
| `UpdateTheorems.SelfPhase` | smart-home-agent/internal/agent/update.go:411-429 | the self-update is requested last and only of an outdated agent, however the calls go, and a pass that says it did not trigger made no trigger request |
| `UpdateTheorems.SelfForms` | smart-home-agent/internal/supervisor/supervisor.go:202-220 | the self-update is one request, or its two endpoint forms in order, and nothing after them |
| `UpdateTheorems.MarkerSafety` | smart-home-agent/internal/agent/update.go:224-284 | the marker writes and reports of any pass, cut anywhere: announcement, marker set, marker cleared, terminal report, in this order, and the file holds what was committed last |
| `UpdateTheorems.CrashKeepsMarker` | smart-home-agent/internal/agent/update.go:84-110 | from its first Supervisor call until the clearing write the file names the pass, wherever it is cut; a terminal report comes right after the clearing write; a pass that ends by itself clears exactly when it reports |
| `UpdateTheorems.SettledAfter` | smart-home-agent/internal/agent/update.go:310-331 | from the end of a pass on, however the store grows, every repository is registered that any add-on of the manifest would register |
| `UpdateTheorems.TurnSettles` | smart-home-agent/internal/agent/update.go:311-331 | after its turn an add-on resolves for good or its repository is there for good |
| `UpdateTheorems.AllManaged` | smart-home-agent/internal/agent/update.go:310-331 | on a complete store a pass manages every add-on that resolves |
| `UpdateTheorems.SettledOrder` | smart-home-agent/internal/agent/update.go:232-269 | on a complete store, which the pass leaves as it is, every trigger comes only with every managed add-on that resolves installed and fresh |
| `UpdateTheorems.ShippedManifest` | smart-home-agent/fleet/release.json:1-29 | no add-on of the shipped manifest goes by the alias of the self-update |
| `UpdateOutcome.ReportsTruthfully` | smart-home-agent/internal/agent/update.go:216-284 | a pass that gets to its end reports `failed`, once and under its id, exactly if its manifest could not be read or one of its requests was answered in a way it cannot go on from; otherwise `ok`, or, if it set off a restart, nothing yet |
| `UpdateOutcome.OkMeansCurrent` | smart-home-agent/internal/agent/update.go:216-284 | if a pass reports `ok`, no OS and no Core update is available, the agent is not outdated unless its own info was refused, and every add-on of the manifest that can be had is installed and fresh, unless Supervisor said so without doing it |
| `UpdateOutcome.NothingUnneeded` | smart-home-agent/internal/agent/update.go:289-429 | a pass asks for nothing it has no reason to: an add-on is installed only if it is missing, updated only if outdated, a repository registered only for an add-on that does not resolve, OS and Core updated only if an update is available |
| `UpdateOutcome.PassCalls` | smart-home-agent/internal/agent/update.go:216-284 | the requests of any pass, cut anywhere: it fails exactly if one of them was answered fatally |
| `UpdateOutcome.AddonsSound` | smart-home-agent/internal/agent/update.go:289-359 | the add-on phase ends in an error exactly if its last request was answered fatally, and no other one was |
| `UpdateOutcome.SystemSound` | smart-home-agent/internal/agent/update.go:238-269 | the same of OS, Core and self; and nothing is outdated when none of them triggers |
| `UpdateOutcome.EnsureSound` | smart-home-agent/internal/agent/update.go:333-347 | the same of one add-on's info and installation, which is made only if the info says that it is missing |
| `UpdateOutcome.MutateTold` | smart-home-agent/internal/supervisor/supervisor.go:202-220 | the second form of a mutation follows a refusal of the first, and the error is that of the last form tried |
| `UpdateOutcome.AddForms` | smart-home-agent/internal/supervisor/supervisor.go:111-119 | registering a repository is one request, and reloading the store the next, whose answer does not matter |
| `UpdateOutcome.PassFresh` | smart-home-agent/internal/agent/update.go:216-284 | a pass that got through its phases leaves what it manages installed and fresh |
| `UpdateOutcome.ManagesObtainable` | smart-home-agent/internal/agent/update.go:310-331 | a pass manages every add-on that resolves before it, or would once its own repository is registered |
| `UpdateOutcome.SettledMeans` | smart-home-agent/internal/agent/update.go:311-331 | a store is complete exactly if every add-on that does not resolve has its repository registered, should it have one |
| `UpdateOutcome.AvailableExactly` | smart-home-agent/internal/supervisor/supervisor.go:309-317 | an update is available exactly if the latest version is not the one that runs, however blanks and a leading v are written, and none if the latest is not known |
| `UpdateResume.TerminalReports` | smart-home-agent/internal/agent/update.go:115-181 | over every sequence of commands, repeated ones among them, ticks and boots, cut anywhere and with writes that may fail, an update gets exactly one terminal report for each turn that drives it to the clearing write and is still alive then |
| `UpdateResume.CommandReportExactly` | smart-home-agent/internal/agent/update.go:115-181 | from its command on, whatever the marker was, an update that is not commanded again gets its one terminal report if and only if the commanding pass clears the marker and is still alive then, or it leaves the update's marker set and a later boot delivers; and when it leaves the marker set |
| `UpdateResume.TerminalReportExactly` | smart-home-agent/internal/agent/update.go:115-181 | over every sequence of turns that does not begin the update anew, it gets its one terminal report if and only if its marker is set, some boot re-drives it to the clearing write and is still alive then, and every turn before that left the marker alone; otherwise it gets none |
| `UpdateResume.CommandDied` | smart-home-agent/internal/agent/update.go:271-274 | "every commanded update gets a terminal report" is false: a commanding pass that dies after the clearing write leaves the update without one, and the next boot does not know of it |
| `UpdateResume.DiedBeforeReport` | smart-home-agent/internal/agent/update.go:271-274 | so does a boot that dies there |
| `UpdateResume.TakenOver` | smart-home-agent/internal/agent/update.go:224-230 | and so does a daily self-check that starts before the restart, with every effect working and no one dying |
| `UpdateResume.CommandedTwice` | smart-home-agent/internal/agent/update.go:115-130 | "exactly one" is false as well: a command that is delivered again after its pass is carried out and reported again |
| `UpdateResume.LifeStands` | smart-home-agent/internal/agent/update.go:115-181 | after any turns that do not begin the update anew the marker is its own exactly as long as every turn has left it alone, with no report until then and at most one after |
| `UpdateResume.TurnStands` | smart-home-agent/internal/agent/update.go:216-284 | one more turn keeps that |
| `UpdateResume.OneTurn` | smart-home-agent/internal/agent/update.go:216-284 | any turn on any marker reports an update exactly if it delivers it, and leaves the marker cleared, its own or as it was |
| `UpdateResume.PassEnds` | smart-home-agent/internal/agent/update.go:216-284 | a pass reports once, under its own id, exactly if it outlives its clearing write, failed writes or not, and leaves the marker cleared, its own or untouched accordingly |
| `UpdateResume.Starter.RunIfFree` | smart-home-agent/internal/agent/update.go:136-159 | the goroutine of a trigger: nothing if a pass is running, otherwise one pass as specified, after which the flag is dropped unless the process died |
| `UpdateResume.BootsDrive` | smart-home-agent/internal/agent/update.go:161-176 | each boot goes on with the interrupted update under its own id, until one pass clears the marker |
| `UpdateResume.OnePass` | smart-home-agent/internal/agent/update.go:216-284 | one re-driven pass keeps the marker its own or ends the update |
| `UpdateResume.Starter.StartUpdate` | smart-home-agent/internal/agent/update.go:136-159 | the trigger is dropped exactly if a pass is running |
| `UpdateResume.Starter.ResumeOrCheckUpdates` | smart-home-agent/internal/agent/update.go:166-181 | an interrupted update is resumed by its id and stamps the check time; otherwise a self-check starts, at most once an interval |
| `UpdateSpec.UpdateAddons` | smart-home-agent/internal/agent/update.go:289-305 | every add-on that resolves at its turn ends installed and fresh, and current when every call works; nothing is lost and nothing is triggered |
| `UpdateSpec.UpdateAddon` | smart-home-agent/internal/agent/update.go:310-359 | the add-on, if it resolves after registering its repository, ends fresh; the store is as its turn leaves it |
| `UpdateSpec.ResolveOrRegister` | smart-home-agent/internal/agent/update.go:311-331 | a repository is registered exactly when the add-on does not resolve and has one |
| `UpdateSpec.EnsureInstalled` | smart-home-agent/internal/agent/update.go:333-347 | the add-on is installed, and fresh or known to have an update |
| `UpdateSpec.UpdateResolved` | smart-home-agent/internal/agent/update.go:333-358 | the add-on ends fresh, and self-updating when every call works |
| `UpdateSpec.EnableAutoUpdate` | smart-home-agent/internal/agent/update.go:365-373 | best-effort: it never fails the pass and changes no install state |
| `UpdateSpec.UpdateOSLatest` | smart-home-agent/internal/agent/update.go:377-389 | nothing is triggered unless an update is available, and then the trigger is the only change and the last request |
| `UpdateSpec.UpdateCoreLatest` | smart-home-agent/internal/agent/update.go:393-405 | likewise for Core |
| `UpdateSpec.Persist` | smart-home-agent/internal/agent/update.go:93-110 | a marker write ends with the marker in the file or leaves the file as it was, whichever of write and rename is cut or fails |
| `UpdateSpec.Rename` | smart-home-agent/internal/agent/update.go:108-110 | the rename alone decides what the file holds |
| `UpdateSpec.CutBetween` | smart-home-agent/internal/agent/update.go:93-110 | a process that dies between writing the temporary file and renaming it leaves the marker as it was |
| `UpdateSpec.Publish` | smart-home-agent/internal/agent/update.go:438-448 | a report changes neither device nor marker |
| `UpdateAgent.UpdateStore.Write` | smart-home-agent/internal/agent/update.go:93-110 | memory holds the new marker, the file goes as Persist says |
| `UpdateAgent.Engine.UpdateAll` | smart-home-agent/internal/agent/update.go:216-284 | the pass, statement by statement, goes as the specified pass; in memory the marker stays set only after a trigger |
| `UpdateAgent.Engine.BringAllUpToDate` | smart-home-agent/internal/agent/update.go:295-304 | the loop over the manifest does what UpdateAddons says |
| `UpdateAgent.Engine.BringUpToDate` | smart-home-agent/internal/agent/update.go:310-359 | one add-on, as UpdateAddon says |
| `UpdateAgent.Engine.FindOrRegister` | smart-home-agent/internal/agent/update.go:311-331 | as ResolveOrRegister says |
| `UpdateAgent.Engine.InfoOnceInstalled` | smart-home-agent/internal/agent/update.go:333-347 | as EnsureInstalled says |
| `UpdateAgent.Engine.TurnOnAutoUpdate` | smart-home-agent/internal/agent/update.go:365-373 | as EnableAutoUpdate says |
| `UpdateAgent.Engine.RebootProne` | smart-home-agent/internal/agent/update.go:238-269 | OS, Core and self in turn, stopping at the first that triggers |
| `UpdateAgent.Engine.EndPass` | smart-home-agent/internal/agent/update.go:271-284 | the marker is cleared before the report |
| `SingleFlight.OneAtATime` | smart-home-agent/internal/agent/update.go:136-159 | under every interleaving there is one live pass if the flag is set and none if not, and passes enter and leave updateAll strictly one after the other |
| `SingleFlight.DroppedTrigger` | smart-home-agent/internal/agent/update.go:141-148 | a trigger changes nothing exactly while a pass is live, and otherwise starts one |
| `SingleFlight.Guard.StartUpdate` | smart-home-agent/internal/agent/update.go:141-148 | a pass starts exactly if the flag was clear |
| `Throttle.SelfCheckRate` | smart-home-agent/internal/agent/update.go:183-203 | in any window a self-check is due at most once a day plus one, whatever stamps lie between |
| `Throttle.DueExactly` | smart-home-agent/internal/agent/update.go:183-203 | a connect finds a check due exactly if nothing was stamped in the 24 hours before it: none is missed and none comes early |
| `Throttle.AttemptExactly` | smart-home-agent/internal/agent/agent.go:347-363 | every request leads to an attempt, but for one that is cancelled while the 30 seconds after an earlier attempt run |
| `Throttle.DueTimesSpaced` | smart-home-agent/internal/agent/update.go:183-203 | successive due checks are at least a day apart |
| `Throttle.RecoveryRate` | smart-home-agent/internal/agent/agent.go:342-363 | in any window the cloud sees at most one recovery attempt per 30 seconds plus one, whoever asks |
| `Throttle.AttemptsSpaced` | smart-home-agent/internal/agent/agent.go:347-363 | successive attempts are at least the cool-down apart |
| `Throttle.RateBound` | smart-home-agent/internal/agent/agent.go:343-346 | times spaced by a gap come at most once per gap, plus one |
| `Throttle.AutoCheck.AutoCheckDue` | smart-home-agent/internal/agent/update.go:186-197 | true exactly if the interval has elapsed, and then the time is stamped |
| `Throttle.AutoCheck.Run` | smart-home-agent/internal/agent/update.go:183-203 | any run of visits finds checks due at the specified times |
| `Throttle.Recovery.RecoverCredentials` | smart-home-agent/internal/agent/agent.go:347-363 | an attempt is made unless the wait was cancelled, and its time remembered |
| `Throttle.Recovery.Serve` | smart-home-agent/internal/agent/agent.go:347-363 | any run of requests makes attempts at the specified times |
| `World.Send` | smart-home-agent/internal/supervisor/supervisor.go:28-44 | one call: it changes the device as asked or not at all, a rejection changes nothing, and an honest success did what was asked |
| `SupervisorSpec.AddStoreRepository` | smart-home-agent/internal/supervisor/supervisor.go:111-119 | the repository is registered, and a failing reload does not matter |
| `SupervisorSpec.ResolveAddonSlug` | smart-home-agent/internal/supervisor/supervisor.go:124-150 | the exact slug without a call, or the first store slug that matches |
| `SupervisorSpec.Resolved` | smart-home-agent/fleet/fleet.go:147-156 | a resolved slug is one that the add-on resolves |
| `SupervisorSpec.GetAddonInfo` | smart-home-agent/internal/supervisor/supervisor.go:155-186 | the add-on as it is, or "not installed" when Supervisor rejects the request; a transport failure is a failure |
| `SupervisorSpec.InstallAddon` | smart-home-agent/internal/supervisor/supervisor.go:188-220 | an honest success leaves the add-on installed and fresh, whichever endpoint form worked, and nothing is lost |
| `SupervisorSpec.UpdateAddonLatest` | smart-home-agent/internal/supervisor/supervisor.go:193-220 | an honest success leaves the add-on fresh |
| `SupervisorSpec.MutateForms` | smart-home-agent/internal/supervisor/supervisor.go:199-220 | a mutation is one request in the store form, followed by the legacy form only if Supervisor rejected the first; a lost answer is not tried again |
| `SupervisorClient.Client.RegisterRepository` | smart-home-agent/internal/supervisor/supervisor.go:111-119 | as AddStoreRepository says |
| `SupervisorClient.Client.Resolve` | smart-home-agent/internal/supervisor/supervisor.go:124-150 | the loop over the store finds the first match |
| `SupervisorClient.Client.Info` | smart-home-agent/internal/supervisor/supervisor.go:155-186 | as GetAddonInfo says |
| `SupervisorClient.Client.MutateAddon` | smart-home-agent/internal/supervisor/supervisor.go:202-220 | as Mutate says |
| `SupervisorClient.Client.InstallLatest` | smart-home-agent/internal/supervisor/supervisor.go:188-191 | as InstallAddon says |
| `SupervisorClient.Client.UpdateLatest` | smart-home-agent/internal/supervisor/supervisor.go:193-197 | as UpdateAddonLatest says |
| `Fleet.Manifest.Find` | smart-home-agent/fleet/fleet.go:134-145 | an add-on with that match value if there is one, and none only if there is none |
| `Fleet.FirstMatch` | smart-home-agent/internal/supervisor/supervisor.go:143-149 | a store slug that the add-on resolves, and none only if there is none |
| `Fleet.FirstMatchStable` | smart-home-agent/internal/supervisor/supervisor.go:143-149 | slugs added to the store never change an existing resolution |
| `Fleet.FirstMatchIsFirst` | smart-home-agent/internal/supervisor/supervisor.go:143-149 | of the slugs that an add-on resolves to, the first one in the store counts |
| `Fleet.FindIsFirst` | smart-home-agent/fleet/fleet.go:137-145 | of the entries with a match value the first one counts |
| `Fleet.ResolvesExactly` | smart-home-agent/fleet/fleet.go:147-156 | a slug is an add-on's if it is the exact one configured, or else the match value, alone or after a prefix and an underscore |
| `OnboardProgress.OnboardingSucceeds` | smart-home-agent/internal/onboard/engine.go:69-120 | on any device that can be set up, however far it is already, a run in which every call works ends well: with an owner, all repositories, all add-ons installed, the broker and Zigbee2MQTT running, the coordinator and the agent options set, the agent running, a token in hand and the agent seen to have provisioned |
| `OnboardProgress.SuccessMeansSetUp` | smart-home-agent/internal/onboard/engine.go:69-120 | and whatever was done before and however a run goes, one that succeeds leaves the unit set up in that sense |
| `OnboardProgress.StepGoes` | smart-home-agent/internal/onboard/engine.go:89-120 | a step whose calls work ends well on a device that the steps before have brought so far |
| `OnboardProgress.CheckGoes` | smart-home-agent/internal/onboard/steps.go:62-735 | no check fails when its calls work and the agent can be resolved |
| `OnboardProgress.ActGoes` | smart-home-agent/internal/onboard/steps.go:70-760 | no action fails when its calls work and it finds what it needs |
| `OnboardProgress.VerifyGoes` | smart-home-agent/internal/onboard/steps.go:75-767 | no verification fails of a goal that is reached |
| `OnboardProgress.StoreInstallGoes` | smart-home-agent/internal/onboard/steps.go:317-343 | an add-on that resolves gets installed |
| `OnboardProgress.InstallAllGoes` | smart-home-agent/internal/onboard/steps.go:257-273 | and so do all of the manifest |
| `OnboardProgress.ReposGo` | smart-home-agent/internal/onboard/steps.go:180-198 | every add-on resolves whose slug the store has or a repository that is registered now brings |
| `OnboardProgress.AuthenticateGoes` | smart-home-agent/internal/onboard/steps.go:94-142 | signing in works with and without an owner |
| `OnboardProgress.BrokerGoes` | smart-home-agent/internal/onboard/steps.go:391-407 | an installed broker gets started |
| `OnboardProgress.ZigbeeGoes` | smart-home-agent/internal/onboard/steps.go:474-509 | an installed Zigbee2MQTT gets pointed at the coordinator and run |
| `OnboardProgress.ActAgentGoes` | smart-home-agent/internal/onboard/steps.go:630-656 | an installed agent gets its options |
| `OnboardProgress.RequiredExactly` | smart-home-agent/internal/onboard/steps.go:808-817 | the repositories a release needs are its own and those its community add-ons come from |
| `OnboardProgress.SameRepository` | smart-home-agent/internal/onboard/steps.go:819-839 | two addresses are of one repository exactly if they differ in blanks, a slash, .git and the case of letters only |
| `OnboardProgress.SignInCalls` | smart-home-agent/internal/onboard/steps.go:94-142 | the requests of signing in, in order: status, login exactly if there is an owner and creation if not, the code exchanged for a token, which has to come, and the best-effort rest |
| `OnboardProgress.PointCalls` | smart-home-agent/internal/onboard/steps.go:489-509 | the options that are written point at the coordinator, and an add-on that was told to run is restarted with them while any other is started |
| `OnboardProgress.ConnectAnswered` | smart-home-agent/internal/onboard/steps.go:56-80 | the connect step ends well only once Core has answered |
| `OnboardProgress.ProvisionSeen` | smart-home-agent/internal/onboard/steps.go:716-770 | the last step ends well only once the agent was seen to have provisioned |
| `OnboardTheorems.OnboardingResumes` | smart-home-agent/internal/onboard/engine.go:69-120 | for any number of runs cut at any call or failed anywhere, a run that then succeeds leaves every goal reached together: owner, repositories, all add-ons installed, broker started, coordinator set and Zigbee started, agent options set, agent started |
| `OnboardTheorems.RunReaches` | smart-home-agent/internal/onboard/engine.go:72-87 | the goals of the steps done so far stay while the rest of the run adds its own |
| `OnboardTheorems.StepReaches` | smart-home-agent/internal/onboard/engine.go:89-120 | a step that ends well has reached its goal, whatever its calls did |
| `OnboardTheorems.StepKeeps` | smart-home-agent/internal/onboard/steps.go:43-57 | however a step goes, it keeps the goal of every earlier step |
| `OnboardTheorems.WorksKeepGoal` | smart-home-agent/internal/onboard/steps.go:454-711 | add-on work keeps a goal unless it writes the options that the goal is about |
| `OnboardTheorems.SeparateExactly` | smart-home-agent/internal/onboard/steps.go:554-566 | the condition on the manifest under which no store can give Zigbee2MQTT and the agent the same slug, in both directions |
| `OnboardTheorems.TailsDiffer` | smart-home-agent/fleet/fleet.go:147-156 | no slug is matched both by Zigbee2MQTT's and by the agent's match value |
| `OnboardTheorems.InstalledOnce` | smart-home-agent/internal/onboard/steps.go:238-343 | over all interrupted runs together each add-on is installed at most once, and not at all if it was there, but for one more time for each info request that was rejected although it was installed; the owner is created at most once, and not if there was one |
| `OnboardTheorems.AttemptsOnce` | smart-home-agent/internal/onboard/steps.go:43-57 | every installation that a sequence of runs makes is the first one or goes with a misread of that add-on's info, and the owner is created only where there is none |
| `OnboardTheorems.RunOnce` | smart-home-agent/internal/onboard/engine.go:72-87 | the same of a single run |
| `OnboardQuiet.QuietButForMisreads` | smart-home-agent/internal/onboard/engine.go:89-103 | a run on a device where every goal holds makes at most two repository, install, options, start or restart requests for each info request that is rejected for an installed add-on, so none if none is; and wherever it is cut every goal still holds |
| `OnboardQuiet.RunPaid` | smart-home-agent/internal/onboard/engine.go:72-87 | the same from any step on |
| `OnboardQuiet.StepPaid` | smart-home-agent/internal/onboard/engine.go:89-120 | the same of one step |
| `OnboardQuiet.ActPaid` | smart-home-agent/internal/onboard/steps.go:180-711 | an action on a complete device makes at most two changing requests beyond those that a misread pays for |
| `OnboardQuiet.InstallAllPaid` | smart-home-agent/internal/onboard/steps.go:257-273 | the install action on a complete device makes none beyond them |
| `OnboardQuiet.ActStays` | smart-home-agent/internal/onboard/steps.go:94-711 | an action on a complete device keeps every goal, its own and the later ones too |
| `OnboardQuiet.Misled` | smart-home-agent/internal/onboard/engine.go:92-103 | a check that fails on a complete device has been misled |
| `OnboardTheorems.Quiescent` | smart-home-agent/internal/onboard/engine.go:89-103 | a run on a device where every goal holds, in which no info request is misread, makes no repository, install, options, start or restart request and changes nothing |
| `OnboardTheorems.RunQuiet` | smart-home-agent/internal/onboard/engine.go:72-87 | the same from any step on |
| `OnboardTheorems.StepQuiet` | smart-home-agent/internal/onboard/engine.go:89-103 | the same of one step |
| `OnboardSpec.ResolveAgent` | smart-home-agent/internal/onboard/steps.go:773-805 | the agent's slug is resolved once and kept for the run |
| `OnboardSpec.Dedupe` | smart-home-agent/internal/onboard/steps.go:840-852 | the same elements, each once |
| `OnboardSpec.CheckRepos` | smart-home-agent/internal/onboard/steps.go:166-179 | the check reads off the device whether every required repository is there |
| `OnboardSpec.AddRepos` | smart-home-agent/internal/onboard/steps.go:180-198 | no add-on changes and nothing registered is lost; a success that is not only said leaves every required repository there |
| `OnboardSpec.AddonInstalled` | smart-home-agent/internal/onboard/steps.go:293-314 | "installed" is true of the device; "not installed" too unless a request was misread |
| `OnboardSpec.AllInstalled` | smart-home-agent/internal/onboard/steps.go:241-256 | true only if every add-on of the manifest is installed; false, read honestly, only if one is missing |
| `OnboardSpec.InstallStoreAddon` | smart-home-agent/internal/onboard/steps.go:317-343 | the add-on is installed afterwards if success is reported and not only said, an installation is accounted for, and there is no error if the calls work and it resolves |
| `OnboardSpec.InstallAll` | smart-home-agent/internal/onboard/steps.go:257-273 | a success that is not only said leaves every add-on installed; however it goes, nothing is lost and no options change |
| `OnboardSpec.InstallOne` | smart-home-agent/internal/onboard/steps.go:258-270 | a local agent has to be there, any other add-on is installed |
| `OnboardSpec.InstallAccounted` | smart-home-agent/internal/supervisor/supervisor.go:202-220 | both endpoint forms of an installation together install at most once |
| `OnboardSpec.CheckedInstall` | smart-home-agent/internal/onboard/steps.go:326-340 | an installation after the answer "not installed" is the first, or goes with a misread |
| `OnboardSpec.CheckBroker` | smart-home-agent/internal/onboard/steps.go:376-390 | a passed check means the broker runs, a failed honest one that it does not |
| `OnboardSpec.ActBroker` | smart-home-agent/internal/onboard/steps.go:391-407 | a success that is not only said leaves the broker running; no options change, and it fails if the broker cannot be resolved |
| `OnboardSpec.VerifyBroker` | smart-home-agent/internal/onboard/steps.go:408-431 | a passed verification means the broker runs, or is in the manifest and does not resolve |
| `OnboardSpec.CheckZigbee` | smart-home-agent/internal/onboard/steps.go:457-473 | a passed check means that the coordinator is set and Zigbee2MQTT runs, or that the unit has none |
| `OnboardSpec.ActZigbee` | smart-home-agent/internal/onboard/steps.go:474-509 | a success that is not only said leaves the coordinator set and Zigbee2MQTT running; only its options are written |
| `OnboardSpec.PointAndRun` | smart-home-agent/internal/onboard/steps.go:483-508 | the radio settings asked for are there and the add-on runs; a setting that was right stays right however it goes |
| `OnboardSpec.VerifyZigbee` | smart-home-agent/internal/onboard/steps.go:510-548 | a passed verification means that the coordinator is set and Zigbee2MQTT runs |
| `OnboardSpec.OptionsMatch` | smart-home-agent/internal/onboard/steps.go:618-629 | true only if every desired option is set; false, read honestly, only if one is not |
| `OnboardSpec.ConfigureAndReload` | smart-home-agent/internal/onboard/steps.go:635-655 | a success that is not only said leaves the desired options set; an agent known to run is restarted last; only its options are written |
| `OnboardSpec.ReloadIfRunning` | smart-home-agent/internal/onboard/steps.go:639-655 | an add-on known to run is restarted last, and no options change |
| `OnboardSpec.AgentActs` | smart-home-agent/internal/onboard/steps.go:630-656 | the configure action writes the agent's options alone, under the slug that the run holds from then on, and restarts a running agent last |
| `OnboardSpec.Authenticate` | smart-home-agent/internal/onboard/steps.go:94-142 | a success that is not only said leaves an owner; nothing else changes, and an owner is created only if there was none |
| `OnboardSpec.SignInOrUp` | smart-home-agent/internal/onboard/steps.go:95-110 | an owner is there, and was created only if there was none |
| `OnboardSpec.ObtainToken` | smart-home-agent/internal/onboard/steps.go:112-141 | the tokens and the wizard change nothing of the device |
| `OnboardSpec.VerifyOwner` | smart-home-agent/internal/onboard/steps.go:143-157 | a passed verification means that there is an owner |
| `OnboardSpec.Check` | smart-home-agent/internal/onboard/steps.go:43-711 | a passed check means that the goal holds; a failed honest one on a complete device that it does not |
| `OnboardSpec.Act` | smart-home-agent/internal/onboard/steps.go:43-711 | however an action goes, it stays within its step; a success that is not only said reaches the step's goal |
| `OnboardSpec.Verify` | smart-home-agent/internal/onboard/steps.go:43-711 | a passed verification means that the goal holds |
| `OnboardEngine.Engine.RunSteps` | smart-home-agent/internal/onboard/engine.go:72-87 | the loop goes as the specified run, stopping at the first failure |
| `OnboardEngine.Engine.Perform` | smart-home-agent/internal/onboard/engine.go:89-120 | check, act and verify over the shared state, as RunStep says |
| `OnboardEngine.Engine.CheckOn` | smart-home-agent/internal/onboard/steps.go:62-735 | the check of a step: answer, device and run state as Check says |
| `OnboardEngine.Engine.CheckAgentOn` | smart-home-agent/internal/onboard/steps.go:241-735 | the checks that resolve the agent's slug first, as CheckAgent says |
| `OnboardEngine.Engine.VerifyOn` | smart-home-agent/internal/onboard/steps.go:75-767 | the verification of a step, as Verify says |
| `OnboardEngine.Engine.ReposPresent` | smart-home-agent/internal/onboard/steps.go:166-179 | the loop finds out whether every required repository is there |
| `OnboardEngine.Engine.BrokerRuns` | smart-home-agent/internal/onboard/steps.go:376-390 | as CheckBroker says |
| `OnboardEngine.Engine.CoordinatorSet` | smart-home-agent/internal/onboard/steps.go:457-473 | as CheckZigbee says |
| `OnboardEngine.Engine.OptionsAsAsked` | smart-home-agent/internal/onboard/steps.go:618-629 | as OptionsMatch says |
| `OnboardEngine.Engine.VerifyBrokerRuns` | smart-home-agent/internal/onboard/steps.go:408-428 | as VerifyBroker says |
| `OnboardEngine.Engine.VerifyCoordinatorSet` | smart-home-agent/internal/onboard/steps.go:510-546 | as VerifyZigbee says |
| `OnboardEngine.Engine.ActOn` | smart-home-agent/internal/onboard/steps.go:43-711 | the action of a step leaves device, disk and run state as Act says |
| `OnboardEngine.Engine.ActOnDevice` | smart-home-agent/internal/onboard/steps.go:180-509 | as ActDevice says |
| `OnboardEngine.Engine.ResolveAgentSlug` | smart-home-agent/internal/onboard/steps.go:776-805 | as ResolveAgent says |
| `OnboardEngine.Engine.AddRepositories` | smart-home-agent/internal/onboard/steps.go:180-198 | as AddRepos says |
| `OnboardEngine.Engine.ResolveByMatch` | smart-home-agent/internal/onboard/steps.go:433-443 | the slug of the manifest's add-on with that match value, or what its absence means |
| `OnboardEngine.Engine.StartTheBroker` | smart-home-agent/internal/onboard/steps.go:391-407 | as ActBroker says |
| `OnboardEngine.Engine.PointZigbeeAtCoordinator` | smart-home-agent/internal/onboard/steps.go:474-509 | the merged options are written, and the add-on restarted or started |
| `OnboardEngine.Engine.ConfigureTheAgent` | smart-home-agent/internal/onboard/steps.go:630-656 | the slug is resolved, then the options written and a running agent restarted |
| `OnboardEngine.Engine.WriteAgentOptions` | smart-home-agent/internal/onboard/steps.go:635-655 | as ConfigureAndReload says |
| `OnboardEngine.Engine.SignIn` | smart-home-agent/internal/onboard/steps.go:94-142 | as Authenticate says |
| `OnboardEngine.Engine.TryCall` | smart-home-agent/internal/onboard/steps.go:118-139 | a best-effort call stops nothing |
| `OnboardSpec.ActDevice` | smart-home-agent/internal/onboard/steps.go:180-509 | the same of the actions that need no more of the run than the agent's slug |
| `OnboardEngine.Engine.RegisterMissing` | smart-home-agent/internal/onboard/steps.go:187-196 | only repositories that are not present are registered |
| `OnboardEngine.Engine.IsInstalled` | smart-home-agent/internal/onboard/steps.go:293-314 | as AddonInstalled says |
| `OnboardEngine.Engine.AreInstalled` | smart-home-agent/internal/onboard/steps.go:246-255 | as AllInstalled says |
| `OnboardEngine.Engine.InstallFromStore` | smart-home-agent/internal/onboard/steps.go:317-343 | as InstallStoreAddon says |
| `OnboardEngine.Engine.InstallMissing` | smart-home-agent/internal/onboard/steps.go:257-273 | as InstallAll says |
| `OnboardEngine.RequiredRepos` | smart-home-agent/internal/onboard/steps.go:808-817 | the release's own repository and every community one, each once |
| `OnboardEngine.DropRepeats` | smart-home-agent/internal/onboard/steps.go:840-852 | the set of seen elements yields Dedupe |
| `ZigbeeOptions.MergeThenSatisfied` | smart-home-agent/internal/onboard/steps.go:569-610 | for all option maps the merged options hold the port, adapter and baud rate asked for, satisfy the radio check, keep every other option and radio setting, and merging again changes nothing |
| `ZigbeeOptions.MergedZigbeeOptions` | smart-home-agent/internal/onboard/steps.go:569-591 | the loops over both maps yield the merged options and leave the current ones alone |
| `Pairing.Conservation` | smart-home-agent/internal/pairing/pairing.go:61-131 | under every interleaving, for each session id: successful starts = terminal events + closers yet to emit + one if active; opened windows = attempted stops + closers yet to stop + one if active |
| `Pairing.OneTerminalEvent` | smart-home-agent/internal/pairing/pairing.go:110-131 | a session started once gets at most one terminal event, exactly one once it is neither active nor closing, and then its window was asked to close as often as it was opened |
| `Pairing.StepKeepsBalance` | smart-home-agent/internal/pairing/pairing.go:61-131 | each step under or outside the lock keeps that balance |
| `Pairing.EventsAfterStarted` | smart-home-agent/internal/pairing/pairing.go:73-108 | in every interleaving every event of a session comes after its `started` |
| `Pairing.StepKeepsOrder` | smart-home-agent/internal/pairing/pairing.go:73-108 | each step keeps that order |
| `Pairing.EventsExplained` | smart-home-agent/internal/pairing/pairing.go:61-131 | in every interleaving a session that completed did so by a successful interview while it was active, one that failed by a failed one, one that was stopped by the user or the timer, and so on; and the backend was told to stop before |
| `Pairing.StartsOnOpen` | smart-home-agent/internal/pairing/pairing.go:61-84 | in every interleaving `started` is told right after the backend has opened its window, and never otherwise |
| `Pairing.SecondStartRefused` | smart-home-agent/internal/pairing/pairing.go:65-73 | a start while a session is active changes nothing and does not reach the backend |
| `Pairing.StrandedExactly` | smart-home-agent/internal/pairing/pairing.go:110-131 | "an active session has an open join window" is false; the next step can close the window under a session just opened exactly if it was opened while an earlier close had yet to stop the backend |
| `Pairing.StrandedRun` | smart-home-agent/internal/pairing/pairing.go:110-131 | such a run from the start: open, close, open, and the first session's stop closes the second one's window |
| `Pairing.NeverStranded` | smart-home-agent/internal/pairing/pairing.go:61-131 | if every session is opened with no such close pending, the window stays open under every active session |
| `Pairing.StepKeepsWindow` | smart-home-agent/internal/pairing/pairing.go:61-131 | each step keeps that |
| `Pairing.MapBridgeEvent` | smart-home-agent/internal/pairing/z2m.go:81-111 | which bridge events stand for which phase, and that none is `started` or `stopped` |
| `Pairing.Manager.Start` | smart-home-agent/internal/pairing/pairing.go:61-84 | the new state is that of the start step; busy, failed or opened is told apart |
| `Pairing.Manager.Close` | smart-home-agent/internal/pairing/pairing.go:110-131 | claim, stop and emit run through, or nothing for a stale session |
| `Pairing.Manager.HandleBackendEvent` | smart-home-agent/internal/pairing/pairing.go:93-108 | a successful interview ends the active session with one `completed`, a failed one with one `failed`; a device that joins and an interview that starts are told to it; anything else, or no session, changes nothing |
| `Pairing.CloseAlone` | smart-home-agent/internal/pairing/pairing.go:112-131 | the closing steps with nothing in between are one stop and one terminal event |
| `Pairing.RoutedAlone` | smart-home-agent/internal/pairing/pairing.go:93-108 | the steps of an undisturbed bridge event come to exactly that |
| `ShadowProtocol.ShadowInvariant` | smart-home-agent/internal/agent/agent.go:603-693 | in every reachable state, with reports lost, repeated and reordered, documents in any order, handlers interleaved, maps changed and restarts anywhere: per device reported <= on disk <= desired, every buffered, published or pending report claims at most what is on disk, and the version on disk is one whose document was actuated |
| `ShadowProtocol.StepKeeps` | smart-home-agent/internal/agent/agent.go:603-693 | each step of cloud, broker or agent keeps the invariant |
| `ShadowProtocol.WorkKeeps` | smart-home-agent/internal/agent/agent.go:615-692 | each step of a handler in flight does |
| `ShadowProtocol.RecordedKeeps` | smart-home-agent/internal/agent/versions.go:44-54 | recording a version after a successful apply does |
| `ShadowProtocol.IngestKeeps` | docs/mqtt-contract.md:37-42 | the cloud's ingest of any report ever published does |
| `ShadowProtocol.NeverBack` | smart-home-agent/internal/agent/versions.go:44-54 | desired, reported and stored versions never go down in a run |
| `ShadowProtocol.NeverStampedBehind` | smart-home-agent/internal/agent/versions.go:10-13 | a report is never stamped with less than the cloud has seen, not even just after a restart |
| `ShadowProtocol.NoFalseConvergence` | docs/mqtt-contract.md:42-44 | when the reported version is the desired one, every call of the desired document has succeeded |
| `ShadowProtocol.Convergence` | smart-home-agent/internal/agent/agent.go:596-602 | from every reachable state one delivery of a mapped device's latest document handled without a failure, and the ingest of its report, make reported equal desired |
| `ShadowProtocol.FinishedReports` | smart-home-agent/internal/agent/agent.go:615-692 | a handler on its way, running to its end, publishes a report with the desired version |
| `ShadowHandler.NewestWins` | smart-home-agent/internal/agent/agent.go:603-653 | over every order of deliveries with repeats, other devices' documents and broken applies: the version never exceeds the newest document's; once one of its deliveries went through it is exactly that, it is the document last actuated, and the entity shows all it asks for |
| `ShadowHandler.OrderIndependent` | smart-home-agent/internal/agent/agent.go:603-653 | two orders in each of which the newest document went through once leave the same version and the same values of its fields |
| `ShadowHandler.HandledSame` | smart-home-agent/internal/agent/agent.go:615-652 | one more delivery for the device keeps that |
| `ShadowHandler.HandledOther` | smart-home-agent/internal/agent/agent.go:615-652 | a delivery for another device leaves the entity alone |
| `ShadowHandler.AloneIsHandle` | smart-home-agent/internal/agent/agent.go:603-693 | any delivery whose handler runs alone in the protocol, whether a call fails part of the way, the state cannot be read, the device is unmapped or the document known, does to version store and uplink what the handler's contract says and leaves the rest |
| `ShadowHandler.UnmappedIgnored` | smart-home-agent/internal/agent/agent.go:614-635 | a document without a device, or for one that is not mapped, does nothing, and so is applied when it is delivered again after the device was mapped |
| `ShadowHandler.ChangeReported` | smart-home-agent/internal/agent/agent.go:496-520 | a change in Home Assistant is reported as it was seen with the version applied to its device, handed over or held back |
| `ShadowHandler.ReconcileReported` | smart-home-agent/internal/agent/agent.go:660-708 | on a connect the state of a mapped device is read and reported with that version |
| `ShadowHandler.HeldArrives` | smart-home-agent/internal/agent/agent.go:431-433 | a report whose publishing failed is handed to the broker by the next flush, unless the agent restarts before or 512 more publishes fail |
| `ShadowHandler.RunsToOutcome` | smart-home-agent/internal/agent/agent.go:615-693 | a handler in flight, running alone from any of its stages, ends as specified |
| `ShadowHandler.Took` | smart-home-agent/internal/agent/agent.go:634-644 | the calls that took effect are a prefix of those translated |
| `ShadowHandler.VersionStore.Get` | smart-home-agent/internal/agent/versions.go:33-41 | the applied version, if there is one |
| `ShadowHandler.VersionStore.Set` | smart-home-agent/internal/agent/versions.go:43-54 | the version never goes down, and the file follows when it can be written |
| `ShadowHandler.Handler.Apply` | smart-home-agent/internal/agent/agent.go:634-645 | the calls are made in order up to the first that fails |
| `ShadowHandler.Handler.HandleDesiredShadow` | smart-home-agent/internal/agent/agent.go:603-653 | version store, home and uplink become what the specification of a delivery says, on every path |
| `ShadowHandler.Handler.ReportDeviceState` | smart-home-agent/internal/agent/agent.go:660-693 | the report carries the applied version, and none is made for an unmapped or unreadable device |
| `ShadowHandler.Handler.PublishUplink` | smart-home-agent/internal/agent/agent.go:929-947 | a report that failed to publish is buffered, also when the broker got it |
| `Documents.LightDocument` | smart-home-agent/internal/agent/translate.go:55-68 | whatever the document and the home: a light whose state is off goes off, any other state switches it on with every recognized setting of the attributes and no other, and without a state nothing changes |
| `Documents.FanDocument` | smart-home-agent/internal/agent/translate.go:70-91 | on with speed and preset, off, or the speed alone if there is no state |
| `Documents.LockDocument` | smart-home-agent/internal/agent/translate.go:93-102 | locked or unlocked as asked, and nothing for any other state |
| `Documents.CoverDocument` | smart-home-agent/internal/agent/translate.go:104-121 | a position, if there is one, and otherwise open or closed |
| `Documents.ClimateDocument` | smart-home-agent/internal/agent/translate.go:123-141 | the state is the mode, and a temperature brings the range along |
| `Documents.MediaPlayerDocument` | smart-home-agent/internal/agent/translate.go:143-164 | off, on, playing, paused, idle as on, and the volume with or without a state |
| `Documents.OnOffDocument` | smart-home-agent/internal/agent/translate.go:166-196 | switches and every domain of no own capability go on or off |
| `Translate.CallsMeanIntended` | smart-home-agent/internal/agent/translate.go:43-214 | for every domain and document the calls together set exactly the fields the document addresses, to the values it asks for |
| `Translate.OnlyTheMappedEntity` | smart-home-agent/internal/agent/translate.go:43-53 | whatever the document says, each call names exactly the mapped entity, in its own domain or the general one |
| `Translate.Realized` | smart-home-agent/internal/agent/translate.go:32-42 | performing the calls leaves the addressed fields as asked and every other field of every entity as it was |
| `Translate.PartialApplyThenRetry` | smart-home-agent/internal/agent/agent.go:630-652 | however often an apply broke off and wherever, a full retry leaves the home as one clean apply would have |
| `Translate.PartialThenFull` | smart-home-agent/internal/agent/agent.go:634-644 | the same for one broken apply |
| `Translate.PerformedAt` | smart-home-agent/internal/agent/agent.go:634-635 | calls for one entity overwrite its fields and no other's |
| `Translate.PrefixWrites` | smart-home-agent/internal/agent/agent.go:636-642 | a part of the calls writes no field that the whole does not |
| `Translate.LightWrites` | smart-home-agent/internal/agent/translate.go:55-68 | what a light's calls set |
| `Translate.FanWrites` | smart-home-agent/internal/agent/translate.go:70-91 | what a fan's calls set |
| `Translate.LockWrites` | smart-home-agent/internal/agent/translate.go:93-102 | what a lock's calls set |
| `Translate.CoverWrites` | smart-home-agent/internal/agent/translate.go:104-121 | what a cover's calls set: a position wins over open and closed |
| `Translate.ClimateWrites` | smart-home-agent/internal/agent/translate.go:123-141 | what a thermostat's calls set: mode and temperatures |
| `Translate.MediaPlayerWrites` | smart-home-agent/internal/agent/translate.go:143-164 | what a media player's calls set |
| `Translate.OnOffWrites` | smart-home-agent/internal/agent/translate.go:166-196 | what the plain on/off calls set |
| `Translate.Passthrough` | smart-home-agent/internal/agent/translate.go:202-214 | the loop copies exactly the recognized attributes that are present |
| `Translate.TranslateLight` | smart-home-agent/internal/agent/translate.go:55-68 | the calls of the specification |
| `Translate.TranslateFan` | smart-home-agent/internal/agent/translate.go:70-91 | the calls of the specification |
| `Translate.TranslateClimate` | smart-home-agent/internal/agent/translate.go:123-141 | the list built up holds the specified calls in order |
| `Translate.TranslateMediaPlayer` | smart-home-agent/internal/agent/translate.go:143-164 | the list built up holds the specified calls in order |
| `Translate.TranslateDesired` | smart-home-agent/internal/agent/translate.go:43-53 | the capability table dispatches as specified |
| `Provision.StoreAndCopyAgree` | smart-home-agent/internal/provision/provision.go:232-379 | over any sequence of replies, failures and restarts the agent's secrets are those on file, the file is usable, and its token is the last one that the cloud issued |
| `Provision.TokenNeverBlanked` | smart-home-agent/internal/provision/provision.go:303-308 | a stored provision token is never blanked again |
| `Provision.StepKeeps` | smart-home-agent/internal/agent/agent.go:361-412 | each operation keeps file and copy in agreement |
| `Provision.FailuresErased` | smart-home-agent/internal/provision/provision.go:318-379 | a run ends as if the operations that failed had never been tried |
| `Provision.FailureChangesNothing` | smart-home-agent/internal/provision/provision.go:318-327 | an operation that fails leaves file and copy as they were |
| `Provision.CodeNeverLost` | smart-home-agent/internal/provision/provision.go:310-316 | a unit that stays unclaimed and has a claim code has one ever after, unless the cloud reissues an empty one |
| `Provision.ClaimCodeKept` | smart-home-agent/internal/provision/provision.go:310-316 | a recovery that leaves the unit unclaimed keeps its claim code unless a new one came; a claimed unit keeps none |
| `Provision.FileIsLastGrant` | smart-home-agent/internal/provision/provision.go:290-326 | after any run the file is, field by field, the last grant that was taken in, or the first file if none was |
| `Provision.GrantTakenIn` | smart-home-agent/internal/provision/provision.go:290-326 | a grant that is taken in is on file field by field as the cloud sent it, under this unit's serial, with its secrets in memory |
| `Provision.OnlyTheCode` | smart-home-agent/internal/agent/claim.go:35-57 | a claim code is reissued exactly when it is missing or expired and a token is stored, and then nothing else changes |
| `Provision.TokenShown` | smart-home-agent/internal/provision/provision.go:232-332 | the cloud is always shown the token that it issued last, and none only if there never was one |
| `Provision.WhyRecoveryFails` | smart-home-agent/internal/provision/provision.go:232-332 | each error of a recovery has its one cause, and without one it succeeds |
| `Provision.BackoffTimes` | smart-home-agent/internal/provision/provision.go:174-202 | two seconds, doubling up to 256, and five minutes from then on |
| `Provision.RestartReloads` | smart-home-agent/internal/provision/provision.go:162-172 | a restart takes everything from the file, the identity included |
| `Provision.BackoffDoubles` | smart-home-agent/internal/provision/provision.go:195-200 | the wait doubles up to its cap |
| `Provision.Client.Recover` | smart-home-agent/internal/provision/provision.go:232-327 | result, file and request of one attempt, the stored token being sent if there is one |
| `Provision.Client.ReissueClaimCode` | smart-home-agent/internal/provision/provision.go:334-379 | result, file and request; without a stored token no request is made |
| `Provision.Client.ProvisionWithRetry` | smart-home-agent/internal/provision/provision.go:174-202 | the file becomes the first success and is untouched before it; the wait after the n-th failure is 2*2^n seconds capped at 300 |
| `Provision.Client.EnsureProvisioned` | smart-home-agent/internal/provision/provision.go:162-168 | usable stored credentials come back without a request, others only after a success |
| `Provision.Agent.RecoverCredentials` | smart-home-agent/internal/agent/agent.go:347-379 | the cloud is asked only if the wait for the cool-down is not cancelled, and the secrets in memory follow the file exactly on success |
| `Provision.Agent.EnsureClaimCode` | smart-home-agent/internal/agent/claim.go:35-57 | a live code is left alone; a missing or expired one is reissued |
| `Provision.Agent.ApplyRecoveredCredentials` | smart-home-agent/internal/agent/agent.go:402-412 | the secrets are copied and the identity is not |
| `Command.OneAckEach` | smart-home-agent/internal/agent/agent.go:527-594 | over every run of messages the acks are exactly one for each command let through unexpired, in order, pairing included; repeats, expired, nameless and undecodable ones get none |
| `Command.OneAckLast` | smart-home-agent/internal/agent/agent.go:555-593 | every path of a command ends in its one ack, which says acked exactly if something was done and worked |
| `Command.EffectsOfMessage` | smart-home-agent/internal/agent/agent.go:527-594 | what each message of a run adds: its effects if it is let through, told by the ids of the messages alone, and its time to live has not passed; and otherwise nothing |
| `Command.ActedApart` | smart-home-agent/internal/agent/dedupe.go:5-9 | between two messages with the same id that both have an effect, an ack or a call, at least `limit` messages with other ids, no two the same, are let through |
| `Command.PassedIsLetThrough` | smart-home-agent/internal/agent/dedupe.go:25-44 | the guard lets a message through exactly if no message with its id was let through with fewer than `limit` others since |
| `Command.MemoryIsLately` | smart-home-agent/internal/agent/dedupe.go:25-44 | the guard remembers exactly the messages it lately let through |
| `Command.RepeatsFarApart` | smart-home-agent/internal/agent/dedupe.go:5-9 | every id is let through at some time, and between two times that one is lie at least `limit` other ids, no two the same |
| `Command.AdmitAllApart` | smart-home-agent/internal/agent/dedupe.go:25-44 | every id is let through, and none twice within `limit` |
| `Command.AdmittedById` | smart-home-agent/internal/agent/agent.go:541-552 | which commands are let through depends on the ids alone, so the distance holds of the handler |
| `Command.CmdDedupe.FirstSee` | smart-home-agent/internal/agent/dedupe.go:26-44 | an id is let through exactly if it is not among the last `limit` let through, and is remembered exactly then |
| `Command.SplitExactly` | smart-home-agent/internal/agent/agent.go:966-981 | an action divides into exactly the non-empty domain without a dot and the non-empty service (which may contain dots) that a dot joins back |
| `Command.SplitAction` | smart-home-agent/internal/agent/agent.go:969-981 | the loop finds the first dot |
| `Command.CallsOfRun` | smart-home-agent/internal/agent/agent.go:571-586 | every service call of a run is that of a due message: the service its action names, with all its parameters, on its device's entity exactly if the parameters do not name another |
| `Command.PairingOfRun` | smart-home-agent/internal/agent/agent.go:732-771 | every time a run reaches the pairing manager, or reports that it could not, a due pairing command asked for it, for the session that it names |
| `Command.Attributed` | smart-home-agent/internal/agent/agent.go:529-594 | nothing happens in a run but by a message that was due it |
| `Command.CallTarget` | smart-home-agent/internal/agent/agent.go:571-586 | one call names the mapped entity exactly if the parameters do not name another one, and carries every parameter |
| `Command.ServiceCalled` | smart-home-agent/internal/agent/agent.go:559-593 | a command for a mapped device calls the service it names once, with its parameters laid over the entity, and is acked as the call went |
| `Command.NotCarriedOut` | smart-home-agent/internal/agent/agent.go:559-576 | without a mapped device or a service to call there is only the failed ack |
| `Command.PairingStarted` | smart-home-agent/internal/agent/agent.go:749-765 | a start asks for the window for the seconds given, or two minutes, and a refusal is told to the session |
| `Command.PairingStopped` | smart-home-agent/internal/agent/agent.go:766-768 | a stop reaches the manager and is acked |
| `Command.PairingRefused` | smart-home-agent/internal/agent/agent.go:733-771 | pairing commands without a session, without a backend or of an unknown kind fail |
| `Command.PairingExplained` | smart-home-agent/internal/agent/agent.go:729-771 | a pairing command reaches the manager at most once and with its session; a failure is explained by a failed event exactly if the command names a session and there is no manager or a start was refused |
| `Command.CommandHandler.HandleCommand` | smart-home-agent/internal/agent/agent.go:529-594 | guard and effects become what the specification of a message says, on every path |
| `Command.CommandHandler.HandlePairingCommand` | smart-home-agent/internal/agent/agent.go:732-771 | the effects of a pairing command, the failed event before the failed ack |
| `Buffer.HoldsTheNewest` | smart-home-agent/internal/agent/buffer.go:34-60 | after any pushes and drains the buffer holds, in order, the newest messages since the last drain, as many as fit |
| `Buffer.HeldExactly` | smart-home-agent/internal/agent/buffer.go:34-60 | whatever came before the last drain, it holds those pushed since, as many as fit and the ones that came last |
| `Buffer.Conservation` | smart-home-agent/internal/agent/buffer.go:34-60 | pushed = drained + held + dropped, and drained followed by held is a subsequence of the pushes |
| `Buffer.UplinkBuffer.Push` | smart-home-agent/internal/agent/buffer.go:35-45 | the contents become the pushed ones, in place or in a larger array |
| `Buffer.UplinkBuffer.Drain` | smart-home-agent/internal/agent/buffer.go:48-60 | the batch is what was held, and the buffer goes on in a fresh array |
| `Buffer.UplinkBuffer.constructor` | smart-home-agent/internal/agent/buffer.go:27-32 | empty, with its limit |
| `Buffer.Append` | smart-home-agent/internal/agent/buffer.go:44 | the appended value comes last and the others stay |
| `Buffer.DrainThenPush` | smart-home-agent/internal/agent/buffer.go:48-60 | a drained batch is never changed by later pushes, although it shares the old array |
| `ConfigState.LastRulingWins` | smart-home-agent/internal/agent/config_state.go:52-71 | after any sequence of deliveries memory is exactly as the last document says whose version is at least the initial one and all earlier ones |
| `ConfigState.NoneRules` | smart-home-agent/internal/agent/config_state.go:60-65 | without such a document memory is as it was |
| `ConfigState.HighestVersion` | smart-home-agent/internal/agent/config_state.go:60-69 | the version in memory is the highest of the initial one and all delivered |
| `ConfigState.FileNeverAhead` | smart-home-agent/internal/agent/config_state.go:60-73 | however handlers, failing writes and restarts interleave after any boot, the file's version never exceeds the one in memory |
| `ConfigState.RestartRestores` | smart-home-agent/internal/agent/config_state.go:174-192 | a restart after any boot, with or without a file, and any deliveries, each with a write that works or fails, comes up with what the last ruling document says that was saved, or else as the boot before did; if the last ruling one was saved, claim and version are exactly those in memory, and the map is exactly if it lists entries or the bootstrap map is empty |
| `ConfigState.EmptyMapNotRestored` | smart-home-agent/internal/agent/config_state.go:188-190 | "a restart restores the entity map" fails for a claim that lists no devices |
| `ConfigState.UnsavedNotRestored` | smart-home-agent/internal/agent/config_state.go:73 | and a claim whose write failed is forgotten altogether |
| `ConfigState.LastRulingOnFile` | smart-home-agent/internal/agent/config_state.go:73 | the last ruling document whose write worked is the one on file |
| `ConfigState.NothingOnFile` | smart-home-agent/internal/agent/config_state.go:60-73 | without one the file is as it was |
| `ConfigState.OneMoreHandled` | smart-home-agent/internal/agent/config_state.go:52-73 | the last delivery changes memory exactly if it rules, and the file exactly if it is also saved |
| `ConfigState.HandledIsApplied` | smart-home-agent/internal/agent/config_state.go:60-73 | writing the file, successfully or not, has no part in what memory becomes |
| `ConfigState.HandledMirrors` | smart-home-agent/internal/agent/config_state.go:52-73 | after any deliveries whose ruling documents were saved the file mirrors memory |
| `ConfigState.AloneIsHandled` | smart-home-agent/internal/agent/config_state.go:60-73 | the steps of an undisturbed handler are the whole handler |
| `ConfigState.GatewayConfig.HandleConfig` | smart-home-agent/internal/agent/config_state.go:52-85 | new state, file and transition of one document, stale and undecodable ones included |
| `ConfigState.GatewayConfig.RestoreConfigState` | smart-home-agent/internal/agent/config_state.go:174-192 | memory becomes what the file says, an empty stored map leaving the map in place |
| `EntityMap.InverseExactly` | smart-home-agent/internal/entitymap/entitymap.go:39-57 | the two lookups undo each other exactly for the lists in which an entry is the last word on its device if and only if it is on its entity |
| `EntityMap.DistinctIsInverse` | smart-home-agent/internal/entitymap/entitymap.go:39-57 | so they do when no two entries share a device or an entity |
| `EntityMap.LookupIsLast` | smart-home-agent/internal/entitymap/entitymap.go:47-54 | the last entry of a device or of an entity decides its lookup |
| `EntityMap.DeviceFound` | smart-home-agent/internal/entitymap/entitymap.go:100-103 | whatever is found for a device comes from its last entry |
| `EntityMap.EntityFound` | smart-home-agent/internal/entitymap/entitymap.go:105-108 | whatever is found for an entity comes from its last entry |
| `EntityMap.New` | smart-home-agent/internal/entitymap/entitymap.go:41-57 | the loop skips blank entries and lets later ones win |

## Left out

- HTTP, WebSocket, Paho, JSON encoding and decoding, file system errors in detail and logging: abstract answers that may fail; a document that does not decode is `None`.
- Polling loops (waiting for Core, for provisioning, the retries inside Verify) are a single read with an arbitrary answer; context cancellation is a call that fails, or the end of the list of attempts.
- Time stamps of reports, and the cloud's tie-break on them between reports of one version: only the version axis of ingest is modelled.
- Subscriptions, inventory, availability, software versions and telemetry events; the races between the goroutines started on claim and on unclaim.
- `Recover` and `ReissueClaimCode` running at the same time: both load and save the whole file without a common lock, and are taken one at a time here.
- The claim-code banner and notification, the reporter's output, the web panel, backups of the Zigbee coordinator, discovery, flags and prompts.
- `fleet.Load` and `Validate`: the manifest is an input, and a manifest that cannot be loaded is `None`.
- OnboardSpec.NormalizeRepo: lower-cases ASCII letters only, where the program lower-cases all of Unicode; nothing is proved about applying it twice.
- OnboardTheorems.Quiescent: is about runs without a misread, which change nothing at all; what a misled run may do is bounded by `OnboardQuiet.QuietButForMisreads`.
- OnboardTheorems.OnboardingResumes: says that the options are set, not that a running add-on has loaded them; a crash between writing them and the restart makes the next check skip the restart.
- UpdateTheorems.CrashKeepsMarker: holds if the disk takes the writes; a failed marker write is ignored by the program, as `MarkerSafety` shows.
- Pairing.Manager.Start: the timer's length is not modelled; a timer may fire at any time, for any session, as any closer may.
- Translate.Perform: a service overwrites the fields it is named after and its parameters; what Home Assistant derives from them (a cover's state from its position, say) is not modelled.
- Command.Seconds: converts by flooring a positive real, and so leaves out what Go does with floats beyond the integers.
- ShadowHandler.VersionStore.Set: the temporary file is not shown; the file is replaced as a whole or left.
