# Nexus manager: readiness, host lifecycle and builders, verified

The nexus manager is a Kubernetes operator for the KDex custom resources. This project models its
core and proves what the core keeps over whole runs, for every interleaving and every input.
`dafny verify dfyconfig.toml` checks it.

## What is modelled

**The readiness graph.** Each object's Ready status is computed from the recorded Ready of the
objects it references; a reverse lookup decides who is queued again when something changes.

- `Objects`, `Needs`: kinds, references and levels; what each kind looks up, in the order of its
  controller. `Resolvers`, `Controllers`: the resolver loops and one pass of every controller, step
  by step with early returns and the deferred status write, each proved to record the status that
  is due, to find Ready exactly when all references resolve, spelled out per kind in
  `Resolvers.Resolves`, and then to hold the attributes spelled out in `Controllers.Records`
  (`Lookahead` relates the rest of a pass to what it still has to look up).
- `Readiness`: the state machine. Passes are not atomic: they read their object, then one reference
  at a time, and end with one status write under optimistic concurrency; users, timers and other
  passes step in between. `Runs`, `Agreement`, `Inheritance`, `Propagation`, `Freshness`, `Provenance`,
  `Evaluation`: what holds over all its runs. `TransientNavigation`: a run in which quiescence and
  agreement part.
- `WatchHandler`: the watch handler, its inverse relation to the resolver, and the completeness of
  the registered paths.

**The host lifecycle.** `HostProtocol` is the store of the API server with uids, owners, finalizers,
deletion marks and versions, and one step per call of a host pass. `HostSafety` and `Teardown` prove
safety and progress over all runs, `Creation` and `Deletion` what a pass creates and deletes under
interference, and `Undisturbed` exactly how a pass ends when there is none. `HostPasses` is the
reconcile method as code, with arbitrary steps of others before every call, proved to be a run of
the protocol. `Names` is about the names a host derives.

**The builders.** `Text`, `Flags`, `EnvVars`, `Deployments`: the deployment's mutate function, in
place on arrays. `MemoCells`: the lock-protected memo cells. `HostResources`, `Translations`: the
contents a pass writes, when it goes through, when a second pass writes nothing, and the resolved
translation list.
`OpenApi`: the document that the function validator builds out of aliased maps.

## Assumptions

- Reads return the current object; a write fails when the object changed since it was read; deleting
  an object that has finalizers only marks it; no finalizer may be added to a marked object.
  CreateOrUpdate gets, mutates, and writes only if something changed. At most one pass per object is
  in flight.
- Nobody but the host controller adds or removes the host finalizer, creates the objects a host
  owns, or changes their owner and host reference. Hosts have distinct role binding names.
- References stay in the referrer's own namespace. Cluster-scoped apps and script libraries name no
  secret.
- A status is Ready (recorded or not, true or not), the attributes and the observed generation; a
  status write that changes none of them raises no event. Reasons, messages and times are not modelled.
- The package registry, the JSON codec and the JSONPath evaluator are oracles or plain functions.
  Contents of secrets do not count towards their generation.

## What the code does that its design may not expect

- Quiescence implies agreement for every kind but the utility page. No watch of a utility page
  covers the navigations it inherits from its archetype. If such a navigation is gone just while the
  page passes and then returns unchanged, the archetype's pass changes nothing and no event reaches
  the page; `TransientNavigation.QuiescentDisagreement` is such a run. It needs the archetype's second
  pass to raise no event, which rests on leaving out transition times: each pass sets Ready to Unknown
  and back, and a library that then renews the time would raise one. `Agreement.QuiescenceAgreement`
  states the exact condition: a page that inherits nothing always agrees, and one that disagrees had,
  during its last pass, not found a navigation that it inherits and that is there now. The requeue
  timer (internal/controller/resolver_common.go:251) always covers it.
- When a reference of a host is missing or not Ready, the resolver returns a nil error and the pass
  evaluates `err.Error()` on it (internal/controller/kdexhost_controller.go:202, 217, 236). Modelled
  as a failed pass whose deferred status write still takes place, with Ready not true.
- The first pass over a host adds the finalizer and records the observed generation without setting
  any condition (internal/controller/kdexhost_controller.go:82-98), so a host's observed generation
  can be current while nothing was computed from its spec: `Freshness.AdmittedIsNotJudged`. Once a
  Ready condition is recorded, and only then, it says what it says for the other kinds.
- The role binding is never deleted, only released (internal/controller/kdexhost_controller.go:497-502).
- Rewriting flags is not always idempotent. If the host's name does not contain the service flag, a
  second run changes something only when the focal flag is mentioned, but never without the service
  flag in the same entry, and the host's name does not contain it (`Flags.BothInOneEntry`). If the
  host's name contains the service flag, it always does, unless the name contains both flags, the
  focal flag is mentioned, and never without the service flag. `Flags.SecondRunIsSilent` states this
  exactly.
- A host whose resolved translations include two sources of one name, such as a namespaced and a
  cluster translation, writes the internal translation on every pass
  (`HostResources.TwoTranslationsOfOneName`). `HostResources.HostPassIsSilent` states exactly when a
  second pass is silent.
- Some hosts are reconciled without end. A change of an object that a host owns queues the host
  (internal/controller/kdexhost_controller.go:448-455), a change by its own pass included. By
  `HostResources.PassesSettle` the passes over an unchanged host write nothing from the third on if
  its resolved translations of one name are one source and its name does not contain the service
  flag without the focal flag; otherwise every one of them writes, and so queues the host again.
- Names derived for translations of different hosts can collide; the pass that comes second fails
  before it writes.
- Teardown deletes listed pages and translations by name, without asking that they still be the
  objects it listed (internal/controller/kdexhost_controller.go:122-131). `Deletion.DeletesOnlyOwn`
  therefore says that each was the host's at a moment of the same pass, not that it still is.

## Model

| member | source | states |
|---|---|---|
| Resolvers.Resolve | internal/controller/resolver_common.go:197-269 | a reference is resolved exactly when it is given, names a kind that the referrer may refer to, and its target, spelled out, exists and is Ready; which object comes back with the order to stop |
| Resolvers.ResolvePageNavigations | internal/controller/resolver_common.go:115-152 | for every iteration order: stops exactly when some reference does not resolve, else the same map, keyed by exactly the non-nil references |
| Resolvers.ResolveContents | internal/controller/resolver_common.go:22-70 | stops exactly when some app does not resolve, else each named slot holds its last entry |
| Resolvers.EffectiveNavs | internal/controller/kdexutilitypage_controller.go:146-152 | the page's own navigations win, and the archetype's map stays as it was |
| Controllers.ResolveOption | internal/controller/kdexutilitypage_controller.go:128-135 | stops exactly when a given reference does not resolve; otherwise its attribute holds the generation of the object it names and no other attribute changes |
| Controllers.RecordNavigations | internal/controller/kdexutilitypage_controller.go:158-160 | in every order, the attributes gain exactly the generations of the resolved navigations |
| Controllers.RecordContents | internal/controller/kdexutilitypage_controller.go:122-126 | in every order, the attributes gain exactly the generations of the apps that fill a slot |
| Controllers.StyledPass | internal/controller/kdextheme_controller.go:98-120 | the pass records the status that is due: Ready exactly when the library is absent or Ready, and then its generation as "scriptLibrary.generation" |
| Controllers.PackagedPass | internal/controller/kdexscriptlibrary_controller.go:102-141 | the pass records the status that is due: Ready exactly when the registry accepts the package with its secret's contents; the secret's generation also when the package is rejected |
| Controllers.ArchetypePass | internal/controller/kdexpagearchetype_controller.go:99-148 | the pass records the status that is due: Ready exactly when footer, header, navigations and library resolve, and then each generation under its own attribute, by name |
| Controllers.PagePass | internal/controller/kdexutilitypage_controller.go:100-184 | the pass records the status that is due: Ready exactly when the archetype, the apps, header, footer, the merged navigations and the library resolve, and then each generation under its own attribute, by name |
| Controllers.ResolveUtilityPage | internal/controller/kdexhost_controller_util.go:231-253 | a page that is there must be of the type asked for; one of the three default names may be missing or not Ready, any other not; if and only if, spelled out |
| Controllers.ResolveUtilityPages | internal/controller/kdexhost_controller_util.go:206-261 | announcement, error and login each with its own type, and their generations each under its own attribute |
| Controllers.ResolveTranslations | internal/controller/kdexhost_controller_util.go:143-203 | stops exactly when some configured translation is missing or not Ready; records their generations, and that of the default translation if it exists |
| Controllers.HostPass | internal/controller/kdexhost_controller.go:190-254 | the pass over a host records the status that is due: Ready exactly when the three pages fit, theme, library and translations resolve and the owned objects are up; each generation under its own attribute |
| Controllers.Controller.Reconcile | internal/controller/kdexutilitypage_controller.go:77-98 | for every kind: only the status of the object changes, to the one that is due, Ready exactly when all references resolve, with all the generations found |
| Needs.PlanReadsDirectNeeds | internal/controller/kdexpagearchetype_controller.go:99-133 | a pass looks up exactly what the spec of the object needs |
| Needs.PagePlanReads | internal/controller/kdexutilitypage_controller.go:117-170 | a utility page looks up its archetype, its own references, and the navigations it inherits |
| Needs.DirectNeedsBelow | internal/controller/kdexhost_controller.go:192-236 | references lead to strictly lower levels |
| Evaluation.NavOrderIrrelevant | internal/controller/resolver_common.go:123-151 | two iteration orders succeed or stop alike and leave the same attributes |
| Evaluation.PageOrderIrrelevant | internal/controller/kdexutilitypage_controller.go:117-170 | the same for all lookups of a utility page |
| Evaluation.EvalIdempotent | internal/controller/kdexutilitypage_controller.go:122-170 | repeating the lookups on top of their own attributes changes nothing |
| Evaluation.DueReadyIsRecomputed | internal/controller/kdexutilitypage_controller.go:100-184 | an undisturbed pass records Ready exactly when all it has to look up holds |
| Resolvers.RecomputedIsResolves | internal/controller/kdexhost_controller.go:190-254 | what an undisturbed pass recomputes for each kind, spelled out: which references must be there, Ready, and for the pages of a host of which type |
| Evaluation.ReadKeepsExpected | internal/controller/kdexutilitypage_controller.go:100-170 | a lookup on the current store does not change what a pass is heading for |
| Readiness.StepKeepsInv | internal/controller/kdexutilitypage_controller.go:46-185 | every step of users, timers and passes keeps every object queued, undisturbed in flight, or settled |
| Agreement.QuiescenceAgreement | internal/controller/kdexutilitypage_controller.go:208-266 | in every run, when the queue is empty: recorded Ready is right, all references then resolve; for every kind but the utility page it is also complete; in general the record agrees with the store if and only if the last pass was not stopped by an inherited navigation while all stated needs hold; whatever inherits no navigations agrees |
| Agreement.DisagreementSawAbsence | internal/controller/kdexutilitypage_controller.go:146-157 | what disagrees at quiescence is a page that, at a moment inside its last pass, lacked a navigation that it inherits now and that is there now |
| Agreement.DisagreementIsArmed | internal/controller/resolver_common.go:251 | whatever disagrees at quiescence has a requeue timer pending |
| TransientNavigation.QuiescentDisagreement | internal/controller/kdexutilitypage_controller.go:146-157 | a run that ends quiescent with a utility page that disagrees |
| Propagation.PropagationTerminates | internal/controller/kdexutilitypage_controller.go:77-87 | no infinite schedule of steps of passes starts in any reachable state, where changes of owned objects, by a host's own pass too, count as outside events |
| Propagation.OutsideEventsRecur | internal/controller/kdexutilitypage_controller.go:77-87 | a run that goes on for ever has outside events without end: edits, deletions, timers, or changes of owned objects |
| Propagation.LevelsNotRaised | internal/controller/utils.go:73-162 | the lexicographic measure: a step lowers its own level and raises none below |
| Propagation.DueIdempotent | internal/controller/kdexutilitypage_controller.go:77-87 | recording the due status makes it the recorded one for good, attributes included |
| Propagation.StuckMeansQuiescent | internal/controller/utils.go:73-162 | a schedule can only end with an empty queue and no pass in flight |
| Freshness.ObservedReadyIsCurrent | internal/controller/kdexutilitypage_controller.go:54-98 | with spec edits inside passes: observed never exceeds generation, and where they are equal the status was computed from the current spec if and only if it holds a Ready condition, as it always does for kinds other than hosts |
| Freshness.AdmittedIsNotJudged | internal/controller/kdexhost_controller.go:90-98 | a run after which a host's observed generation is current and nothing was computed |
| Provenance.ReadyHasProvenance | internal/controller/resolver_common.go:197-337 | every recorded Ready has a finite justification tree, strictly decreasing in time |
| Provenance.ReadyFoundAll | internal/controller/kdexhost_controller.go:190-254 | whatever a run records as Ready, for every kind: each reference of the spec that was read was found at some moment of that pass, Ready, and for the pages of a host of type Announcement, Error and Login respectively |
| WatchHandler.MapToRequests | internal/controller/utils.go:57-163 | the nested loops compute the request list that the next rows characterise |
| WatchHandler.AppendMatches | internal/controller/utils.go:93-157 | the two inner loops append one request per matching value, in order |
| WatchHandler.MatchIsResolution | internal/controller/utils.go:110-156 | the handler's test on a listed referrer is the resolver's answer, up to foreign namespaces |
| WatchHandler.UnlistedNeverResolve | internal/controller/utils.go:64 | the namespace of the list call leaves out no referrer that resolves to the changed object |
| WatchHandler.HandlerInvertsResolver | internal/controller/utils.go:57-163 | a referrer is requested if and only if one of its references at the registered paths resolves to the changed object |
| WatchHandler.EvaluateFinds | internal/controller/utils.go:78-107 | an evaluator that fails behind nil pointers and yields nil references is among those that the inverse theorem covers |
| WatchHandler.RefersIsWatched | internal/controller/kdexutilitypage_controller.go:208-266 | the registrations cover every reference of every well-formed object, and nothing else |
| HostSafety.StepKeepsInv | internal/controller/kdexhost_controller.go:69-177 | every call of any pass and every outside step keeps the invariants of the lifecycle |
| HostSafety.DeploymentHasPermissions | internal/controller/kdexhost_controller.go:263-321 | in every reachable state a host's deployment has its service account and role binding, both held by the finalizer |
| HostSafety.ReleaseIsSafe | internal/controller/kdexhost_controller.go:100-177 | the host finalizer goes only when internal host, pages, translations and deployment are absent and both RBAC objects are released |
| HostSafety.HostRefNamesOwner | internal/controller/kdexhost_controller_util.go:40-64 | an internal translation or page names exactly the host that controls it |
| Creation.CompletePassCreated | internal/controller/kdexhost_controller.go:263-365 | a pass that completes has, whatever others do meanwhile, for every page, every translation and each of the six owned objects, named one by one, a moment at which it is there, controlled by the host and held if it grants permissions |
| Creation.RunPassCreated | internal/controller/kdexhost_controller.go:190-365 | the same of every run of the protocol |
| Deletion.DeletesOnlyOwn | internal/controller/kdexhost_controller.go:103-156 | in every run, what a call of a pass deletes is the internal host or deployment of a host that is being deleted, or a page or translation that was that host's at a moment of the same pass |
| Undisturbed.UndisturbedCreation | internal/controller/kdexhost_controller.go:263-365 | when nobody else acts, the pass completes if and only if no object it needs is controlled by another uid, or terminating and short of its finalizer |
| Undisturbed.UndisturbedTeardown | internal/controller/kdexhost_controller.go:101-176 | when nobody else acts, the pass never fails: it releases the host if nothing was left, waits if the first non-empty stage was wholly terminating, and else deletes all that was live in it |
| Undisturbed.UndisturbedPass | internal/controller/kdexhost_controller.go:69-177 | when nobody else acts, a whole pass, by the host it reads: it admits a live host, or creates all that a live host owns, or takes one stage of teardown or releases, or leaves alone a host already released |
| Undisturbed.PassCanEnd | internal/controller/kdexhost_controller.go:69-177 | from every reachable state a pass in flight can come to its end |
| Teardown.StepLightens | internal/controller/kdexhost_controller.go:101-176 | once no older pass is in flight, no step increases what is left to tear down, except that a new finalizer on it adds one at most |
| Teardown.PhaseLasts | internal/controller/kdexhost_controller.go:101-176 | the teardown phase lasts until the host is released |
| Teardown.PassMakesProgress | internal/controller/kdexhost_controller.go:101-176 | a pass without error lowers what is left (finalizers added during the pass aside), or waits for a first non-empty stage that is wholly terminating, or releases the host with nothing left |
| Teardown.TeardownIsBounded | internal/controller/kdexhost_controller.go:101-176 | productive passes are at most the weight at the start plus the finalizers that anyone adds to what is left, for any number of pages and translations |
| HostPasses.Reconcile | internal/controller/kdexhost_controller.go:90-177 | under arbitrary interference the code is a run of the protocol, keeps its invariants, and ends with the outcome it reports: complete means that all objects have been created, admitted that the host carries the finalizer, released that it does not |
| HostPasses.Teardown | internal/controller/kdexhost_controller.go:100-176 | the staged deletion in code, stage by stage |
| HostPasses.DeleteItems | internal/controller/kdexhost_controller.go:122-131 | the loop deletes exactly the live items and waits when there are none |
| HostPasses.CleanupRbacFinalizers | internal/controller/kdexhost_controller.go:493-520 | role binding first, then service account, each only if it carries the finalizer |
| HostPasses.CreateAll | internal/controller/kdexhost_controller.go:263-365 | creates and updates in the fixed order, ending at the first failure; when complete, each of the six objects and of the pages and translations was there, as the host wants it, at a moment of the pass |
| HostPasses.ApiServer.CreateOrUpdate | internal/controller/kdexhost_controller.go:1006-1025 | get, mutate and write, with others in between |
| HostPasses.CodeRunIsRun | internal/controller/kdexhost_controller.go:69-177 | what the code does after any run of the protocol continues that run, so all safety results apply to it |
| Names.PageNamesInjective | internal/controller/kdexhost_controller_util.go:99 | utility page names are injective in host and type |
| Names.TranslationNamesInjective | internal/controller/kdexhost_controller_util.go:40 | translation names are injective for one host |
| Names.DerivedIsNamedAfter | internal/controller/kdexhost_controller_util.go:40 | the pages and translations that the lifecycle lets a pass write for a host are exactly those with names derived from it |
| Names.NamesCollide | internal/controller/kdexhost_controller.go:857 | two hosts can derive one name, for translations and for role bindings |
| Names.CollisionIsRefused | internal/controller/kdexhost_controller_util.go:48-64 | in every reachable state: a create or update never touches an internal object that names another host, and fails unless that object was replaced after it was read |
| Text.NoStraddling | internal/controller/kdexhost_controller.go:773-790 | no occurrence of a flag straddles the equals sign |
| Flags.RewriteInPlace | internal/controller/kdexhost_controller.go:772-781 | one loop over the entries, in place, and which flags it found |
| Flags.Container.RewriteFlags | internal/controller/kdexhost_controller.go:770-797 | both loops and the two appends |
| Flags.RewritingIsExact | internal/controller/kdexhost_controller.go:770-797 | every entry that mentions a flag is that flag for this host, both flags occur, the others keep index and value, arguments grow by the missing flags only |
| Flags.SecondRunIsSilent | internal/controller/kdexhost_controller.go:770-797 | the exact condition on the original entries under which a second run changes nothing |
| Flags.BothInOneEntry | internal/controller/kdexhost_controller.go:770-797 | arguments for which a second run appends a flag |
| Flags.ServiceInHostIsUnstable | internal/controller/kdexhost_controller.go:770-797 | for a host whose name contains the service flag only, every second run changes something |
| Flags.FocalInHostIsStable | internal/controller/kdexhost_controller.go:770-797 | for a host whose name contains the focal flag only, no second run changes anything |
| Flags.StableAfterOneRun | internal/controller/kdexhost_controller.go:770-797 | whatever the entries, from the second run on they settle if and only if the host's name does not contain the service flag without the focal flag |
| Flags.PlainIsStable | internal/controller/kdexhost_controller.go:770-797 | it does when the host name contains no flag and no entry contains both |
| EnvVars.MergeEnvVars | internal/controller/utils.go:166-185 | the loops with the index map compute the merge that the next rows characterise, duplicates allowed |
| EnvVars.MergeLookup | internal/controller/utils.go:173-182 | the last occurrence of a name is the last override of it, else the existing one |
| EnvVars.MergeKeepsPositions | internal/controller/utils.go:173-182 | existing names keep their positions, what is not overridden keeps its value, distinct names stay distinct |
| EnvVars.MergeConcat | internal/controller/utils.go:166-185 | merging twice is merging the concatenation |
| EnvVars.MergeSingle | internal/controller/utils.go:166-185 | one override replaces the last variable of its name in place, or is appended; with the previous row this fixes every merge |
| EnvVars.MergeIdempotent | internal/controller/utils.go:166-185 | merging the same overrides again changes nothing |
| EnvVars.HistoryOfEnvironments | internal/controller/kdexhost_controller.go:808-810 | after any number of passes the environment is the template merged with all host environments in order |
| Deployments.Pod.DeepCopy | internal/controller/kdexhost_controller.go:751 | an equal copy that shares no object with the memo |
| Deployments.Pod.MountConfig | internal/controller/kdexhost_controller.go:802-806 | the config volume mounts the host's config map, in place; it aborts exactly when such a volume has no config map |
| Deployments.Pod.Mutate | internal/controller/kdexhost_controller.go:770-818 | the whole new value of the deployment, field by field: environment, flags, name and account, replicas, resources and volumes; within its own footprint; or an abort at a config volume without a config map |
| Deployments.Build | internal/controller/kdexhost_controller.go:737-821 | a new deployment is the mutated template; the memo is not touched |
| Deployments.MutatedIsDeployed | internal/controller/kdexhost_controller.go:770-818 | a variable has the host's value if the host gives one, else the old one; replicas and resources are the host's where set; config volumes name the host and the others stay |
| Deployments.EnvironmentOfDeployment | internal/controller/kdexhost_controller.go:808-810 | after any number of passes the environment of the deployment is the template merged with all host environments in order |
| Deployments.MutatedAgain | internal/controller/kdexhost_controller.go:770-818 | mutating twice changes nothing exactly when the flags were stable |
| MemoCells.MemoIsConstant | internal/controller/kdexhost_controller.go:522-585 | under every interleaving the memo is unset or the configured default, and every successful return is the default |
| MemoCells.MemoStaysSet | internal/controller/kdexhost_controller.go:553-568 | once set, a memo keeps its value |
| MemoCells.WriterIsAlone | internal/controller/kdexhost_controller.go:553-568 | while one caller computes and stores, no other writes or holds the read lock |
| MemoCells.CallsReturn | internal/controller/kdexhost_controller.go:522-585 | no deadlock and no endless call: once no call begins, the calls under way take boundedly many steps, and when none can step each has returned the default, or the error if there is none |
| MemoCells.CallsCanReturn | internal/controller/kdexhost_controller.go:522-585 | from every reachable state there is a way on after which no call is under way |
| HostResources.Cluster.CreateOrUpdate | internal/controller/kdexhost_controller.go:603-623 | writes exactly when the mutate function succeeds and changes something |
| HostResources.Cluster.CreateAll | internal/controller/kdexhost_controller.go:190-367 | the writes of a whole pass in order, ending at the first failure |
| HostResources.PassGoesThrough | internal/controller/kdexhost_controller.go:190-367 | a pass goes through if and only if the store it starts from lets each of its items: of the right form, not controlled by another uid, labelled, and mountable |
| HostResources.ForeignIsRefused | internal/controller/kdexhost_controller_util.go:48-64 | an object that another uid controls is refused and nothing is written |
| HostResources.HostPassContents | internal/controller/kdexhost_controller.go:190-367 | after a host pass: pages and translations hold their sources for this host; the internal host names the existing announcement, error and login page and the translations, and holds the host's spec and generation; binding, account, config map, deployment and service hold what they should |
| HostResources.CreatedCarry | internal/controller/kdexhost_controller.go:603-623 | every object that a pass creates has the labels and annotations of the host and the two labels of its own |
| HostResources.MutateTwice | internal/controller/kdexhost_controller.go:603-623 | each mutate function is idempotent, but for the flags, wherever it succeeds |
| HostResources.SecondPassIsSilent | internal/controller/kdexhost_controller.go:190-367 | a second pass writes nothing if and only if no two of its items disagree about one object and the flags were stable |
| HostResources.HostPassIsSilent | internal/controller/kdexhost_controller.go:190-367 | for a host pass: if and only if resolved translations of one name are one source and the flags were stable |
| HostResources.PassesSettle | internal/controller/kdexhost_controller.go:190-367 | once a pass over an unchanged host has gone through, all do; from the third on they write nothing if and only if translations of one name are one source and the host's name does not contain the service flag without the focal flag, and otherwise each of them writes |
| HostResources.AmbiguousPassWrites | internal/controller/kdexhost_controller_util.go:150-174 | with two sources of one name, the second pass from an empty store succeeds and writes |
| HostResources.TwoTranslationsOfOneName | internal/controller/kdexhost_controller_util.go:150-174 | a namespaced and a cluster translation of one name are such sources |
| Translations.CreateOrUpdateTranslation | internal/controller/kdexhost_controller_util.go:33-90 | create or update of one internal translation, and the name it returns |
| Translations.ResolveTranslations | internal/controller/kdexhost_controller_util.go:143-203 | succeeds exactly when every configured reference is Ready and every write is accepted, and never if one is missing or not Ready; one name per reference in order, plus the default if it exists, each of an object of this host that holds the last source of its name |
| Translations.LastSourceWins | internal/controller/kdexhost_controller_util.go:59-61 | afterwards each internal translation holds the last source resolved to its name, and all others are untouched |
| Translations.ResolvedNamesExist | internal/controller/kdexhost_controller_util.go:143-203 | every entry of the list names an existing internal translation, controlled by this host, with the content of the last source of that name |
| OpenApi.Collect | internal/webhook/kdexfunction_validator.go:109-122 | fails exactly when a type assertion on the requirements does, else adds exactly the schemes used |
| OpenApi.ShapeHolds | internal/webhook/kdexfunction_validator.go:139-163 | each of the nine operations is under its own method, named one by one, if and only if it decodes; the texts are there unless empty; nothing else is |
| OpenApi.BuildPath | internal/webhook/kdexfunction_validator.go:126-163 | exactly the decoded operations of the path, each under its own method, and their schemes |
| OpenApi.BuildPaths | internal/webhook/kdexfunction_validator.go:124-165 | in every iteration order, every path and exactly the schemes used by decoded operations |
| OpenApi.BuildSchemas | internal/webhook/kdexfunction_validator.go:167-174 | exactly the schemas that decode |
| OpenApi.AddSchemas | internal/webhook/kdexfunction_validator.go:167-179 | the schemas go in through the aliased components and leave the schemes alone |
| OpenApi.SchemesAreClosed | internal/webhook/kdexfunction_validator.go:109-165 | section 4.7.30 of OpenAPI 3.0.3: a scheme is declared if and only if an operation in the document requires it |
| OpenApi.BuildDocument | internal/webhook/kdexfunction_validator.go:71-179 | the whole document, and its closure after the schemas are added |

## Left out

- Agreement.QuiescenceAgreement: does not promise agreement for every utility page that inherits navigations, because that is false; it states the exact condition instead.
- Freshness.ObservedReadyIsCurrent: does not promise that a host without a recorded Ready condition was computed from its spec, because that is false. Hosts being deleted are not covered.
- Controllers.HostPass: the fate of the objects a host owns is one oracle read at the end of the pass, so a failed write of a page or translation does not stop the lookups after it, and the attribute `ingress` is not copied. `HostResources` and `HostProtocol` model those writes.
- Controllers.ResolveUtilityPage: does not write the internal page; `HostResources` does.
- Controllers.ResolveUtilityPages: does not write the internal pages or return references to them; `HostResources` does.
- Controllers.ResolveTranslations: does not write the internal translations; `Translations.ResolveTranslations` does.
- HostResources.CreatedCarry: the page type in the label "kdex.dev/utility-page-type" is taken as given, in lower case; the constants of the page types are not part of this repository.
- Undisturbed.UndisturbedCreation: calls that the API server refuses for other reasons than those modelled, and a deployment that is not yet available, end a pass early; in the lifecycle that is the step `Abort`.
- MemoCells.CallsReturn: whether calls that keep beginning can hold up one that waits for the write lock depends on the fairness of the lock, which is not modelled.
- Deployments.Pod.Mutate: leaves out labels and selectors, which are set on creation only.
- Status writes that fail for other reasons than a conflict, read errors other than not found, and the back-off times of the work queue.
- Conditions other than Ready, their reasons, messages and transition times, and False versus Unknown: they depend on the iteration order of Go maps.
- References into foreign namespaces, secrets of cluster-scoped objects, and hosts whose role bindings share a name.
- WatchHandler.RefersIsWatched: does not cover a content entry with both markup and an app. The resolver ignores the app of such an entry, while the handler still queues the page for it.
- A content entry with neither markup nor app: the code dereferences a nil spec; the schema of the resource excludes it.
- The list object that concurrent events of one watch registration share in the watch handler.
- The identity of memo objects, and the cells' reads outside the lock as data races: `MemoCells` covers their values.
- Labels of pod templates and selectors, the quantities of resource requirements, and the status conditions of the deployment and the internal host that make a pass wait: in the lifecycle a waiting pass is one that ends without the remaining calls.
- Webhook defaulters and the other validators, the regular expressions on base and item paths, and the linter that reads the generated document.
- `ResolveHost` and `ResolvePageBinding`, which the modelled controllers do not call, and the watch on the FaaS adaptor.
- Client, cache, garbage collector, leader election and start-up code.
