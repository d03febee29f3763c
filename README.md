# Octopus Deploy feature branches, modelled in Dafny

`octopus/feature-branch.py` keeps an Octopus Deploy server in step with a source-control feature
branch.

- `create` finds or creates an environment and a lifecycle named after the branch. It then finds
  or creates a channel of the project with version rules for the branch. Finally it assigns
  deployment targets to the branch environment: by name, by role, or by role among the targets
  that already hold an existing environment.
- `delete` first cancels the running tasks of the branch channel's deployments and polls until
  none is left running. It then deletes the channel's releases, the channel and the lifecycle. It
  unassigns the environment from every target, deleting a target that is left with no
  environment, and deletes the environment last.
- The branches `main` and `master` are never touched.
- Each workflow is retried on an API error, up to three attempts.

The model replaces the HTTP server by an in-memory platform.

- **The platform.** `Server.Platform` is a value holding the collections the script reads and writes:
  spaces, environments, lifecycles, projects (with their deployment process), channels,
  machines, releases, deployments and tasks. It also holds a log of every accepted write, in
  order.
- **The server.** `Server.Store` is a class with one `seq` field per collection. Its methods
  model the script's GET, POST, PUT and DELETE requests one by one.
- **The fault model.** The store numbers its requests. A request whose number is in the
  constant set `failing` gets an error status and changes nothing. This is how both failure
  paths are reachable:
  - a checked call whose falsy response raises `OctopusApiError` (`ApiError`, retried);
  - an unchecked call whose `.json()` or `["Items"]` would fail (`UndecodableResponse`, not
    retried).
- **The script's functions** become methods on the store. Each is proved against a pure
  "effect" function on the platform, which gives the result and the new platform when every
  request is answered. With a failing request the methods still state the partial state they
  leave: an assignment loop stops after a finished prefix, and a lookup changes nothing.
- **What is proved**, as lemmas about the effect functions:
  - exact-name resolution;
  - find-or-create idempotence and the shape of the posted payloads;
  - rule generation;
  - add-if-absent and remove-everywhere target updates, and that they undo each other;
  - `cancel_tasks` counting exactly the running tasks;
  - the fixed order of each workflow's writes;
  - the precedence among the target-assignment variants.

The poll loop `while True` of `delete_feature_branch` has no bound. It is modelled over a finite
sequence of "ticks": `ticks[i]` is the set of tasks the platform finishes during the i-th
`time.sleep(10)`. A run that is still polling when the ticks run out ends in `Ok(false)`.

`cancel_tasks` returns `None` for a blank argument, and `None` is never `0`. A blank or
unresolved space, project or branch therefore keeps the script polling for ever, deleting
nothing. The model keeps this behaviour: see `OrchestratorFacts.BlankNeverSettles` and
`OrchestratorFacts.UnresolvedNeverSettles`.

## Model

| member | source | states |
|---|---|---|
| Text.TrimStart | octopus/feature-branch.py:77 | the result is a suffix of the input that does not start with whitespace, and everything dropped is whitespace |
| Text.TrimEnd | octopus/feature-branch.py:77 | the result is a prefix of the input that does not end with whitespace, and everything dropped is whitespace |
| Text.Strip | octopus/feature-branch.py:81 | Python `strip()`: no longer than the input, neither end is whitespace, and empty exactly when the input is all whitespace |
| Text.StripBorders | octopus/feature-branch.py:81 | a stripped string neither starts nor ends with whitespace |
| Text.StripEmptyIffAllSpace | octopus/feature-branch.py:26-27 | stripping leaves nothing exactly when every character is whitespace |
| Text.BlankIffStripsToEmpty | octopus/feature-branch.py:26-31 | `is_blank(s)` holds exactly when `s` is `None` or strips to the empty string, which is also the test used at line 271 |
| Text.StripFixesTrimmed | octopus/feature-branch.py:77 | a string is its own strip exactly when it neither starts nor ends with whitespace |
| Text.ContainsSelf | octopus/feature-branch.py:77-81 | an exactly named item always passes the partial-name search |
| Collections.Filter | octopus/feature-branch.py:81 | a list comprehension with an `if`: no longer than the input, and holding exactly the elements that satisfy the condition |
| Collections.FilterAppend | octopus/feature-branch.py:403 | filtering distributes over concatenation |
| Collections.FilterTwice | octopus/feature-branch.py:202 | filtering twice is one filter by both conditions |
| Collections.FilterUnique | octopus/feature-branch.py:403 | a filter never introduces a repeated key |
| Collections.RemoveAll | octopus/feature-branch.py:511 | `[a for a in ids if a != x]`: no occurrence of `x` is left and every other element is kept |
| Collections.RemoveAllNoDuplicates | octopus/feature-branch.py:511 | removing occurrences cannot create a duplicate |
| Lookup.Page | octopus/feature-branch.py:77 | `take=1000`: the response is exactly the first `PageSize` items of the listing, or the whole listing when it is shorter |
| Lookup.FirstExactId | octopus/feature-branch.py:107-114 | the id of an item whose name equals the wanted name, or `None` exactly when no item has that name |
| Lookup.FirstExactIdIsFirst | octopus/feature-branch.py:107-113 | the id returned is that of the first exact match: no earlier item has the name |
| Lookup.ExactWithinPartial | octopus/feature-branch.py:102-107 | items that only partially match never change the result: the exact matches among the partial matches are the exact matches of the whole listing |
| Lookup.ResolveNameFindsFirstExact | octopus/feature-branch.py:102-114 | while the partial matches fit in one page, the lookup returns the id of the first item of the whole listing named exactly like the stripped name |
| Lookup.ResolveNameSound | octopus/feature-branch.py:107-114 | whatever the listing's size, a returned id belongs to a listed item whose name is exactly the stripped name |
| Lookup.ResolveNameIsFirstExact | octopus/feature-branch.py:107-114 | both directions: an id is returned only for an exact match, and while the matches fit in one page `None` is returned only when there is no exact match |
| Lookup.AppendedIsFirstExact | octopus/feature-branch.py:132-147 | an item appended to a listing without an exact match is what the next lookup finds |
| Lookup.CreatedIsFound | octopus/feature-branch.py:132-147 | find-or-create converges: once a lookup found nothing and an item with the (unpadded) name was appended, the same lookup returns the new item's id |
| Lookup.PaddedIsNotFound | octopus/feature-branch.py:77-81 | whatever the listing's size, an item appended under a name with surrounding whitespace is not found by the lookup of that name when nothing was found before |
| Lookup.UntrimmedNameIsNotFound | octopus/feature-branch.py:139 | a name with surrounding whitespace is posted as given but searched stripped, so the item created under " feature" is not found by the lookup for " feature" |
| Lookup.StripLeadingSpace | octopus/feature-branch.py:77 | `" feature".strip()` is `"feature"` |
| Server.First | octopus/feature-branch.py:94 | an element of the list satisfying the condition, or `None` exactly when there is none |
| Server.WithoutKey | octopus/feature-branch.py:405-406 | what a DELETE of resource `id` leaves: exactly the elements whose id differs |
| Server.WithoutKeyAfterFilter | octopus/feature-branch.py:417-418 | a DELETE after a filter is one filter by both conditions |
| Server.FreshId | octopus/feature-branch.py:142-147 | the id the platform gives a new resource differs from every id already taken |
| Server.EnvironmentListingGrows | octopus/feature-branch.py:141-142 | a created environment is listed last among its space's environments |
| Server.LifecycleListingGrows | octopus/feature-branch.py:184-185 | a created lifecycle is listed last among its space's lifecycles |
| Server.ChannelListingGrows | octopus/feature-branch.py:289-290 | a created channel is listed last among its project's channels |
| Server.Complete | octopus/feature-branch.py:555 | finishing tasks during a sleep keeps every task in the list (see `Server.TaskByIdElapsed` for what changes) |
| Server.CompleteAppend | octopus/feature-branch.py:555 | finishing tasks works element by element, so it distributes over concatenation |
| Server.TaskByIdElapsed | octopus/feature-branch.py:379-383 | after a sleep the task lookup finds each task where it did before, completed exactly when it was completed or was finished during the sleep |
| Server.IdentifierIsNotBlank | octopus/feature-branch.py:453 | an id the platform assigned is never blank, so `delete_target` and the other id-guarded calls never skip a request for it |
| Server.ReplaceUnique | octopus/feature-branch.py:314 | a PUT keeps machine ids unique and introduces no machine but the one written |
| Server.Store.constructor | octopus/feature-branch.py:575-577 | the server starts serving the given platform, with no request sent yet and the given failing requests |
| Server.Store.Send | octopus/feature-branch.py:143-144 | one request is sent and numbered; it is answered exactly when its number is not failing |
| Server.Store.ListSpaces | octopus/feature-branch.py:77-79 | the first page of the spaces whose name contains the search, or nothing when the request fails; the platform is unchanged |
| Server.Store.GetSpace | octopus/feature-branch.py:85-87 | the probe is truthy exactly when it is answered and a space has that id |
| Server.Store.ListResources | octopus/feature-branch.py:102-105 | the first page of the partial-name matches among the space's resources of the kind; nothing when unanswered or the space does not exist |
| Server.Store.ListChannels | octopus/feature-branch.py:197-200 | the same search among one project's channels |
| Server.Store.ListMachines | octopus/feature-branch.py:216-223 | the first page of the space's machines; nothing when unanswered or the space does not exist |
| Server.Store.GetMachine | octopus/feature-branch.py:304-310 | the machine with that id in the space, when answered |
| Server.Store.GetDeploymentProcess | octopus/feature-branch.py:244-248 | the steps of the project's deployment process, when answered and the project exists |
| Server.Store.ListDeployments | octopus/feature-branch.py:372-374 | the deployments of the project in the channel, in order, when answered |
| Server.Store.GetTask | octopus/feature-branch.py:379-381 | the task with that id, when answered and known |
| Server.Store.ListReleases | octopus/feature-branch.py:400-402 | the releases of the project, when answered |
| Server.Store.PostEnvironment | octopus/feature-branch.py:138-147 | the response is truthy exactly when answered and the space exists; then exactly one environment with the posted name and a fresh id is added and its creation logged, otherwise nothing changes |
| Server.Store.PostLifecycle | octopus/feature-branch.py:184-190 | the same for a lifecycle: the posted record is added under a fresh id |
| Server.Store.PostChannel | octopus/feature-branch.py:289-295 | the same for a channel of an existing project |
| Server.Store.PutMachine | octopus/feature-branch.py:314-317 | truthy exactly when answered and the machine exists; then the machine is replaced by the record sent and the update logged, otherwise nothing changes |
| Server.Store.DeleteMachine | octopus/feature-branch.py:456-460 | truthy exactly when answered and the machine exists; then it is removed and the deletion logged |
| Server.Store.CancelTask | octopus/feature-branch.py:386-389 | truthy exactly when answered and the task exists; only the cancellation is logged, because cancelling completes nothing by itself |
| Server.Store.DeleteRelease | octopus/feature-branch.py:405-408 | truthy exactly when answered and the release exists; then it is removed and the deletion logged |
| Server.Store.DeleteChannel | octopus/feature-branch.py:417-420 | the same for a channel of the project |
| Server.Store.DeleteLifecycle | octopus/feature-branch.py:431-434 | the same for a lifecycle |
| Server.Store.DeleteEnvironment | octopus/feature-branch.py:445-448 | the same for an environment |
| Server.Store.Elapse | octopus/feature-branch.py:555 | during `time.sleep` the platform finishes the given tasks; no request is sent |
| Resolver.GetSpaceId | octopus/feature-branch.py:73-95 | no request for a blank name; a failing search is a decoding failure; otherwise the first space named like the stripped name, or else the name itself when the unstripped probe finds a space with that id; a returned id always names a space |
| Resolver.GetResourceId | octopus/feature-branch.py:98-114 | no request when the space or the name is blank; one GET otherwise; a decoding failure when it fails or the space does not exist; otherwise the first exact match of the stripped name |
| Resolver.FindChannel | octopus/feature-branch.py:193-209 | the same among the project's channels, with a blank project also short-circuiting |
| Resolver.ChannelIdOfProject | octopus/feature-branch.py:197-209 | for non-blank names and an existing project the channel lookup is one resolution over the project's channels |
| Resolver.ChannelIdSameCatalog | octopus/feature-branch.py:197-202 | the channel lookup depends only on the projects and the channels |
| Resolver.SpaceIdNamesSpace | octopus/feature-branch.py:92-95 | a space id `get_space_id` returns names an existing space |
| Resolver.ChannelIdNamesChannel | octopus/feature-branch.py:208-209 | a channel id `find_channel` returns names an existing channel of the project with that exact name |
| Resolver.ResourceIdNamesResource | octopus/feature-branch.py:113-114 | an environment or lifecycle id `get_resource_id` returns names an existing one of the space |
| Rules.BranchTag | octopus/feature-branch.py:275 | the tag is `^`, the branch name and `.*$`, character for character |
| Rules.CollectPackages | octopus/feature-branch.py:250-258 | the nested loops append exactly the entries of the process, in step, action and package order |
| Rules.PackagesOfAppend | octopus/feature-branch.py:252-256 | entries come out in process order: two processes' entries follow each other |
| Rules.PackagesOfLength | octopus/feature-branch.py:252-256 | exactly one entry per (step, action, package) triple |
| Rules.PackagesOfCovers | octopus/feature-branch.py:252-256 | every package of every action of every step has an entry under its step's name |
| Rules.PackagesOfSound | octopus/feature-branch.py:252-256 | every entry names a package that an action of the named step deploys |
| Rules.ChannelRules | octopus/feature-branch.py:271-277 | a non-blank step name gives exactly one rule, for that step and package; otherwise one rule per package of the process, in order; every rule carries the branch tag, its entry's action and only its entry |
| Rules.RulesShape | octopus/feature-branch.py:274-277 | one rule per entry, each holding exactly its entry under the branch tag |
| Rules.FeatureFooTag | octopus/feature-branch.py:275 | the tag of branch `feature/foo` is literally `^feature/foo.*$` |
| Provisioner.CreateEnvironment | octopus/feature-branch.py:128-147 | no request for blank arguments; a failure or `None` leaves the platform unchanged; with every request answered, the result and new platform are those of the find-or-create effect |
| Provisioner.CreateLifecycle | octopus/feature-branch.py:150-190 | the same for the lifecycle, posting the draft of lines 160-182 |
| Provisioner.FindPackages | octopus/feature-branch.py:240-258 | no request for blank arguments; otherwise one checked GET, an API error when it fails or the project is missing, and the process's entries when it succeeds |
| Provisioner.CreateChannel | octopus/feature-branch.py:261-295 | no request for blank arguments; a failure leaves the platform unchanged; with every request answered, the result and platform of the channel find-or-create effect |
| Provisioner.PostBranchChannel | octopus/feature-branch.py:271-295 | once no channel exists: with every request answered, the new channel id and exactly one channel added with the rules generated from the arguments and the process |
| Provisioner.EnvironmentFoundOrCreated | octopus/feature-branch.py:132-147 | either an environment named like the stripped branch is listed and nothing changes, or exactly one environment is added under a fresh id with the name as given and one creation is logged; while the matches fit in one page, the second case means none was listed |
| Provisioner.EnvironmentIdempotent | octopus/feature-branch.py:128-147 | for a branch name without surrounding whitespace, running `create_environment` again on the platform it left returns the same id and changes nothing |
| Provisioner.EnvironmentPaddedDuplicates | octopus/feature-branch.py:132-147 | for a branch name with surrounding whitespace and no environment found, the second run posts another environment under a new id, so the script is not idempotent there |
| Provisioner.EnvironmentEffectFinds | octopus/feature-branch.py:134-136 | when the lookup finds the environment its id is returned and nothing changes |
| Provisioner.EnvironmentFoundOnceCreated | octopus/feature-branch.py:138-147 | the environment just created is what the next lookup of its name finds |
| Provisioner.LifecycleFoundOrCreated | octopus/feature-branch.py:154-190 | found-or-created as for environments; a created lifecycle has exactly one phase named after the branch with the branch environment as its only optional target, no automatic targets, minimum 0, not optional, and both retention policies keep forever with quantity 0 in days |
| Provisioner.LifecycleIdempotent | octopus/feature-branch.py:150-190 | for a branch name without surrounding whitespace, a second `create_lifecycle` finds what the first returned and changes nothing |
| Provisioner.LifecyclePaddedDuplicates | octopus/feature-branch.py:154-190 | for a padded branch name, the second run posts another lifecycle under a new id |
| Provisioner.LifecycleEffectFinds | octopus/feature-branch.py:156-158 | a found lifecycle is returned and nothing changes |
| Provisioner.LifecycleFoundOnceCreated | octopus/feature-branch.py:184-190 | the lifecycle just created is what the next lookup finds |
| Provisioner.ChannelFoundOrCreated | octopus/feature-branch.py:265-295 | found-or-created; a created channel is not the default, is named as the branch, belongs to the project and uses the given lifecycle, with the generated rules |
| Provisioner.ChannelIdempotent | octopus/feature-branch.py:261-295 | for a branch name without surrounding whitespace, a second `create_channel` finds what the first returned and changes nothing |
| Provisioner.ChannelPaddedDuplicates | octopus/feature-branch.py:265-295 | for a padded branch name, the second run posts another channel of the project, named as given, under a new id |
| Provisioner.ChannelEffectCreates | octopus/feature-branch.py:271-295 | when no channel is found, exactly the drafted channel is added under the next channel id |
| Provisioner.ChannelEffectLog | octopus/feature-branch.py:289-295 | the channel step logs its one creation or nothing |
| Provisioner.ChannelEffectFinds | octopus/feature-branch.py:267-269 | a found channel is returned and nothing changes |
| Provisioner.ChannelFoundOnceCreated | octopus/feature-branch.py:289-295 | the channel just created is what the next lookup finds |
| Targets.WithEnvironment | octopus/feature-branch.py:312-313 | a target gains `env` unless it holds it: same id, name, space and roles, the old list as a prefix, `env` now held, unchanged exactly when it already held `env` |
| Targets.WithEnvironmentNoDuplicates | octopus/feature-branch.py:330-331 | adding never duplicates an environment id |
| Targets.WithEnvironmentIdempotent | octopus/feature-branch.py:352-353 | adding twice is adding once |
| Targets.AssignAllEffect | octopus/feature-branch.py:329-340 | assignment keeps length, order and ids; a chosen machine holds `env` afterwards, keeps its environments in order, gains no duplicate and is untouched if it already held `env`; every other machine is unchanged |
| Targets.AssignAllIdempotent | octopus/feature-branch.py:329-340 | assigning again with the same selection changes nothing |
| Targets.AssignAllIgnoresAssigned | octopus/feature-branch.py:339-340 | choosing machines that already hold `env` makes no difference |
| Targets.FilterAssignAll | octopus/feature-branch.py:237 | filtering then assigning is assigning then filtering, when the filter's verdict is unaffected by gaining `env` |
| Targets.AssignAllPrefix | octopus/feature-branch.py:329 | any prefix of the assigned list is the assigned prefix |
| Targets.Replace | octopus/feature-branch.py:314 | a PUT keeps the length of the machine list |
| Targets.AssignStep | octopus/feature-branch.py:330-336 | one loop pass: PUTting a machine with `env` added, or skipping it when it holds `env`, is choosing one more machine |
| Targets.WithoutEnvironment | octopus/feature-branch.py:511 | the same machine, holding exactly its environments other than `env` |
| Targets.UnassignOne | octopus/feature-branch.py:510-526 | what is left of one machine keeps its id |
| Targets.UnassignAll | octopus/feature-branch.py:509-526 | at most as many machines; no chosen machine left holds `env`; each left machine is an original or an original chosen one without `env`; every machine not chosen or not holding `env` stays; a chosen holder with other environments stays without `env` |
| Targets.UnassignAllNone | octopus/feature-branch.py:509 | unassigning from no machine changes nothing |
| Targets.UnassignAllNoHolders | octopus/feature-branch.py:525-526 | when no chosen machine holds `env` nothing changes |
| Targets.UnassignUndoesAssign | octopus/feature-branch.py:510-514 | on a machine that lacked `env`, removal undoes addition when it held another environment; it is left with nothing exactly when it held none |
| Targets.UnassignAllUndoesAssignAll | octopus/feature-branch.py:509-526 | unassigning the chosen machines after assigning them restores the list, when each lacked `env` and held another environment |
| Targets.UnassignAllIds | octopus/feature-branch.py:509-526 | every machine left carries an original machine's id |
| Targets.UnassignAllDeletes | octopus/feature-branch.py:513-514 | with unique ids a chosen machine whose only environment was `env` is gone |
| Targets.UnassignAllSelectsOnlyHolders | octopus/feature-branch.py:525-526 | choosing one more id changes nothing when no machine with it holds `env` |
| Targets.UnassignAllChosenHolders | octopus/feature-branch.py:509-510 | choosing more ids changes nothing when none of the extra machines holds `env` |
| Targets.UnassignSkipStep | octopus/feature-branch.py:525-526 | a loop pass over a target without `env` leaves the list as it is |
| Targets.UnassignDeleteStep | octopus/feature-branch.py:513-516 | a loop pass deleting a target whose only environment is `env` is choosing one more machine |
| Targets.UnassignPutStep | octopus/feature-branch.py:517-524 | a loop pass PUTting a target without `env` is choosing one more machine |
| Targets.UnassignAsWrittenCrashes | octopus/feature-branch.py:513-514 | as written the loop dies, with the `TypeError` of the one-argument call, exactly when some listed target had `env` as its only environment |
| Targets.SoleEnvironmentTarget | octopus/feature-branch.py:452-514 | a target assigned only to the branch environment: as written the teardown dies on it, with the intended deletion it is removed |
| Assignment.AssignAllKeepsMachine | octopus/feature-branch.py:329-336 | after an assignment each original machine's id and space is still present |
| Assignment.AssignedStep | octopus/feature-branch.py:330-336 | one loop pass on the platform: the machine is still present, and PUTting it with `env` or skipping it extends the finished prefix |
| Assignment.FindTargets | octopus/feature-branch.py:212-223 | no request for a blank space; otherwise one checked GET, an API error when it fails, else the first page of the space's machines |
| Assignment.FindTargetsByRole | octopus/feature-branch.py:226-237 | the same, then only the machines carrying the role, in order |
| Assignment.AssignTargetByName | octopus/feature-branch.py:298-321 | no request for blank arguments; a failure leaves the platform unchanged; with every request answered, the name's target gains `env` when it lacked it |
| Assignment.AssignOne | octopus/feature-branch.py:303-321 | the checked GET of the resolved target and its PUT with `env` appended when it lacks it |
| Assignment.AssignLoop | octopus/feature-branch.py:329-340 | success means every listed target lacking `env` was PUT with it; a failing PUT ends the loop with an API error after a finished prefix of the targets |
| Assignment.HoldingStep | octopus/feature-branch.py:351 | the targets the role+environment loop writes grow by the next target exactly when it holds the existing environment |
| Assignment.HoldersStep | octopus/feature-branch.py:350-362 | one loop pass on the platform: a non-holder is skipped, a holder handled as in the role loop |
| Assignment.AssignHoldersLoop | octopus/feature-branch.py:350-362 | the role+environment loop considers only holders of the existing environment; success or a failure after a finished prefix, as for the role loop |
| Assignment.AssignTargetByRole | octopus/feature-branch.py:324-340 | no request for blank arguments; with every request answered, the assignment effect of the role variant |
| Assignment.AssignTargetByRoleAndEnvironment | octopus/feature-branch.py:343-362 | no request for blank arguments; with every request answered, the effect of the role+environment variant, whose existing environment is resolved unchecked so that an unknown one selects no target |
| Assignment.DeleteTarget | octopus/feature-branch.py:452-460 | nothing for a blank space or id; otherwise one checked DELETE, an API error when it fails |
| Assignment.NotYetHandled | octopus/feature-branch.py:509 | with unique ids the next listed target was not handled by an earlier pass |
| Assignment.UnassignedSkip | octopus/feature-branch.py:525-526 | a target without `env` is skipped and the finished prefix grows |
| Assignment.UnassignedDelete | octopus/feature-branch.py:513-516 | a target whose only environment is `env` is still present and deleting it extends the finished prefix |
| Assignment.UnassignedPut | octopus/feature-branch.py:517-524 | a target holding `env` besides others is still present and PUTting it without `env` extends the finished prefix |
| Assignment.UnassignLoop | octopus/feature-branch.py:509-526 | every listed target holding `env` loses it and one left empty is deleted; a failing write ends the loop with an API error after a finished prefix |
| Assignment.UnassignTarget | octopus/feature-branch.py:499-526 | no request for blank arguments; nothing when the environment is not found; otherwise the unassignment of every listed target, with the emptied-target deletion intended |
| AssignmentFacts.AssignLogWrites | octopus/feature-branch.py:329-336 | the assignment loop PUTs exactly the targets that lacked `env`, one write each |
| AssignmentFacts.UnassignLogWrites | octopus/feature-branch.py:509-524 | the unassignment loop writes exactly the targets holding `env`: a DELETE for one left empty, a PUT for any other |
| AssignmentFacts.ChosenAreTargets | octopus/feature-branch.py:329 | with unique ids a machine is chosen exactly when it is one of the targets |
| AssignmentFacts.AssignedChanges | octopus/feature-branch.py:329-336 | assignment writes back exactly the listed targets, each with `env` added when it lacked it, at its own position; every other machine and every other collection is unchanged |
| AssignmentFacts.UnassignedChanges | octopus/feature-branch.py:509-526 | unassignment keeps every machine that is not a target holding `env`; a holder with other environments stays without `env`; an emptied holder is gone; nothing else changes |
| AssignmentFacts.AssignByRoleSelects | octopus/feature-branch.py:324-340 | `assign_target_by_role` changes only machines of the space carrying the role and lacking `env`, each by adding `env`; every listed machine with the role holds `env` afterwards |
| AssignmentFacts.HoldersSelect | octopus/feature-branch.py:347-362 | what the role+environment variant selects once the existing environment is resolved |
| AssignmentFacts.AssignByRoleAndEnvironmentSelects | octopus/feature-branch.py:343-362 | changes only machines of the space carrying the role, already holding the existing environment and lacking `env` |
| AssignmentFacts.ReassignSettled | octopus/feature-branch.py:329-340 | assigning again the targets an assignment returned changes nothing and writes nothing |
| AssignmentFacts.RoleTargetsAfterAssign | octopus/feature-branch.py:226-237 | on the assigned platform the role variant lists the assigned targets |
| AssignmentFacts.MachineListingAfterAssign | octopus/feature-branch.py:302 | assignment leaves the machines' (id, name) listing as it was |
| AssignmentFacts.AssignByRoleIdempotent | octopus/feature-branch.py:324-340 | a second run on the platform the first left returns the same and changes nothing |
| AssignmentFacts.AssignByNameIdempotent | octopus/feature-branch.py:298-321 | a second run finds the target already holding `env` and changes nothing |
| AssignmentFacts.AssignOneIdempotent | octopus/feature-branch.py:303-321 | the GET and PUT again, on the platform they left: the target already holds `env` |
| AssignmentFacts.MachineByIdAfterAssign | octopus/feature-branch.py:312-314 | after the PUT the lookup by id finds the target holding `env` |
| AssignmentFacts.AssignOneKeepsLookup | octopus/feature-branch.py:302 | assigning one target does not change what a machine name resolves to |
| AssignmentFacts.HoldersAfterAssign | octopus/feature-branch.py:351 | the role+environment filter's verdict on a selected target is unchanged by it gaining `env` |
| AssignmentFacts.AssignByRoleAndEnvironmentIdempotent | octopus/feature-branch.py:343-362 | a second run changes nothing and returns the same |
| AssignmentFacts.UnassignClearsSpace | octopus/feature-branch.py:509-526 | afterwards no listed machine of the space holds `env`, when the space fits in one page |
| AssignmentFacts.UnassignSettled | octopus/feature-branch.py:509-526 | a second unassignment changes nothing and writes nothing, when the space fits in one page |
| AssignmentFacts.SecondPassFindsNoHolder | octopus/feature-branch.py:508-510 | after the first unassignment nothing the second lists holds `env` |
| AssignmentFacts.UnassignIdempotent | octopus/feature-branch.py:499-526 | `unassign_target` is idempotent while the space's machines fit in one page |
| AssignmentFacts.RoleChosenInSpace | octopus/feature-branch.py:226-237 | with unique ids a machine chosen by the role variant belongs to the space |
| AssignmentFacts.SpaceIdsAfterAssign | octopus/feature-branch.py:508 | the ids the unassignment lists after an assignment are the whole space's ids, when they fit in one page |
| AssignmentFacts.UnassignUndoesAssignByRole | octopus/feature-branch.py:324-340 | unassignment undoes `assign_target_by_role` when the environment is new to every machine and each machine of the space holds some other environment |
| Teardown.Known | octopus/feature-branch.py:377-383 | the length of the initial run of deployments whose task the platform knows; the next one has no task |
| Teardown.KnownPrefix | octopus/feature-branch.py:379-381 | every deployment before the first unknown task has a known task |
| Teardown.KnownStep | octopus/feature-branch.py:377-381 | one loop pass extends the known prefix, or ends it |
| Teardown.KnownOfPrefix | octopus/feature-branch.py:377 | the known prefix of a prefix is the known prefix cut to that length |
| Teardown.CancelledStep | octopus/feature-branch.py:383-389 | one pass: the task looks as it did before the loop, and a running task is cancelled and counted |
| Teardown.CancelIfRunning | octopus/feature-branch.py:379-389 | an unknown task is a decoding failure, a running one is cancelled and counted, a completed one is skipped |
| Teardown.CancelLoop | octopus/feature-branch.py:377-390 | with every request answered, the count of running tasks with one cancellation each, or a decoding failure after the known prefix |
| Teardown.CancelTasks | octopus/feature-branch.py:365-391 | `None` and no request for blank arguments; with every request answered, the count and platform of the cancel effect; a failing cancellation raises |
| Teardown.ReleasesDeletedStep | octopus/feature-branch.py:404-408 | the next release is still present and deleting it extends the finished prefix |
| Teardown.ChannelReleasesListed | octopus/feature-branch.py:403 | the channel's releases are releases of the space with unique ids |
| Teardown.ReleasesLoop | octopus/feature-branch.py:404-408 | with every request answered, every listed release is deleted, in order |
| Teardown.DeleteReleases | octopus/feature-branch.py:394-408 | no request for blank arguments; with every request answered, the releases effect |
| Teardown.DeleteChannel | octopus/feature-branch.py:411-421 | no request for blank arguments; with every request answered, the found channel is deleted |
| Teardown.DeleteLifecycle | octopus/feature-branch.py:424-435 | the same for the lifecycle |
| Teardown.DeleteEnvironment | octopus/feature-branch.py:438-449 | the same for the environment |
| TeardownFacts.TaskIds | octopus/feature-branch.py:378 | the task id of each deployment, in order |
| TeardownFacts.PendingAreRunning | octopus/feature-branch.py:383-387 | the loop cancels exactly the tasks of the running deployments, in order |
| TeardownFacts.AllKnown | octopus/feature-branch.py:379-381 | when every deployment has a task the whole list is known |
| TeardownFacts.CancelCountsRunning | octopus/feature-branch.py:365-391 | `None` for blank arguments and 0 without a channel, changing nothing; otherwise, with every task known, the number of running tasks, a cancellation logged for each and nothing else changed; 0 exactly when every task has completed |
| TeardownFacts.PendingSameTasks | octopus/feature-branch.py:383 | which tasks are running depends only on the tasks |
| TeardownFacts.KnownSameTasks | octopus/feature-branch.py:381 | which tasks are known depends only on the tasks |
| TeardownFacts.CancelChangesOnlyLog | octopus/feature-branch.py:365-391 | `cancel_tasks` changes the platform only by the cancellations it logs |
| TeardownFacts.CancelInChannelChangesOnlyLog | octopus/feature-branch.py:372-391 | the same once the channel is found |
| TeardownFacts.CancelledLogs | octopus/feature-branch.py:377-390 | the counting loop adds one cancellation per running task and changes nothing else |
| TeardownFacts.CancelAgainCountsTheSame | octopus/feature-branch.py:551-553 | cancelling is asynchronous: polling again before any task finishes gives the same count |
| TeardownFacts.NoneRunningAfterSleep | octopus/feature-branch.py:551-555 | after a sleep that finished every cancelled task, every deployment's task is known and none is running |
| TeardownFacts.CancelLogNames | octopus/feature-branch.py:386-387 | every cancelled task is named by the cancellation log |
| TeardownFacts.QuietEffect | octopus/feature-branch.py:369-391 | with every task of the channel known and none running, `cancel_tasks` counts 0 and writes nothing |
| TeardownFacts.QuietInChannel | octopus/feature-branch.py:372-391 | the same once the channel is found |
| TeardownFacts.SettlesOnChannel | octopus/feature-branch.py:551-555 | after such a sleep every task is still known and none is running |
| TeardownFacts.SettlesAfterSleep | octopus/feature-branch.py:551-555 | one sleep that finishes the cancelled tasks is enough: the next `cancel_tasks` counts 0 and writes nothing |
| TeardownFacts.SettlesInChannel | octopus/feature-branch.py:372-391 | the same once the channel is found |
| TeardownFacts.ReleasesOfChannelDeleted | octopus/feature-branch.py:394-408 | `delete_releases` deletes exactly the releases of the branch channel, logging one deletion per release in listing order, and changes nothing else |
| TeardownFacts.ReleasesIdempotent | octopus/feature-branch.py:394-408 | a second `delete_releases` deletes nothing |
| TeardownFacts.ChannelDeleted | octopus/feature-branch.py:411-421 | the resolved channel existed and is the only thing deleted; afterwards the lookup no longer finds it |
| TeardownFacts.LifecycleDeleted | octopus/feature-branch.py:424-435 | the same for the lifecycle |
| TeardownFacts.EnvironmentDeleted | octopus/feature-branch.py:438-449 | the same for the environment |
| Orchestrator.Provision | octopus/feature-branch.py:533-536 | with every request answered, the environment, lifecycle and channel steps in order |
| Orchestrator.CreateFeatureBranch | octopus/feature-branch.py:529-543 | one attempt of the create workflow: with every request answered, the create effect |
| Orchestrator.PollTasks | octopus/feature-branch.py:551-555 | with every request answered, the poll's outcome and platform, one modelled sleep per tick |
| Orchestrator.PollOnce | octopus/feature-branch.py:552-555 | one pass: stop with the poll's outcome, or sleep one tick with the rest of the poll unchanged |
| Orchestrator.RemoveResources | octopus/feature-branch.py:557-561 | with every request answered, the deletions in their order |
| Orchestrator.DeleteFeatureBranch | octopus/feature-branch.py:546-561 | one attempt of the delete workflow: with every request answered, the delete effect |
| Orchestrator.Attempt | octopus/feature-branch.py:568-572 | `create` runs the create workflow and `delete` the delete workflow; any other action makes no request and changes nothing |
| Orchestrator.Run | octopus/feature-branch.py:564-572 | nothing for `main` or `master`; at most three attempts, three whenever it gave up; only a decoding failure escapes; with every request answered, the retry effect |
| OrchestratorFacts.PollChangesOnly | octopus/feature-branch.py:551-555 | polling changes the platform only by the cancellations it logs and the tasks that finish during sleeps |
| OrchestratorFacts.BlankNeverSettles | octopus/feature-branch.py:366-367 | with a blank argument the loop never ends: it is still polling when the ticks run out and cancels nothing |
| OrchestratorFacts.UnresolvedNeverSettles | octopus/feature-branch.py:548-555 | an unresolved space or project, or a blank branch, keeps the workflow polling and deleting nothing |
| OrchestratorFacts.ZeroCountChangesNothing | octopus/feature-branch.py:553 | a count of 0 means nothing was cancelled |
| OrchestratorFacts.SettledIsQuiet | octopus/feature-branch.py:553-554 | the loop ends only on a count of exactly 0, and on the platform it leaves `cancel_tasks` would count 0 again and change nothing |
| OrchestratorFacts.PollSettlesAfterOneSleep | octopus/feature-branch.py:551-555 | one sleep that finishes every cancelled task ends the loop at the second poll |
| OrchestratorFacts.PollAppends | octopus/feature-branch.py:551-555 | the poll writes only cancellations |
| OrchestratorFacts.ReleasesAppends | octopus/feature-branch.py:557 | `delete_releases` writes only release deletions |
| OrchestratorFacts.ChannelDeleteAppends | octopus/feature-branch.py:558 | `delete_channel` writes only a channel deletion |
| OrchestratorFacts.LifecycleDeleteAppends | octopus/feature-branch.py:559 | `delete_lifecycle` writes only a lifecycle deletion |
| OrchestratorFacts.UnassignAppends | octopus/feature-branch.py:560 | `unassign_target` writes only target updates and deletions |
| OrchestratorFacts.EnvironmentDeleteAppends | octopus/feature-branch.py:561 | `delete_environment` writes only an environment deletion |
| OrchestratorFacts.RemoveOrdered | octopus/feature-branch.py:557-561 | the deletions after the poll write in their fixed order |
| OrchestratorFacts.RemoveSpaceOrdered | octopus/feature-branch.py:559-561 | the lifecycle, target and environment writes come in that order |
| OrchestratorFacts.TeardownOrdered | octopus/feature-branch.py:546-561 | whatever its outcome, `delete_feature_branch` writes every cancellation before any deletion, then releases, channel, lifecycle, targets and the environment last |
| OrchestratorFacts.DeleteInProjectOrdered | octopus/feature-branch.py:551-561 | the same once the space and project are resolved |
| OrchestratorFacts.EnvironmentAppends | octopus/feature-branch.py:533 | `create_environment` writes only an environment creation |
| OrchestratorFacts.LifecycleAppends | octopus/feature-branch.py:534 | `create_lifecycle` writes only a lifecycle creation |
| OrchestratorFacts.ChannelAppends | octopus/feature-branch.py:535-536 | `create_channel` writes only a channel creation |
| OrchestratorFacts.AssignAppends | octopus/feature-branch.py:537-543 | the assignment step writes only target updates |
| OrchestratorFacts.CreateOrdered | octopus/feature-branch.py:529-543 | whatever its outcome, `create_feature_branch` writes the environment, then the lifecycle, the channel and the targets |
| OrchestratorFacts.CreateInProjectOrdered | octopus/feature-branch.py:533-543 | the same once the space and project are resolved |
| OrchestratorFacts.ProvisionOrdered | octopus/feature-branch.py:533-536 | the environment, lifecycle and channel writes come in that order |
| OrchestratorFacts.NamePrecedence | octopus/feature-branch.py:537-543 | with a target name given, the target role and target environment make no difference |
| OrchestratorFacts.NamePrecedenceInProject | octopus/feature-branch.py:537-543 | the same once the space and project are resolved |
| OrchestratorFacts.NoTargetWithoutNameOrRole | octopus/feature-branch.py:537-541 | without a target name or role the create workflow changes no target |
| OrchestratorFacts.ProvisionKeepsMachines | octopus/feature-branch.py:533-536 | provisioning never changes a target |

## Left out

- Argument parsing (lines 34-66), `build_headers` (69-70) and the module-level startup (575-577): the parsed options are the `Orchestrator.Args` parameter, and the server URL and API key only address the platform.
- HTTP transport and JSON encoding: each request is a store method; a falsy response is a request number in `failing`.
- The `sys.stderr.write` diagnostics: they change nothing the script later reads.
- `time.sleep(10)` (555): modelled as `Server.Store.Elapse` with the set of tasks the platform finishes meanwhile.
- The retry policy's wall-clock `stop_after_delay(60)` and its 0.4 s wait (18-23): only the three-attempt bound is modelled, because time is not.
- `get_resource` (117-125): nothing in the script calls it.
- `unassign_target_by_name` (463-496): nothing in the script calls it, and its test at 482 is inverted, so the filter at 483 can never remove anything.
- Server-side cascades (deleting a channel or a project's releases on the server's own initiative): the platform changes only by the requests the script sends and by tasks finishing.
- The server's `partialName` search is modelled as case-sensitive substring containment; the server may fold case.
- Fresh ids are deterministic (`Server.FreshId`): the server's real numbering is not known to the script.
- Only the first page (`take=1000`) of each listing is modelled; the default page size of the unpaged GETs (373, 401) is not, and those listings are taken whole.
- EnvironmentIdempotent (Provisioner.EnvironmentIdempotent): holds only for a branch name without surrounding whitespace, and only while the partial-name matches leave room in one page. The script posts the name as given but searches for it stripped, so for a padded name every run creates another environment (Provisioner.EnvironmentPaddedDuplicates). Past one page the lookup cannot see the created item.
- LifecycleIdempotent (Provisioner.LifecycleIdempotent): the same two conditions, for the same reasons; for a padded name every run creates another lifecycle (Provisioner.LifecyclePaddedDuplicates).
- ChannelIdempotent (Provisioner.ChannelIdempotent): the same two conditions, for the same reasons; for a padded name every run creates another channel (Provisioner.ChannelPaddedDuplicates).
- AssignmentFacts.UnassignIdempotent: holds only while the space's machines fit in one page; the same bound applies to AssignmentFacts.UnassignClearsSpace and AssignmentFacts.UnassignSettled.
- Orchestrator.CreateFeatureBranch: when some request fails, the contract states only that the platform stays well-formed; the exact state left is stated step by step (for example by `Assignment.AssignLoop`) but not composed for the whole workflow. The same holds for Orchestrator.DeleteFeatureBranch and Orchestrator.Run.
- Idempotence of the whole create workflow (running `create` twice) is not stated as one lemma; it is stated for each of its steps.

## Findings

| source | as written | input that shows it | evidently intended | confidence | as-written member | corrected member |
|---|---|---|---|---|---|---|
| octopus/feature-branch.py:514 | `delete_target(target["Id"])` passes one argument to the two-parameter `delete_target(space_id, target_id)` of line 452, so it raises `TypeError` | a space whose only target `Machines-1` is assigned only to the branch environment `Environments-1`: `delete` dies at line 514 | `delete_target(space_id, target["Id"])`, deleting the emptied target | not executed | Targets.UnassignAsWrittenCrashes | Assignment.UnassignTarget |
