/** The two workflows of the script and its entry point: `create_feature_branch`,
    `delete_feature_branch` with its poll loop, the retry policy both are decorated with, and
    `main`. */
module Orchestrator {
  import opened Wrappers
  import opened Text
  import opened Entities
  import opened Server
  import opened Resolver
  import opened Provisioner
  import opened Assignment
  import opened Teardown

  /** The parsed command line (lines 34-66): the required options are strings, the optional ones
      may be absent. The server URL and the API key only address the platform. */
  datatype Args = Args(
    action: string,
    space: string,
    project: string,
    branch: string,
    step: Option<string>,
    package: Option<string>,
    targetName: Option<string>,
    targetRole: Option<string>,
    targetEnvironment: Option<string>)

  /** Branches the script leaves alone (line 10). */
  const IgnoredBranches: seq<string> := ["main", "master"]

  /** How many times the retry policy runs a workflow at most (line 20). */
  const MaxAttempts: nat := 3

  // Creating a branch.

  /** The assignment step of `create_feature_branch` (lines 537-543): a target name takes
      precedence; without one, a blank target environment selects the role-only variant. */
  function AssignEffect(p: Platform, a: Args, space: Option<string>, env: Option<string>): (Outcome<()>, Platform) {
    if IsBlank(a.targetName) then
      if IsBlank(a.targetEnvironment) then AssignByRoleEffect(p, space, env, a.targetRole)
      else AssignByRoleAndEnvironmentEffect(p, space, env, a.targetRole, a.targetEnvironment)
    else AssignByNameEffect(p, space, env, a.targetName)
  }

  /** The environment, lifecycle and channel steps of `create_feature_branch` (lines 532-536),
      returning the environment id the assignment step uses. */
  function ProvisionEffect(p: Platform, a: Args, space: Option<string>, project: Option<string>): (Outcome<Option<string>>, Platform) {
    var (env, p1) := EnvironmentEffect(p, space, Some(a.branch));
    if env.Err? then (env, p1)
    else
      var (lifecycle, p2) := LifecycleEffect(p1, space, env.value, Some(a.branch));
      if lifecycle.Err? then (Err(lifecycle.failure), p2)
      else
        var (channel, p3) := ChannelEffect(p2, space, project, lifecycle.value, a.step, a.package, Some(a.branch));
        if channel.Err? then (Err(channel.failure), p3) else (env, p3)
  }

  /** `create_feature_branch` when every request is answered (lines 529-543). */
  function CreateEffect(p: Platform, a: Args): (Outcome<()>, Platform) {
    var space := SpaceIdOf(p, Some(a.space));
    match ResourceIdOf(p, space, Projects, Some(a.project))
    case Err(f) => (Err(f), p)
    case Ok(project) => CreateInProject(p, a, space, project)
  }

  /** The create workflow once the space and the project are resolved: provision, then assign
      targets to the environment. */
  function CreateInProject(p: Platform, a: Args, space: Option<string>, project: Option<string>): (Outcome<()>, Platform) {
    var (env, q) := ProvisionEffect(p, a, space, project);
    if env.Err? then (Err(env.failure), q) else AssignEffect(q, a, space, env.value)
  }

  method Provision(store: Store, a: Args, space: Option<string>, project: Option<string>) returns (r: Outcome<Option<string>>)
    requires store.Valid()
    modifies store`requests, store`unanswered, store`environments, store`lifecycles, store`channels, store`log
    ensures store.Valid() && old(store.unanswered) <= store.unanswered
    ensures store.unanswered == old(store.unanswered) ==> (r, store.Data()) == ProvisionEffect(old(store.Data()), a, space, project)
  {
    r := CreateEnvironment(store, space, Some(a.branch));
    if r.Err? {
      return;
    }
    var lifecycle := CreateLifecycle(store, space, r.value, Some(a.branch));
    if lifecycle.Err? {
      return Err(lifecycle.failure);
    }
    var channel := CreateChannel(store, space, project, lifecycle.value, a.step, a.package, Some(a.branch));
    if channel.Err? {
      return Err(channel.failure);
    }
  }

  /** `create_feature_branch`, one attempt. */
  method CreateFeatureBranch(store: Store, a: Args) returns (r: Outcome<()>)
    requires store.Valid()
    modifies store`requests, store`unanswered, store`environments, store`lifecycles, store`channels, store`machines, store`log
    ensures store.Valid() && old(store.unanswered) <= store.unanswered
    ensures store.unanswered == old(store.unanswered) ==> (r, store.Data()) == CreateEffect(old(store.Data()), a)
  {
    var space := GetSpaceId(store, Some(a.space));
    if space.Err? {
      return Err(space.failure);
    }
    var project := GetResourceId(store, space.value, Projects, Some(a.project));
    if project.Err? {
      return Err(project.failure);
    }
    var env := Provision(store, a, space.value, project.value);
    if env.Err? {
      return Err(env.failure);
    }
    if IsBlank(a.targetName) {
      if IsBlank(a.targetEnvironment) {
        r := AssignTargetByRole(store, space.value, env.value, a.targetRole);
      } else {
        r := AssignTargetByRoleAndEnvironment(store, space.value, env.value, a.targetRole, a.targetEnvironment);
      }
    } else {
      r := AssignTargetByName(store, space.value, env.value, a.targetName);
    }
  }

  // Deleting a branch.

  /** The poll loop of `delete_feature_branch` (lines 551-555) when every request is answered:
      `cancel_tasks` until it returns exactly 0, sleeping in between. `ticks[i]` holds the tasks
      the platform finishes during the i-th sleep; `Ok(false)` means the loop was still polling
      when the modelled sleeps ran out. */
  function PollEffect(p: Platform, space: Option<string>, project: Option<string>, branch: Option<string>,
                      ticks: seq<set<string>>): (Outcome<bool>, Platform)
    decreases |ticks|
  {
    var (count, q) := CancelEffect(p, space, project, branch);
    if count.Err? then (Err(count.failure), q)
    else if count.value == Some(0) then (Ok(true), q)
    else if ticks == [] then (Ok(false), q)
    else PollEffect(Elapsed(q, ticks[0]), space, project, branch, ticks[1..])
  }

  /** The polling loop of `delete_feature_branch` (lines 551-555), one modelled sleep per tick. */
  method PollTasks(store: Store, space: Option<string>, project: Option<string>, branch: Option<string>,
                   ticks: seq<set<string>>) returns (r: Outcome<bool>)
    requires store.Valid()
    modifies store`requests, store`unanswered, store`log, store`tasks
    ensures store.Valid() && old(store.unanswered) <= store.unanswered
    ensures store.unanswered == old(store.unanswered) ==>
      (r, store.Data()) == PollEffect(old(store.Data()), space, project, branch, ticks)
  {
    var i := 0;
    while true
      invariant i <= |ticks| && store.Valid() && old(store.unanswered) <= store.unanswered
      invariant store.unanswered == old(store.unanswered) ==>
        PollEffect(store.Data(), space, project, branch, ticks[i..]) == PollEffect(old(store.Data()), space, project, branch, ticks)
      decreases |ticks| - i
    {
      var done, result := PollOnce(store, space, project, branch, ticks[i..]);
      if done {
        return result;
      }
      assert ticks[i..][1..] == ticks[i + 1..];
      i := i + 1;
    }
  }

  /** One pass of the polling loop (lines 551-555): cancel; stop on a failure, when nothing is
      left running or when the sleeps have run out; otherwise sleep one tick. */
  method PollOnce(store: Store, space: Option<string>, project: Option<string>, branch: Option<string>,
                  ticks: seq<set<string>>) returns (done: bool, r: Outcome<bool>)
    requires store.Valid()
    modifies store`requests, store`unanswered, store`log, store`tasks
    ensures store.Valid() && old(store.unanswered) <= store.unanswered
    ensures !done ==> ticks != []
    ensures store.unanswered == old(store.unanswered) ==>
      if done then (r, store.Data()) == PollEffect(old(store.Data()), space, project, branch, ticks)
      else PollEffect(store.Data(), space, project, branch, ticks[1..]) == PollEffect(old(store.Data()), space, project, branch, ticks)
  {
    var count := CancelTasks(store, space, project, branch);
    if count.Err? {
      return true, Err(count.failure);
    }
    if count.value == Some(0) {
      return true, Ok(true);
    }
    if ticks == [] {
      return true, Ok(false);
    }
    store.Elapse(ticks[0]);
    return false, Ok(false);
  }

  /** The deletions of `delete_feature_branch` after the poll (lines 557-561), in their order. */
  function RemoveEffect(p: Platform, space: Option<string>, project: Option<string>, branch: Option<string>): (Outcome<()>, Platform) {
    var (r1, p1) := ReleasesEffect(p, space, project, branch);
    if r1.Err? then (r1, p1)
    else
      var (r2, p2) := ChannelDeleteEffect(p1, space, project, branch);
      if r2.Err? then (r2, p2) else RemoveSpaceEffect(p2, space, branch)
  }

  /** The deletions of the branch's space-level resources (lines 559-561): the lifecycle, the
      targets' assignment to the environment, the environment. */
  function RemoveSpaceEffect(p: Platform, space: Option<string>, branch: Option<string>): (Outcome<()>, Platform) {
    var (r3, p3) := LifecycleDeleteEffect(p, space, branch);
    if r3.Err? then (r3, p3)
    else
      var (r4, p4) := UnassignEffect(p3, space, branch);
      if r4.Err? then (r4, p4) else EnvironmentDeleteEffect(p4, space, branch)
  }

  /** `delete_feature_branch` when every request is answered (lines 546-561); `Ok(false)` when it
      was still polling when the modelled sleeps ran out. */
  function DeleteEffect(p: Platform, a: Args, ticks: seq<set<string>>): (Outcome<bool>, Platform) {
    var space := SpaceIdOf(p, Some(a.space));
    match ResourceIdOf(p, space, Projects, Some(a.project))
    case Err(f) => (Err(f), p)
    case Ok(project) => DeleteInProject(p, space, project, Some(a.branch), ticks)
  }

  /** The delete workflow once the space and the project are resolved: poll until the branch's
      deployments are cancelled, then remove its resources. */
  function DeleteInProject(p: Platform, space: Option<string>, project: Option<string>, branch: Option<string>,
                           ticks: seq<set<string>>): (Outcome<bool>, Platform)
  {
    var (settled, q) := PollEffect(p, space, project, branch, ticks);
    if settled.Err? || !settled.value then (settled, q)
    else
      var (removed, t) := RemoveEffect(q, space, project, branch);
      if removed.Err? then (Err(removed.failure), t) else (Ok(true), t)
  }

  method RemoveResources(store: Store, space: Option<string>, project: Option<string>, branch: Option<string>) returns (r: Outcome<()>)
    requires store.Valid()
    modifies store`requests, store`unanswered, store`releases, store`channels, store`lifecycles, store`machines,
      store`environments, store`log
    ensures store.Valid() && old(store.unanswered) <= store.unanswered
    ensures store.unanswered == old(store.unanswered) ==> (r, store.Data()) == RemoveEffect(old(store.Data()), space, project, branch)
  {
    r := DeleteReleases(store, space, project, branch);
    if r.Err? {
      return;
    }
    r := DeleteChannel(store, space, project, branch);
    if r.Err? {
      return;
    }
    r := DeleteLifecycle(store, space, branch);
    if r.Err? {
      return;
    }
    r := UnassignTarget(store, space, branch);
    if r.Err? {
      return;
    }
    r := DeleteEnvironment(store, space, branch);
  }

  /** `delete_feature_branch`, one attempt. */
  method DeleteFeatureBranch(store: Store, a: Args, ticks: seq<set<string>>) returns (r: Outcome<bool>)
    requires store.Valid()
    modifies store`requests, store`unanswered, store`releases, store`channels, store`lifecycles, store`machines,
      store`environments, store`tasks, store`log
    ensures store.Valid() && old(store.unanswered) <= store.unanswered
    ensures store.unanswered == old(store.unanswered) ==> (r, store.Data()) == DeleteEffect(old(store.Data()), a, ticks)
  {
    var space := GetSpaceId(store, Some(a.space));
    if space.Err? {
      return Err(space.failure);
    }
    var project := GetResourceId(store, space.value, Projects, Some(a.project));
    if project.Err? {
      return Err(project.failure);
    }
    r := PollTasks(store, space.value, project.value, Some(a.branch), ticks);
    if r.Err? || !r.value {
      return;
    }
    var removed := RemoveResources(store, space.value, project.value, Some(a.branch));
    if removed.Err? {
      return Err(removed.failure);
    }
  }

  // The retry policy and the entry point.

  /** How a run of the script ends. */
  datatype Verdict =
    | Skipped
    | Completed
    /** The delete workflow was still waiting for tasks when the modelled sleeps ran out. */
    | StillPolling
    /** A failure the retry policy does not match escaped. */
    | Raised(failure: Failure)
    /** Every attempt the policy allows ended in `OctopusApiError`. */
    | GaveUp

  /** The sleeps of the attempt numbered `k`, from the schedule of the whole run. */
  function TicksFor(schedule: seq<seq<set<string>>>, k: nat): seq<set<string>> {
    if k < |schedule| then schedule[k] else []
  }

  /** One attempt of the decorated workflow `main` dispatches to (lines 568-572). */
  function AttemptEffect(p: Platform, a: Args, ticks: seq<set<string>>): (Outcome<bool>, Platform) {
    if a.action == "create" then
      var (r, q) := CreateEffect(p, a);
      (if r.Ok? then Ok(true) else Err(r.failure), q)
    else if a.action == "delete" then DeleteEffect(p, a, ticks)
    else (Ok(true), p)
  }

  /** The retry decorator (lines 18-23) from attempt `k` on, when every request is answered: an
      `OctopusApiError` re-runs the whole workflow on the platform the failed attempt left, until
      three attempts have failed; any other failure escapes at once. */
  function RetryEffect(p: Platform, a: Args, schedule: seq<seq<set<string>>>, k: nat): (Verdict, Platform)
    requires k < MaxAttempts
    decreases MaxAttempts - k
  {
    var (r, q) := AttemptEffect(p, a, TicksFor(schedule, k));
    if r.Ok? then (if r.value then Completed else StillPolling, q)
    else if r.failure != ApiError then (Raised(r.failure), q)
    else if k + 1 == MaxAttempts then (GaveUp, q)
    else RetryEffect(q, a, schedule, k + 1)
  }

  /** `main` when every request is answered (lines 564-572). */
  function RunEffect(p: Platform, a: Args, schedule: seq<seq<set<string>>>): (Verdict, Platform) {
    if a.branch in IgnoredBranches || (a.action != "create" && a.action != "delete") then (Skipped, p)
    else RetryEffect(p, a, schedule, 0)
  }

  method Attempt(store: Store, a: Args, ticks: seq<set<string>>) returns (r: Outcome<bool>)
    requires store.Valid()
    modifies store`requests, store`unanswered, store`releases, store`channels, store`lifecycles, store`machines,
      store`environments, store`tasks, store`log
    ensures store.Valid() && old(store.unanswered) <= store.unanswered
    ensures a.action != "create" && a.action != "delete" ==> r == Ok(true) && store.requests == old(store.requests)
    ensures store.unanswered == old(store.unanswered) ==> (r, store.Data()) == AttemptEffect(old(store.Data()), a, ticks)
  {
    if a.action == "create" {
      var created := CreateFeatureBranch(store, a);
      r := if created.Ok? then Ok(true) else Err(created.failure);
    } else if a.action == "delete" {
      r := DeleteFeatureBranch(store, a, ticks);
    } else {
      r := Ok(true);
    }
  }

  /** `main`: nothing for an ignored branch or an unknown action; otherwise the workflow the action
      names, retried on `OctopusApiError` up to three attempts. `attempts` counts the attempts
      made. */
  method Run(store: Store, a: Args, schedule: seq<seq<set<string>>>) returns (v: Verdict, attempts: nat)
    requires store.Valid()
    modifies store`requests, store`unanswered, store`releases, store`channels, store`lifecycles, store`machines,
      store`environments, store`tasks, store`log
    ensures store.Valid() && old(store.unanswered) <= store.unanswered
    ensures a.branch in IgnoredBranches ==> v == Skipped && attempts == 0 && store.requests == old(store.requests)
    ensures v == Skipped <==> attempts == 0
    ensures attempts <= MaxAttempts && (v == GaveUp ==> attempts == MaxAttempts)
    ensures v.Raised? ==> v.failure == UndecodableResponse
    ensures store.unanswered == old(store.unanswered) ==> (v, store.Data()) == RunEffect(old(store.Data()), a, schedule)
  {
    if a.branch in IgnoredBranches || (a.action != "create" && a.action != "delete") {
      return Skipped, 0;
    }
    attempts := 0;
    while true
      invariant attempts < MaxAttempts && store.Valid() && old(store.unanswered) <= store.unanswered
      invariant store.unanswered == old(store.unanswered) ==>
        RetryEffect(store.Data(), a, schedule, attempts) == RunEffect(old(store.Data()), a, schedule)
      decreases MaxAttempts - attempts
    {
      var r := Attempt(store, a, TicksFor(schedule, attempts));
      attempts := attempts + 1;
      if r.Ok? {
        return if r.value then Completed else StillPolling, attempts;
      }
      if r.failure != ApiError {
        return Raised(r.failure), attempts;
      }
      if attempts == MaxAttempts {
        return GaveUp, attempts;
      }
    }
  }
}
