/** Tearing a branch down: cancelling the tasks of its deployments (`cancel_tasks`) and deleting
    its releases, channel, lifecycle and environment (`delete_releases`, `delete_channel`,
    `delete_lifecycle`, `delete_environment`). */
module Teardown {
  import opened Wrappers
  import opened Collections
  import opened Text
  import opened Entities
  import opened Lookup
  import opened Server
  import opened Resolver

  // Cancelling the tasks of the branch channel's deployments.

  /** `not task_json["IsCompleted"]` for the task of deployment `d`, when the platform knows it. */
  predicate Running(p: Platform, space: string, d: Deployment) {
    var t := TaskById(p, space, d.taskId);
    t.Some? && !t.value.isCompleted
  }

  /** The tasks the counting loop cancels, one per deployment whose task is running, in order. */
  function Pending(p: Platform, space: string, ds: seq<Deployment>): seq<string> {
    if ds == [] then []
    else
      var d := ds[|ds| - 1];
      Pending(p, space, ds[..|ds| - 1]) + (if Running(p, space, d) then [d.taskId] else [])
  }

  /** One cancellation per task id, in order. */
  function CancelLog(ids: seq<string>): seq<Write> {
    seq(|ids|, i requires 0 <= i < |ids| => CancelledTask(ids[i]))
  }

  /** The platform after the counting loop went over `ds`: cancelling is only a request, so
      nothing but the log changes. */
  function Cancelled(p: Platform, space: string, ds: seq<Deployment>): Platform {
    p.(log := p.log + CancelLog(Pending(p, space, ds)))
  }

  /** How many deployments, from the start of `ds`, have a task the platform knows: the loop
      fails on the first one that has none. */
  function Known(p: Platform, space: string, ds: seq<Deployment>): (k: nat)
    ensures k <= |ds|
    ensures k < |ds| ==> TaskById(p, space, ds[k].taskId).None?
  {
    if ds == [] || TaskById(p, space, ds[0].taskId).None? then 0
    else
      var k := Known(p, space, ds[1..]);
      assert k < |ds| - 1 ==> ds[1..][k] == ds[k + 1];
      1 + k
  }

  /** Every deployment before the first unknown task has a task the platform knows. */
  lemma {:induction false} KnownPrefix(p: Platform, space: string, ds: seq<Deployment>, i: nat)
    requires i < Known(p, space, ds)
    ensures TaskById(p, space, ds[i].taskId).Some?
  {
    if i > 0 {
      assert ds[1..][i - 1] == ds[i];
      KnownPrefix(p, space, ds[1..], i - 1);
    }
  }

  lemma {:induction false} KnownAppend(p: Platform, space: string, a: seq<Deployment>, b: seq<Deployment>)
    ensures Known(p, space, a + b) == if Known(p, space, a) < |a| then Known(p, space, a) else |a| + Known(p, space, b)
  {
    if a == [] {
      assert a + b == b;
    } else {
      assert (a + b)[0] == a[0] && (a + b)[1..] == a[1..] + b;
      KnownAppend(p, space, a[1..], b);
    }
  }

  /** One pass of the counting loop extends the known prefix, or ends it. */
  lemma KnownStep(p: Platform, space: string, ds: seq<Deployment>, i: nat)
    requires i < |ds| && Known(p, space, ds[..i]) == i
    ensures TaskById(p, space, ds[i].taskId).Some? ==> Known(p, space, ds[..i + 1]) == i + 1
    ensures TaskById(p, space, ds[i].taskId).None? ==> Known(p, space, ds) == i
  {
    KnownOfPrefix(p, space, ds, i);
    KnownOfPrefix(p, space, ds, i + 1);
    if Known(p, space, ds) > i {
      KnownPrefix(p, space, ds, i);
    }
  }

  /** The known prefix of a prefix is the known prefix, cut to that length. */
  lemma KnownOfPrefix(p: Platform, space: string, ds: seq<Deployment>, i: nat)
    requires i <= |ds|
    ensures Known(p, space, ds[..i]) == if Known(p, space, ds) < i then Known(p, space, ds) else i
  {
    assert ds[..i] + ds[i..] == ds;
    KnownAppend(p, space, ds[..i], ds[i..]);
  }

  /** The deployments of the branch channel (line 373). */
  function ChannelDeployments(p: Platform, space: string, project: string, channel: string): seq<Deployment> {
    DeploymentsOf(p.deployments, space, project, channel)
  }

  /** `cancel_tasks` when every request is answered (lines 365-391): `None` for a blank argument,
      0 when the branch has no channel, otherwise the number of running tasks, each cancelled. A
      deployment whose task the platform does not know ends the loop with a decoding failure. */
  function CancelEffect(p: Platform, space: Option<string>, project: Option<string>, branch: Option<string>): (Outcome<Option<nat>>, Platform) {
    if IsBlank(space) || IsBlank(project) || IsBlank(branch) then (Ok(None), p)
    else match ChannelIdOf(p, space, project, branch)
      case Err(f) => (Err(f), p)
      case Ok(None) => (Ok(Some(0)), p)
      case Ok(Some(channel)) => CancelInChannel(p, space.value, project.value, channel)
  }

  /** The listing and the counting loop of `cancel_tasks` (lines 373-391), once the branch
      channel `channel` is found. */
  function CancelInChannel(p: Platform, space: string, project: string, channel: string): (Outcome<Option<nat>>, Platform) {
    if !HasSpace(p, space) then (Err(UndecodableResponse), p)
    else
      var ds := ChannelDeployments(p, space, project, channel);
      var k := Known(p, space, ds);
      if k < |ds| then (Err(UndecodableResponse), Cancelled(p, space, ds[..k]))
      else (Ok(Some(|Pending(p, space, ds)|)), Cancelled(p, space, ds))
  }

  /** One pass of the counting loop: the task is looked up on the platform as the loop found it,
      and a running task is cancelled and counted. */
  lemma CancelledStep(p: Platform, space: string, ds: seq<Deployment>, i: nat)
    requires i < |ds|
    ensures var q, d := Cancelled(p, space, ds[..i]), ds[i];
      && TaskById(q, space, d.taskId) == TaskById(p, space, d.taskId)
      && (Running(p, space, d) ==>
            && NoteCancel(q, d.taskId) == Cancelled(p, space, ds[..i + 1])
            && |Pending(p, space, ds[..i + 1])| == |Pending(p, space, ds[..i])| + 1)
      && (!Running(p, space, d) ==>
            && q == Cancelled(p, space, ds[..i + 1])
            && |Pending(p, space, ds[..i + 1])| == |Pending(p, space, ds[..i])|)
  {
    var d := ds[i];
    assert ds[..i + 1][..i] == ds[..i];
    var before := Pending(p, space, ds[..i]);
    if Running(p, space, d) {
      assert Pending(p, space, ds[..i + 1]) == before + [d.taskId];
      assert CancelLog(before + [d.taskId]) == CancelLog(before) + [CancelledTask(d.taskId)];
    } else {
      assert Pending(p, space, ds[..i + 1]) == before;
    }
  }

  /** One pass of the counting loop (lines 379-389): fetch the deployment's task unchecked and,
      when it has not completed, ask for its cancellation; `Ok(true)` when a task was cancelled. */
  method CancelIfRunning(store: Store, space: string, d: Deployment) returns (r: Outcome<bool>)
    requires store.Valid()
    modifies store`requests, store`unanswered, store`log
    ensures store.Valid()
    ensures old(store.unanswered) <= store.unanswered && (store.unanswered != old(store.unanswered) ==> r.Err?)
    ensures var p := old(store.Data());
      store.unanswered == old(store.unanswered) ==>
        && (TaskById(p, space, d.taskId).None? ==> r == Err(UndecodableResponse) && store.Data() == p)
        && (Running(p, space, d) ==> r == Ok(true) && store.Data() == NoteCancel(p, d.taskId))
        && (TaskById(p, space, d.taskId).Some? && !Running(p, space, d) ==> r == Ok(false) && store.Data() == p)
  {
    var task := store.GetTask(space, d.taskId);
    if task.None? {
      return Err(UndecodableResponse);
    }
    if task.value.isCompleted {
      return Ok(false);
    }
    var ok := store.CancelTask(space, d.taskId);
    r := if ok then Ok(true) else Err(ApiError);
  }

  /** The counting loop of `cancel_tasks` (lines 378-389): every deployment's task is fetched
      unchecked, and each one that has not completed is counted and cancelled. */
  method CancelLoop(store: Store, space: string, ds: seq<Deployment>) returns (r: Outcome<nat>)
    requires store.Valid()
    modifies store`requests, store`unanswered, store`log
    ensures store.Valid()
    ensures old(store.unanswered) <= store.unanswered && (store.unanswered != old(store.unanswered) ==> r.Err?)
    ensures var p, k := old(store.Data()), Known(old(store.Data()), space, ds);
      store.unanswered == old(store.unanswered) ==>
        && (k < |ds| ==> r == Err(UndecodableResponse) && store.Data() == Cancelled(p, space, ds[..k]))
        && (k == |ds| ==> r == Ok(|Pending(p, space, ds)|) && store.Data() == Cancelled(p, space, ds))
  {
    ghost var p := store.Data();
    assert Cancelled(p, space, ds[..0]) == p;
    var count := 0;
    for i := 0 to |ds|
      invariant store.Valid() && store.unanswered == old(store.unanswered)
      invariant store.Data() == Cancelled(p, space, ds[..i])
      invariant count == |Pending(p, space, ds[..i])|
      invariant Known(p, space, ds[..i]) == i
    {
      CancelledStep(p, space, ds, i);
      KnownStep(p, space, ds, i);
      var cancelled := CancelIfRunning(store, space, ds[i]);
      if cancelled.Err? {
        return Err(cancelled.failure);
      }
      if cancelled.value {
        count := count + 1;
      }
    }
    assert ds[..|ds|] == ds;
    r := Ok(count);
  }

  /** `cancel_tasks`. The channel lookup, the deployment listing and each task fetch are
      unchecked; a cancellation that is not answered raises `OctopusApiError`. */
  method CancelTasks(store: Store, space: Option<string>, project: Option<string>, branch: Option<string>) returns (r: Outcome<Option<nat>>)
    requires store.Valid()
    modifies store`requests, store`unanswered, store`log
    ensures store.Valid()
    ensures IsBlank(space) || IsBlank(project) || IsBlank(branch) ==> r == Ok(None) && store.requests == old(store.requests)
    ensures old(store.unanswered) <= store.unanswered && (store.unanswered != old(store.unanswered) ==> r.Err?)
    ensures store.unanswered == old(store.unanswered) ==>
      (r, store.Data()) == CancelEffect(old(store.Data()), space, project, branch)
  {
    if IsBlank(space) || IsBlank(project) || IsBlank(branch) {
      return Ok(None);
    }
    var channel := FindChannel(store, space, project, branch);
    if channel.Err? {
      return Err(channel.failure);
    }
    if channel.value.None? {
      return Ok(Some(0));
    }
    var listed := store.ListDeployments(space.value, project.value, channel.value.value);
    if listed.None? {
      return Err(UndecodableResponse);
    }
    assert listed.value == ChannelDeployments(store.Data(), space.value, project.value, channel.value.value);
    var counted := CancelLoop(store, space.value, listed.value);
    if counted.Err? {
      return Err(counted.failure);
    }
    r := Ok(Some(counted.value));
  }

  // Deleting the releases of the branch channel.

  /** `[a for a in json["Items"] if a["ChannelId"] == channel_id]` over the project's releases
      (line 403). */
  function ChannelReleases(p: Platform, space: string, project: string, channel: string): seq<Release> {
    Filter(ReleasesOf(p.releases, space, project), (x: Release) => x.channelId == channel)
  }

  function ReleaseIds(rs: seq<Release>): set<string> {
    set x | x in rs :: x.id
  }

  /** One release deletion per release, in order. */
  function ReleaseLog(rs: seq<Release>): seq<Write> {
    seq(|rs|, i requires 0 <= i < |rs| => DeletedRelease(rs[i].id))
  }

  /** The platform after the deletion loop went over `rs`. */
  function ReleasesDeleted(p: Platform, rs: seq<Release>): Platform {
    p.(releases := Filter(p.releases, (x: Release) => x.id !in ReleaseIds(rs)), log := p.log + ReleaseLog(rs))
  }

  /** `delete_releases` when every request is answered (lines 394-407): every release of the
      branch channel is deleted, in listing order. */
  function ReleasesEffect(p: Platform, space: Option<string>, project: Option<string>, branch: Option<string>): (Outcome<()>, Platform) {
    if IsBlank(space) || IsBlank(project) || IsBlank(branch) then (Ok(()), p)
    else match ChannelIdOf(p, space, project, branch)
      case Err(f) => (Err(f), p)
      case Ok(None) => (Ok(()), p)
      case Ok(Some(channel)) => (Ok(()), ReleasesDeleted(p, ChannelReleases(p, space.value, project.value, channel)))
  }

  lemma ReleasesDeletedNothing(p: Platform)
    ensures ReleasesDeleted(p, []) == p
  {
    FilterKeepsAll(p.releases, (x: Release) => x.id !in ReleaseIds([]));
  }

  lemma NotDeletedYet(rs: seq<Release>, i: nat)
    requires UniqueBy(rs, ReleaseKey) && i < |rs|
    ensures rs[i].id !in ReleaseIds(rs[..i])
  {
    forall x | x in rs[..i] ensures x.id != rs[i].id {
      var k :| 0 <= k < i && rs[..i][k] == x;
      assert ReleaseKey(rs[k]) != ReleaseKey(rs[i]);
    }
  }

  lemma ReleaseLogStep(rs: seq<Release>, i: nat)
    requires i < |rs|
    ensures ReleaseIds(rs[..i + 1]) == ReleaseIds(rs[..i]) + {rs[i].id}
    ensures ReleaseLog(rs[..i + 1]) == ReleaseLog(rs[..i]) + [DeletedRelease(rs[i].id)]
  {
    assert rs[..i + 1] == rs[..i] + [rs[i]];
  }

  /** One pass of the deletion loop: the next release is still there, and deleting it extends the
      finished prefix by one. */
  lemma ReleasesDeletedStep(p: Platform, rs: seq<Release>, i: nat, space: string)
    requires UniqueBy(rs, ReleaseKey) && i < |rs| && rs[i] in p.releases && rs[i].spaceId == space
    ensures var q := ReleasesDeleted(p, rs[..i]);
      && HasRelease(q, space, rs[i].id)
      && DropRelease(q, rs[i].id) == ReleasesDeleted(p, rs[..i + 1])
  {
    var q := ReleasesDeleted(p, rs[..i]);
    NotDeletedYet(rs, i);
    assert HasRelease(q, space, rs[i].id) by {
      assert rs[i] in q.releases;
    }
    assert DropRelease(q, rs[i].id).releases == ReleasesDeleted(p, rs[..i + 1]).releases by {
      ReleaseLogStep(rs, i);
      WithoutKeyAfterFilter(p.releases, (x: Release) => x.id !in ReleaseIds(rs[..i]), ReleaseKey, rs[i].id,
        (x: Release) => x.id !in ReleaseIds(rs[..i + 1]));
    }
    assert DropRelease(q, rs[i].id).log == ReleasesDeleted(p, rs[..i + 1]).log by {
      ReleaseLogStep(rs, i);
    }
  }

  /** The channel's releases are releases of the space, with unique ids. */
  lemma ChannelReleasesListed(p: Platform, space: string, project: string, channel: string)
    requires UniqueBy(p.releases, ReleaseKey)
    ensures var rs := ChannelReleases(p, space, project, channel);
      && UniqueBy(rs, ReleaseKey)
      && forall x :: x in rs ==> x in p.releases && x.spaceId == space && x.projectId == project && x.channelId == channel
  {
    var all := ReleasesOf(p.releases, space, project);
    FilterUnique(p.releases, (r: Release) => r.spaceId == space && r.projectId == project, ReleaseKey);
    FilterUnique(all, (x: Release) => x.channelId == channel, ReleaseKey);
  }

  /** The deletion loop of `delete_releases` (lines 404-407): one checked DELETE per release. */
  method ReleasesLoop(store: Store, space: string, rs: seq<Release>) returns (r: Outcome<()>)
    requires store.Valid() && UniqueBy(rs, ReleaseKey)
    requires forall x :: x in rs ==> x in store.releases && x.spaceId == space
    modifies store`requests, store`unanswered, store`releases, store`log
    ensures store.Valid() && old(store.unanswered) <= store.unanswered
    ensures store.unanswered == old(store.unanswered) ==> r == Ok(()) && store.Data() == ReleasesDeleted(old(store.Data()), rs)
  {
    ghost var p := store.Data();
    ReleasesDeletedNothing(p);
    assert rs[..0] == [];
    for i := 0 to |rs|
      invariant store.Valid() && store.unanswered == old(store.unanswered)
      invariant store.Data() == ReleasesDeleted(p, rs[..i])
    {
      assert rs[i] in rs;
      ReleasesDeletedStep(p, rs, i, space);
      var ok := store.DeleteRelease(space, rs[i].id);
      if !ok {
        return Err(ApiError);
      }
    }
    assert rs[..|rs|] == rs;
    r := Ok(());
  }

  /** `delete_releases`. It finds the channel and lists the project's releases unchecked, then
      deletes the channel's releases one by one. */
  method DeleteReleases(store: Store, space: Option<string>, project: Option<string>, branch: Option<string>) returns (r: Outcome<()>)
    requires store.Valid()
    modifies store`requests, store`unanswered, store`releases, store`log
    ensures store.Valid() && old(store.unanswered) <= store.unanswered
    ensures IsBlank(space) || IsBlank(project) || IsBlank(branch) ==> r == Ok(()) && store.requests == old(store.requests)
    ensures store.unanswered == old(store.unanswered) ==>
      (r, store.Data()) == ReleasesEffect(old(store.Data()), space, project, branch)
  {
    if IsBlank(space) || IsBlank(project) || IsBlank(branch) {
      return Ok(());
    }
    var channel := FindChannel(store, space, project, branch);
    if channel.Err? {
      return Err(channel.failure);
    }
    if channel.value.None? {
      return Ok(());
    }
    var listed := store.ListReleases(space.value, project.value);
    if listed.None? {
      return Err(UndecodableResponse);
    }
    var rs := Filter(listed.value, (x: Release) => x.channelId == channel.value.value);
    assert rs == ChannelReleases(store.Data(), space.value, project.value, channel.value.value);
    ChannelReleasesListed(store.Data(), space.value, project.value, channel.value.value);
    r := ReleasesLoop(store, space.value, rs);
  }

  // Deleting the channel, the lifecycle and the environment.

  /** `delete_channel` when every request is answered (lines 411-421): the channel the branch
      name resolves to is deleted. */
  function ChannelDeleteEffect(p: Platform, space: Option<string>, project: Option<string>, branch: Option<string>): (Outcome<()>, Platform) {
    if IsBlank(space) || IsBlank(project) || IsBlank(branch) then (Ok(()), p)
    else ChannelFoundEffect(p, ChannelIdOf(p, space, project, branch))
  }

  /** What `delete_channel` does with the lookup's answer: a failed lookup is passed on, a
      missing channel is not an error, a found one is deleted. */
  function ChannelFoundEffect(p: Platform, found: Outcome<Option<string>>): (Outcome<()>, Platform) {
    match found
    case Err(f) => (Err(f), p)
    case Ok(None) => (Ok(()), p)
    case Ok(Some(channel)) => (Ok(()), DropChannel(p, channel))
  }

  /** `delete_channel`. */
  method DeleteChannel(store: Store, space: Option<string>, project: Option<string>, branch: Option<string>) returns (r: Outcome<()>)
    requires store.Valid()
    modifies store`requests, store`unanswered, store`channels, store`log
    ensures store.Valid() && old(store.unanswered) <= store.unanswered
    ensures IsBlank(space) || IsBlank(project) || IsBlank(branch) ==> r == Ok(()) && store.requests == old(store.requests)
    ensures store.unanswered == old(store.unanswered) ==>
      (r, store.Data()) == ChannelDeleteEffect(old(store.Data()), space, project, branch)
  {
    if IsBlank(space) || IsBlank(project) || IsBlank(branch) {
      return Ok(());
    }
    var channel := FindChannel(store, space, project, branch);
    if channel.Err? {
      return Err(channel.failure);
    }
    if channel.value.None? {
      return Ok(());
    }
    ChannelIdNamesChannel(store.Data(), space, project, branch);
    var ok := store.DeleteChannel(space.value, project.value, channel.value.value);
    if !ok {
      return Err(ApiError);
    }
    r := Ok(());
  }

  /** `delete_lifecycle` when every request is answered (lines 424-435). */
  function LifecycleDeleteEffect(p: Platform, space: Option<string>, branch: Option<string>): (Outcome<()>, Platform) {
    if IsBlank(space) || IsBlank(branch) then (Ok(()), p)
    else LifecycleFoundEffect(p, ResourceIdOf(p, space, Lifecycles, branch))
  }

  /** What `delete_lifecycle` does with the lookup's answer. */
  function LifecycleFoundEffect(p: Platform, found: Outcome<Option<string>>): (Outcome<()>, Platform) {
    match found
    case Err(f) => (Err(f), p)
    case Ok(None) => (Ok(()), p)
    case Ok(Some(id)) => (Ok(()), DropLifecycle(p, id))
  }

  /** `delete_lifecycle`. */
  method DeleteLifecycle(store: Store, space: Option<string>, branch: Option<string>) returns (r: Outcome<()>)
    requires store.Valid()
    modifies store`requests, store`unanswered, store`lifecycles, store`log
    ensures store.Valid() && old(store.unanswered) <= store.unanswered
    ensures IsBlank(space) || IsBlank(branch) ==> r == Ok(()) && store.requests == old(store.requests)
    ensures store.unanswered == old(store.unanswered) ==>
      (r, store.Data()) == LifecycleDeleteEffect(old(store.Data()), space, branch)
  {
    if IsBlank(space) || IsBlank(branch) {
      return Ok(());
    }
    var found := GetResourceId(store, space, Lifecycles, branch);
    if found.Err? {
      return Err(found.failure);
    }
    if found.value.None? {
      return Ok(());
    }
    ResourceIdNamesResource(store.Data(), space, Lifecycles, branch);
    var ok := store.DeleteLifecycle(space.value, found.value.value);
    if !ok {
      return Err(ApiError);
    }
    r := Ok(());
  }

  /** `delete_environment` when every request is answered (lines 438-449). */
  function EnvironmentDeleteEffect(p: Platform, space: Option<string>, branch: Option<string>): (Outcome<()>, Platform) {
    if IsBlank(space) || IsBlank(branch) then (Ok(()), p)
    else EnvironmentFoundEffect(p, ResourceIdOf(p, space, Environments, branch))
  }

  /** What `delete_environment` does with the lookup's answer. */
  function EnvironmentFoundEffect(p: Platform, found: Outcome<Option<string>>): (Outcome<()>, Platform) {
    match found
    case Err(f) => (Err(f), p)
    case Ok(None) => (Ok(()), p)
    case Ok(Some(id)) => (Ok(()), DropEnvironment(p, id))
  }

  /** `delete_environment`. */
  method DeleteEnvironment(store: Store, space: Option<string>, branch: Option<string>) returns (r: Outcome<()>)
    requires store.Valid()
    modifies store`requests, store`unanswered, store`environments, store`log
    ensures store.Valid() && old(store.unanswered) <= store.unanswered
    ensures IsBlank(space) || IsBlank(branch) ==> r == Ok(()) && store.requests == old(store.requests)
    ensures store.unanswered == old(store.unanswered) ==>
      (r, store.Data()) == EnvironmentDeleteEffect(old(store.Data()), space, branch)
  {
    if IsBlank(space) || IsBlank(branch) {
      return Ok(());
    }
    var found := GetResourceId(store, space, Environments, branch);
    if found.Err? {
      return Err(found.failure);
    }
    if found.value.None? {
      return Ok(());
    }
    ResourceIdNamesResource(store.Data(), space, Environments, branch);
    var ok := store.DeleteEnvironment(space.value, found.value.value);
    if !ok {
      return Err(ApiError);
    }
    r := Ok(());
  }
}
