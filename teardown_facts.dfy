/** What the teardown steps promise: `cancel_tasks` counts and cancels exactly the running tasks
    of the branch channel, cancelling alone completes nothing, and each deletion removes exactly
    the branch's resources. */
module TeardownFacts {
  import opened Wrappers
  import opened Collections
  import opened Text
  import opened Entities
  import opened Lookup
  import opened Server
  import opened Resolver
  import opened Teardown

  /** The task ids of a list of deployments, in order. */
  function TaskIds(ds: seq<Deployment>): (r: seq<string>)
    ensures |r| == |ds| && forall i :: 0 <= i < |ds| ==> r[i] == ds[i].taskId
  {
    seq(|ds|, i requires 0 <= i < |ds| => ds[i].taskId)
  }

  lemma TaskIdsAppend(a: seq<Deployment>, b: seq<Deployment>)
    ensures TaskIds(a + b) == TaskIds(a) + TaskIds(b)
  {
  }

  /** The deployments whose task has not completed, in order. */
  function RunningIn(p: Platform, space: string, ds: seq<Deployment>): seq<Deployment> {
    Filter(ds, (d: Deployment) => Running(p, space, d))
  }

  /** The counting loop cancels the tasks of exactly the running deployments, in deployment order. */
  lemma {:induction false} PendingAreRunning(p: Platform, space: string, ds: seq<Deployment>)
    ensures Pending(p, space, ds) == TaskIds(RunningIn(p, space, ds))
  {
    if ds != [] {
      var init, last := ds[..|ds| - 1], ds[|ds| - 1];
      var tail := if Running(p, space, last) then [last] else [];
      FrontLast(ds);
      RunningInLast(p, space, init, last);
      PendingAreRunning(p, space, init);
      TaskIdsAppend(RunningIn(p, space, init), tail);
      assert TaskIds(tail) == if Running(p, space, last) then [last.taskId] else [];
    }
  }

  lemma RunningInLast(p: Platform, space: string, init: seq<Deployment>, last: Deployment)
    ensures RunningIn(p, space, init + [last]) == RunningIn(p, space, init) + if Running(p, space, last) then [last] else []
  {
    FilterAppend(init, [last], (d: Deployment) => Running(p, space, d));
    assert [last][1..] == [];
  }

  lemma AllKnown(p: Platform, space: string, ds: seq<Deployment>)
    requires forall d :: d in ds ==> TaskById(p, space, d.taskId).Some?
    ensures Known(p, space, ds) == |ds|
  {
  }

  /** `cancel_tasks` returns `None` for a blank argument and 0 when the branch has no channel,
      changing nothing. Otherwise, when every deployment of the channel has a task, it returns the
      number of deployments whose task has not completed, logs one cancellation per such task and
      changes nothing else; the count is 0 exactly when every task has completed. */
  lemma CancelCountsRunning(p: Platform, space: Option<string>, project: Option<string>, branch: Option<string>)
    ensures IsBlank(space) || IsBlank(project) || IsBlank(branch) ==> CancelEffect(p, space, project, branch) == (Ok(None), p)
    ensures !(IsBlank(space) || IsBlank(project) || IsBlank(branch)) && ChannelIdOf(p, space, project, branch) == Ok(None) ==>
      CancelEffect(p, space, project, branch) == (Ok(Some(0)), p)
    ensures !(IsBlank(space) || IsBlank(project) || IsBlank(branch)) && HasSpace(p, space.value) ==>
      forall channel :: ChannelIdOf(p, space, project, branch) == Ok(Some(channel)) ==>
        var ds := ChannelDeployments(p, space.value, project.value, channel);
        var running := RunningIn(p, space.value, ds);
        var (r, q) := CancelEffect(p, space, project, branch);
        (forall d :: d in ds ==> TaskById(p, space.value, d.taskId).Some?) ==>
          && r == Ok(Some(|running|))
          && q == p.(log := p.log + CancelLog(TaskIds(running)))
          && (r == Ok(Some(0)) <==> forall d :: d in ds ==> TaskById(p, space.value, d.taskId).value.isCompleted)
  {
    if !(IsBlank(space) || IsBlank(project) || IsBlank(branch)) && HasSpace(p, space.value) {
      forall channel | ChannelIdOf(p, space, project, branch) == Ok(Some(channel))
        ensures var ds := ChannelDeployments(p, space.value, project.value, channel);
          var running := RunningIn(p, space.value, ds);
          var (r, q) := CancelEffect(p, space, project, branch);
          (forall d :: d in ds ==> TaskById(p, space.value, d.taskId).Some?) ==>
            && r == Ok(Some(|running|))
            && q == p.(log := p.log + CancelLog(TaskIds(running)))
            && (r == Ok(Some(0)) <==> forall d :: d in ds ==> TaskById(p, space.value, d.taskId).value.isCompleted)
      {
        var ds := ChannelDeployments(p, space.value, project.value, channel);
        var running := RunningIn(p, space.value, ds);
        if forall d :: d in ds ==> TaskById(p, space.value, d.taskId).Some? {
          AllKnown(p, space.value, ds);
          PendingAreRunning(p, space.value, ds);
          if running != [] {
            assert running[0] in running;
          }
        }
      }
    }
  }

  lemma {:induction false} PendingSameTasks(p: Platform, q: Platform, space: string, ds: seq<Deployment>)
    requires p.tasks == q.tasks
    ensures Pending(p, space, ds) == Pending(q, space, ds)
  {
    if ds != [] {
      PendingSameTasks(p, q, space, ds[..|ds| - 1]);
    }
  }

  lemma {:induction false} KnownSameTasks(p: Platform, q: Platform, space: string, ds: seq<Deployment>)
    requires p.tasks == q.tasks
    ensures Known(p, space, ds) == Known(q, space, ds)
  {
    if ds != [] {
      KnownSameTasks(p, q, space, ds[1..]);
    }
  }

  /** The platform `cancel_tasks` leaves differs from the one it found only by the cancellations
      it logged. */
  lemma CancelChangesOnlyLog(p: Platform, space: Option<string>, project: Option<string>, branch: Option<string>)
    ensures var q := CancelEffect(p, space, project, branch).1;
      && q == p.(log := q.log)
      && p.log <= q.log
      && forall w :: w in q.log[|p.log|..] ==> w.CancelledTask?
  {
    if !(IsBlank(space) || IsBlank(project) || IsBlank(branch)) {
      var found := ChannelIdOf(p, space, project, branch);
      if found.Ok? && found.value.Some? {
        CancelInChannelChangesOnlyLog(p, space.value, project.value, found.value.value);
      }
    }
  }

  lemma CancelInChannelChangesOnlyLog(p: Platform, space: string, project: string, channel: string)
    ensures var q := CancelInChannel(p, space, project, channel).1;
      && q == p.(log := q.log)
      && p.log <= q.log
      && forall w :: w in q.log[|p.log|..] ==> w.CancelledTask?
  {
    if HasSpace(p, space) {
      var ds := ChannelDeployments(p, space, project, channel);
      var k := Known(p, space, ds);
      if k < |ds| {
        CancelledLogs(p, space, ds[..k]);
      } else {
        CancelledLogs(p, space, ds);
      }
    }
  }

  /** The counting loop adds one cancellation per running task and changes nothing else. */
  lemma CancelledLogs(p: Platform, space: string, ds: seq<Deployment>)
    ensures var q := Cancelled(p, space, ds);
      && q == p.(log := q.log)
      && p.log <= q.log
      && forall w :: w in q.log[|p.log|..] ==> w.CancelledTask?
  {
    assert Cancelled(p, space, ds).log[|p.log|..] == CancelLog(Pending(p, space, ds));
  }

  /** Cancelling is asynchronous: polling again before any task finishes gives the same count. */
  lemma CancelAgainCountsTheSame(p: Platform, space: Option<string>, project: Option<string>, branch: Option<string>)
    ensures var q := CancelEffect(p, space, project, branch).1;
      CancelEffect(q, space, project, branch).0 == CancelEffect(p, space, project, branch).0
  {
    var q := CancelEffect(p, space, project, branch).1;
    CancelChangesOnlyLog(p, space, project, branch);
    if !(IsBlank(space) || IsBlank(project) || IsBlank(branch)) {
      assert ChannelIdOf(q, space, project, branch) == ChannelIdOf(p, space, project, branch);
      if ChannelIdOf(p, space, project, branch).Ok? && ChannelIdOf(p, space, project, branch).value.Some? {
        var ds := ChannelDeployments(p, space.value, project.value, ChannelIdOf(p, space, project, branch).value.value);
        assert ChannelDeployments(q, space.value, project.value, ChannelIdOf(p, space, project, branch).value.value) == ds;
        PendingSameTasks(p, q, space.value, ds);
        KnownSameTasks(p, q, space.value, ds);
      }
    }
  }

  /** The tasks of the deployments are those the first poll knew; after a sleep in which the
      platform finished every task the poll cancelled, none of them is running. */
  lemma NoneRunningAfterSleep(p: Platform, space: string, ds: seq<Deployment>, finished: set<string>)
    requires forall d :: d in ds ==> TaskById(p, space, d.taskId).Some?
    requires forall id :: id in Pending(p, space, ds) ==> id in finished
    ensures var e := Elapsed(Cancelled(p, space, ds), finished);
      && (forall d :: d in ds ==> TaskById(e, space, d.taskId).Some? && !Running(e, space, d))
      && Pending(e, space, ds) == [] && Known(e, space, ds) == |ds|
  {
    var e := Elapsed(Cancelled(p, space, ds), finished);
    PendingAreRunning(p, space, ds);
    forall d | d in ds ensures TaskById(e, space, d.taskId).Some? && !Running(e, space, d) {
      TaskByIdElapsed(Cancelled(p, space, ds), finished, space, d.taskId);
      if Running(p, space, d) {
        var running := RunningIn(p, space, ds);
        assert d in running;
        var i :| 0 <= i < |running| && running[i] == d;
        assert Pending(p, space, ds)[i] == d.taskId;
      }
    }
    PendingAreRunning(e, space, ds);
    FilterNone(ds, (d: Deployment) => Running(e, space, d));
    AllKnown(e, space, ds);
  }

  /** Every task id of a cancellation log is named by one of its entries. */
  lemma CancelLogNames(ids: seq<string>, finished: set<string>)
    requires forall w :: w in CancelLog(ids) ==> w.id in finished
    ensures forall id :: id in ids ==> id in finished
  {
    forall id | id in ids ensures id in finished {
      var i :| 0 <= i < |ids| && ids[i] == id;
      assert CancelLog(ids)[i] == CancelledTask(id);
    }
  }

  /** With every task of the channel known and none running, `cancel_tasks` counts 0 and writes
      nothing. */
  lemma QuietEffect(e: Platform, space: Option<string>, project: Option<string>, branch: Option<string>, channel: string)
    requires !(IsBlank(space) || IsBlank(project) || IsBlank(branch)) && HasSpace(e, space.value)
    requires ChannelIdOf(e, space, project, branch) == Ok(Some(channel))
    requires var ds := ChannelDeployments(e, space.value, project.value, channel);
      Pending(e, space.value, ds) == [] && Known(e, space.value, ds) == |ds|
    ensures CancelEffect(e, space, project, branch) == (Ok(Some(0)), e)
  {
    assert CancelEffect(e, space, project, branch) == CancelInChannel(e, space.value, project.value, channel);
    QuietInChannel(e, space.value, project.value, channel);
  }

  lemma QuietInChannel(e: Platform, space: string, project: string, channel: string)
    requires HasSpace(e, space)
    requires var ds := ChannelDeployments(e, space, project, channel);
      Pending(e, space, ds) == [] && Known(e, space, ds) == |ds|
    ensures CancelInChannel(e, space, project, channel) == (Ok(Some(0)), e)
  {
    var ds := ChannelDeployments(e, space, project, channel);
    assert Cancelled(e, space, ds) == e by {
      assert CancelLog([]) == [];
      assert e.log + [] == e.log;
    }
  }

  /** After a sleep in which the platform finished every task the first poll cancelled, every
      task of the deployments is still known and none is running. */
  lemma SettlesOnChannel(p: Platform, space: string, ds: seq<Deployment>, finished: set<string>)
    requires Known(p, space, ds) == |ds|
    requires forall w :: w in Cancelled(p, space, ds).log[|p.log|..] ==> w.id in finished
    ensures var e := Elapsed(Cancelled(p, space, ds), finished);
      Pending(e, space, ds) == [] && Known(e, space, ds) == |ds|
  {
    var ids := Pending(p, space, ds);
    assert forall id :: id in ids ==> id in finished by {
      assert Cancelled(p, space, ds).log[|p.log|..] == CancelLog(ids);
      CancelLogNames(ids, finished);
    }
    assert forall d :: d in ds ==> TaskById(p, space, d.taskId).Some? by {
      forall d | d in ds ensures TaskById(p, space, d.taskId).Some? {
        var i :| 0 <= i < |ds| && ds[i] == d;
        KnownPrefix(p, space, ds, i);
      }
    }
    NoneRunningAfterSleep(p, space, ds, finished);
  }

  /** The poll settles after one sleep in which the platform finished every task the first poll
      cancelled: the next `cancel_tasks` counts 0 and writes nothing. */
  lemma SettlesAfterSleep(p: Platform, space: Option<string>, project: Option<string>, branch: Option<string>, finished: set<string>)
    requires CancelEffect(p, space, project, branch).0.Ok? && CancelEffect(p, space, project, branch).0.value.Some?
    requires var q := CancelEffect(p, space, project, branch).1;
      forall w :: w in q.log[|p.log|..] ==> w.id in finished
    ensures var e := Elapsed(CancelEffect(p, space, project, branch).1, finished);
      CancelEffect(e, space, project, branch) == (Ok(Some(0)), e)
  {
    var q := CancelEffect(p, space, project, branch).1;
    var e := Elapsed(q, finished);
    var found := ChannelIdOf(p, space, project, branch);
    CancelChangesOnlyLog(p, space, project, branch);
    assert e.projects == p.projects && e.channels == p.channels;
    ChannelIdSameCatalog(p, e, space, project, branch);
    if found.value.Some? {
      var channel := found.value.value;
      assert CancelEffect(p, space, project, branch) == CancelInChannel(p, space.value, project.value, channel);
      SettlesInChannel(p, space.value, project.value, channel, finished);
      assert CancelEffect(e, space, project, branch) == CancelInChannel(e, space.value, project.value, channel);
    }
  }

  lemma SettlesInChannel(p: Platform, space: string, project: string, channel: string, finished: set<string>)
    requires CancelInChannel(p, space, project, channel).0.Ok?
    requires var q := CancelInChannel(p, space, project, channel).1;
      forall w :: w in q.log[|p.log|..] ==> w.id in finished
    ensures var e := Elapsed(CancelInChannel(p, space, project, channel).1, finished);
      CancelInChannel(e, space, project, channel) == (Ok(Some(0)), e)
  {
    var ds := ChannelDeployments(p, space, project, channel);
    var q := Cancelled(p, space, ds);
    assert CancelInChannel(p, space, project, channel).1 == q;
    SettlesOnChannel(p, space, ds, finished);
    var e := Elapsed(q, finished);
    assert e.spaces == p.spaces && e.deployments == p.deployments;
    QuietInChannel(e, space, project, channel);
  }

  // Deleting the releases.

  lemma ReleaseUnique(rs: seq<Release>, x: Release, y: Release)
    requires UniqueBy(rs, ReleaseKey) && x in rs && y in rs && x.id == y.id
    ensures x == y
  {
    var i :| 0 <= i < |rs| && rs[i] == x;
    var j :| 0 <= j < |rs| && rs[j] == y;
    assert ReleaseKey(rs[i]) == ReleaseKey(rs[j]);
  }

  /** `delete_releases` deletes exactly the releases of the branch channel, logging one deletion
      per release in listing order, and changes nothing else. */
  lemma ReleasesOfChannelDeleted(p: Platform, space: string, project: string, branch: string, channel: string)
    requires UniqueBy(p.releases, ReleaseKey) && IsNotBlank(Some(space)) && IsNotBlank(Some(project)) && IsNotBlank(Some(branch))
    requires ChannelIdOf(p, Some(space), Some(project), Some(branch)) == Ok(Some(channel))
    ensures var (r, q) := ReleasesEffect(p, Some(space), Some(project), Some(branch));
      && r == Ok(())
      && q == p.(releases := q.releases, log := q.log)
      && q.releases == Filter(p.releases, (x: Release) => !(x.spaceId == space && x.projectId == project && x.channelId == channel))
      && q.log == p.log + ReleaseLog(ChannelReleases(p, space, project, channel))
  {
    var rs := ChannelReleases(p, space, project, channel);
    forall x | x in p.releases
      ensures (x.id !in ReleaseIds(rs)) == !(x.spaceId == space && x.projectId == project && x.channelId == channel)
    {
      if x.id in ReleaseIds(rs) {
        var y :| y in rs && y.id == x.id;
        ChannelReleasesListed(p, space, project, channel);
        ReleaseUnique(p.releases, x, y);
      }
    }
    FilterEquivalent(p.releases, (x: Release) => x.id !in ReleaseIds(rs),
      (x: Release) => !(x.spaceId == space && x.projectId == project && x.channelId == channel));
  }

  /** `delete_releases` is idempotent: once the channel's releases are gone a second run deletes
      nothing. */
  lemma ReleasesIdempotent(p: Platform, space: Option<string>, project: Option<string>, branch: Option<string>)
    requires UniqueBy(p.releases, ReleaseKey)
    ensures var out := ReleasesEffect(p, space, project, branch);
      ReleasesEffect(out.1, space, project, branch) == out
  {
    if !(IsBlank(space) || IsBlank(project) || IsBlank(branch)) && ChannelIdOf(p, space, project, branch).Ok?
      && ChannelIdOf(p, space, project, branch).value.Some?
    {
      var channel := ChannelIdOf(p, space, project, branch).value.value;
      ReleasesOfChannelDeleted(p, space.value, project.value, branch.value, channel);
      var q := ReleasesEffect(p, space, project, branch).1;
      assert ChannelIdOf(q, space, project, branch) == ChannelIdOf(p, space, project, branch);
      FilterNone(ReleasesOf(q.releases, space.value, project.value), (x: Release) => x.channelId == channel);
      ReleasesDeletedNothing(q);
    }
  }

  // Deleting the channel, the lifecycle and the environment.

  /** `delete_channel` deletes the channel the branch name resolves to, which exists, and nothing
      else; afterwards the lookup no longer finds it. */
  lemma ChannelDeleted(p: Platform, space: string, project: string, branch: string, channel: string)
    requires IsNotBlank(Some(space)) && IsNotBlank(Some(project)) && IsNotBlank(Some(branch))
    requires ChannelIdOf(p, Some(space), Some(project), Some(branch)) == Ok(Some(channel))
    ensures var (r, q) := ChannelDeleteEffect(p, Some(space), Some(project), Some(branch));
      && r == Ok(())
      && HasChannel(p, space, project, channel)
      && q == p.(channels := q.channels, log := p.log + [DeletedChannel(channel)])
      && (forall x :: x in q.channels <==> x in p.channels && x.id != channel)
      && ChannelIdOf(q, Some(space), Some(project), Some(branch)) != Ok(Some(channel))
  {
    ChannelIdNamesChannel(p, Some(space), Some(project), Some(branch));
    var q := ChannelDeleteEffect(p, Some(space), Some(project), Some(branch)).1;
    if ChannelIdOf(q, Some(space), Some(project), Some(branch)) == Ok(Some(channel)) {
      ChannelIdNamesChannel(q, Some(space), Some(project), Some(branch));
    }
  }

  /** `delete_lifecycle` deletes the lifecycle the branch name resolves to, which exists, and
      nothing else; afterwards the lookup no longer finds it. */
  lemma LifecycleDeleted(p: Platform, space: string, branch: string, id: string)
    requires IsNotBlank(Some(space)) && IsNotBlank(Some(branch))
    requires ResourceIdOf(p, Some(space), Lifecycles, Some(branch)) == Ok(Some(id))
    ensures var (r, q) := LifecycleDeleteEffect(p, Some(space), Some(branch));
      && r == Ok(())
      && HasLifecycle(p, space, id)
      && q == p.(lifecycles := q.lifecycles, log := p.log + [DeletedLifecycle(id)])
      && (forall x :: x in q.lifecycles <==> x in p.lifecycles && x.id != id)
      && ResourceIdOf(q, Some(space), Lifecycles, Some(branch)) != Ok(Some(id))
  {
    ResourceIdNamesResource(p, Some(space), Lifecycles, Some(branch));
    var q := LifecycleDeleteEffect(p, Some(space), Some(branch)).1;
    if ResourceIdOf(q, Some(space), Lifecycles, Some(branch)) == Ok(Some(id)) {
      ResourceIdNamesResource(q, Some(space), Lifecycles, Some(branch));
    }
  }

  /** `delete_environment` deletes the environment the branch name resolves to, which exists,
      and nothing else; afterwards the lookup no longer finds it. */
  lemma EnvironmentDeleted(p: Platform, space: string, branch: string, id: string)
    requires IsNotBlank(Some(space)) && IsNotBlank(Some(branch))
    requires ResourceIdOf(p, Some(space), Environments, Some(branch)) == Ok(Some(id))
    ensures var (r, q) := EnvironmentDeleteEffect(p, Some(space), Some(branch));
      && r == Ok(())
      && HasEnvironment(p, space, id)
      && q == p.(environments := q.environments, log := p.log + [DeletedEnvironment(id)])
      && (forall x :: x in q.environments <==> x in p.environments && x.id != id)
      && ResourceIdOf(q, Some(space), Environments, Some(branch)) != Ok(Some(id))
  {
    ResourceIdNamesResource(p, Some(space), Environments, Some(branch));
    var q := EnvironmentDeleteEffect(p, Some(space), Some(branch)).1;
    if ResourceIdOf(q, Some(space), Environments, Some(branch)) == Ok(Some(id)) {
      ResourceIdNamesResource(q, Some(space), Environments, Some(branch));
    }
  }
}
