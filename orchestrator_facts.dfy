/** What the workflows promise: the poll ends only once `cancel_tasks` reports 0, a blank or
    unresolved argument keeps it polling, the writes of each workflow come in its fixed order,
    and a target name takes precedence over a role. */
module OrchestratorFacts {
  import opened Wrappers
  import opened Collections
  import opened Text
  import opened Entities
  import opened Lookup
  import opened Server
  import opened Resolver
  import opened Provisioner
  import opened Assignment
  import opened AssignmentFacts
  import opened Teardown
  import opened TeardownFacts
  import opened Orchestrator

  // Ordered logs.

  /** The ranks of `ws` never decrease. */
  predicate Ordered(ws: seq<Write>, rank: Write -> nat) {
    forall i, j :: 0 <= i < j < |ws| ==> rank(ws[i]) <= rank(ws[j])
  }

  /** `q` extends the log of `p` by writes in rank order, none above rank `k`. */
  predicate OrderedSince(p: Platform, q: Platform, rank: Write -> nat, k: nat) {
    p.log <= q.log && Ordered(q.log[|p.log|..], rank) && forall w :: w in q.log[|p.log|..] ==> rank(w) <= k
  }

  /** `q` extends the log of `p` by writes of rank `k` only. */
  predicate Appends(p: Platform, q: Platform, rank: Write -> nat, k: nat) {
    p.log <= q.log && forall w :: w in q.log[|p.log|..] ==> rank(w) == k
  }

  lemma Chain(p: Platform, q: Platform, r: Platform, rank: Write -> nat, k: nat, next: nat)
    requires OrderedSince(p, q, rank, k) && Appends(q, r, rank, next) && k <= next
    ensures OrderedSince(p, r, rank, next)
  {
    var a, b := q.log[|p.log|..], r.log[|q.log|..];
    assert r.log[|p.log|..] == a + b;
    forall i, j | 0 <= i < j < |a + b| ensures rank((a + b)[i]) <= rank((a + b)[j]) {
      if i < |a| {
        assert (a + b)[i] in a;
      }
      if |a| <= j {
        assert (a + b)[j] in b;
      } else {
        assert (a + b)[j] == a[j];
      }
    }
  }

  /** The order of the teardown writes (lines 551-561): cancellations, then release deletions,
      the channel, the lifecycle, the targets and the environment last. */
  function TeardownRank(w: Write): nat {
    if w.CancelledTask? then 0
    else if w.DeletedRelease? then 1
    else if w.DeletedChannel? then 2
    else if w.DeletedLifecycle? then 3
    else if w.UpdatedMachine? || w.DeletedMachine? then 4
    else if w.DeletedEnvironment? then 5
    else 6
  }

  /** The order of the create writes (lines 532-543): environment, lifecycle, channel, targets. */
  function CreateRank(w: Write): nat {
    if w.CreatedEnvironment? then 0
    else if w.CreatedLifecycle? then 1
    else if w.CreatedChannel? then 2
    else if w.UpdatedMachine? then 3
    else 4
  }

  // The poll.

  /** Polling changes the platform only by the cancellations it logs and the tasks that finish
      while it sleeps. */
  lemma {:induction false} PollChangesOnly(p: Platform, space: Option<string>, project: Option<string>, branch: Option<string>,
                                           ticks: seq<set<string>>)
    ensures var q := PollEffect(p, space, project, branch, ticks).1;
      && q == p.(tasks := q.tasks, log := q.log)
      && p.log <= q.log
      && forall w :: w in q.log[|p.log|..] ==> w.CancelledTask?
    decreases |ticks|
  {
    var (count, q0) := CancelEffect(p, space, project, branch);
    CancelChangesOnlyLog(p, space, project, branch);
    if !(count.Err? || count.value == Some(0) || ticks == []) {
      var e := Elapsed(q0, ticks[0]);
      assert e.log == q0.log;
      PollChangesOnly(e, space, project, branch, ticks[1..]);
      var q := PollEffect(e, space, project, branch, ticks[1..]).1;
      assert PollEffect(p, space, project, branch, ticks).1 == q;
      SuffixJoin(p.log, e.log, q.log);
    }
  }

  /** `cancel_tasks` returns `None` for a blank argument, which is never 0: the loop at lines
      551-555 then polls for as long as it runs, cancelling nothing. */
  lemma {:induction false} BlankNeverSettles(p: Platform, space: Option<string>, project: Option<string>, branch: Option<string>,
                                             ticks: seq<set<string>>)
    requires IsBlank(space) || IsBlank(project) || IsBlank(branch)
    ensures var (r, q) := PollEffect(p, space, project, branch, ticks);
      r == Ok(false) && q == p.(tasks := q.tasks)
    decreases |ticks|
  {
    if ticks != [] {
      BlankNeverSettles(Elapsed(p, ticks[0]), space, project, branch, ticks[1..]);
    }
  }

  /** A space or project name that resolves to nothing, or a blank branch name, keeps
      `delete_feature_branch` polling: it never deletes anything. */
  lemma UnresolvedNeverSettles(p: Platform, a: Args, ticks: seq<set<string>>)
    requires ResourceIdOf(p, SpaceIdOf(p, Some(a.space)), Projects, Some(a.project)) == Ok(None) || IsBlank(Some(a.branch))
    ensures var (r, q) := DeleteEffect(p, a, ticks);
      (ResourceIdOf(p, SpaceIdOf(p, Some(a.space)), Projects, Some(a.project)).Ok? ==> r == Ok(false))
      && q == p.(tasks := q.tasks)
  {
    var space := SpaceIdOf(p, Some(a.space));
    var found := ResourceIdOf(p, space, Projects, Some(a.project));
    if found.Ok? {
      if found == Ok(None) {
        assert IsBlank(found.value);
      }
      BlankNeverSettles(p, space, found.value, Some(a.branch), ticks);
    }
  }

  /** A count of 0 means nothing was cancelled: the platform is unchanged. */
  lemma ZeroCountChangesNothing(p: Platform, space: Option<string>, project: Option<string>, branch: Option<string>)
    requires CancelEffect(p, space, project, branch).0 == Ok(Some(0))
    ensures CancelEffect(p, space, project, branch).1 == p
  {
    if ChannelIdOf(p, space, project, branch).value.Some? {
      var ds := ChannelDeployments(p, space.value, project.value, ChannelIdOf(p, space, project, branch).value.value);
      assert Pending(p, space.value, ds) == [];
      assert CancelLog([]) == [];
      assert p.log + [] == p.log;
    }
  }

  /** The loop ends only on a count of exactly 0 (line 553): on the platform it leaves,
      `cancel_tasks` would again count 0 and change nothing. */
  lemma {:induction false} SettledIsQuiet(p: Platform, space: Option<string>, project: Option<string>, branch: Option<string>,
                                          ticks: seq<set<string>>)
    ensures var (r, q) := PollEffect(p, space, project, branch, ticks);
      r == Ok(true) ==> CancelEffect(q, space, project, branch) == (Ok(Some(0)), q)
    decreases |ticks|
  {
    var (count, q0) := CancelEffect(p, space, project, branch);
    if count == Ok(Some(0)) {
      ZeroCountChangesNothing(p, space, project, branch);
    } else if count.Ok? && ticks != [] {
      SettledIsQuiet(Elapsed(q0, ticks[0]), space, project, branch, ticks[1..]);
    }
  }

  /** One sleep in which the platform finishes every task the first poll cancelled is enough:
      the second poll counts 0 and the loop ends there. */
  lemma PollSettlesAfterOneSleep(p: Platform, space: Option<string>, project: Option<string>, branch: Option<string>,
                                 ticks: seq<set<string>>)
    requires CancelEffect(p, space, project, branch).0.Ok? && CancelEffect(p, space, project, branch).0.value.Some?
    requires ticks != []
    requires var q := CancelEffect(p, space, project, branch).1;
      forall w :: w in q.log[|p.log|..] ==> w.id in ticks[0]
    ensures var (count, q) := CancelEffect(p, space, project, branch);
      && PollEffect(p, space, project, branch, ticks).0 == Ok(true)
      && (count != Ok(Some(0)) ==> PollEffect(p, space, project, branch, ticks).1 == Elapsed(q, ticks[0]))
  {
    var (count, q) := CancelEffect(p, space, project, branch);
    if count != Ok(Some(0)) {
      SettlesAfterSleep(p, space, project, branch, ticks[0]);
    }
  }

  // The order of the writes.

  lemma PollAppends(p: Platform, space: Option<string>, project: Option<string>, branch: Option<string>, ticks: seq<set<string>>)
    ensures Appends(p, PollEffect(p, space, project, branch, ticks).1, TeardownRank, 0)
  {
    PollChangesOnly(p, space, project, branch, ticks);
  }

  /** Adding the writes `ws`, all of rank `k`. */
  lemma AppendsAll(p: Platform, q: Platform, ws: seq<Write>, rank: Write -> nat, k: nat)
    requires q.log == p.log + ws && forall w :: w in ws ==> rank(w) == k
    ensures Appends(p, q, rank, k)
  {
    assert q.log[|p.log|..] == ws;
  }

  /** Adding the one write `w`, of rank `k`. */
  lemma AppendsOne(p: Platform, q: Platform, w: Write, rank: Write -> nat, k: nat)
    requires q.log == p.log + [w] && rank(w) == k
    ensures Appends(p, q, rank, k)
  {
    assert q.log[|p.log|..] == [w];
  }

  lemma ReleasesAppends(p: Platform, space: Option<string>, project: Option<string>, branch: Option<string>)
    ensures Appends(p, ReleasesEffect(p, space, project, branch).1, TeardownRank, 1)
  {
    var found := if IsBlank(space) || IsBlank(project) || IsBlank(branch) then Ok(None) else ChannelIdOf(p, space, project, branch);
    if found.Ok? && found.value.Some? {
      var rs := ChannelReleases(p, space.value, project.value, found.value.value);
      assert ReleasesEffect(p, space, project, branch).1 == ReleasesDeleted(p, rs);
      ReleasesDeletedAppends(p, rs);
    } else {
      assert ReleasesEffect(p, space, project, branch).1 == p;
      AppendsAll(p, p, [], TeardownRank, 1);
    }
  }

  lemma ReleasesDeletedAppends(p: Platform, rs: seq<Release>)
    ensures Appends(p, ReleasesDeleted(p, rs), TeardownRank, 1)
  {
    forall w | w in ReleaseLog(rs) ensures TeardownRank(w) == 1 {
      var i :| 0 <= i < |rs| && ReleaseLog(rs)[i] == w;
    }
    AppendsAll(p, ReleasesDeleted(p, rs), ReleaseLog(rs), TeardownRank, 1);
  }

  lemma ChannelDeleteAppends(p: Platform, space: Option<string>, project: Option<string>, branch: Option<string>)
    ensures Appends(p, ChannelDeleteEffect(p, space, project, branch).1, TeardownRank, 2)
  {
    if IsBlank(space) || IsBlank(project) || IsBlank(branch) {
      AppendsAll(p, p, [], TeardownRank, 2);
    } else {
      ChannelFoundEffectAppends(p, ChannelIdOf(p, space, project, branch));
    }
  }

  lemma ChannelFoundEffectAppends(p: Platform, found: Outcome<Option<string>>)
    ensures Appends(p, ChannelFoundEffect(p, found).1, TeardownRank, 2)
  {
    var q := ChannelFoundEffect(p, found).1;
    if found.Ok? && found.value.Some? {
      AppendsOne(p, q, DeletedChannel(found.value.value), TeardownRank, 2);
    } else {
      AppendsAll(p, q, [], TeardownRank, 2);
    }
  }

  lemma LifecycleDeleteAppends(p: Platform, space: Option<string>, branch: Option<string>)
    ensures Appends(p, LifecycleDeleteEffect(p, space, branch).1, TeardownRank, 3)
  {
    if IsBlank(space) || IsBlank(branch) {
      AppendsAll(p, p, [], TeardownRank, 3);
    } else {
      LifecycleFoundEffectAppends(p, ResourceIdOf(p, space, Lifecycles, branch));
    }
  }

  lemma LifecycleFoundEffectAppends(p: Platform, found: Outcome<Option<string>>)
    ensures Appends(p, LifecycleFoundEffect(p, found).1, TeardownRank, 3)
  {
    var q := LifecycleFoundEffect(p, found).1;
    if found.Ok? && found.value.Some? {
      AppendsOne(p, q, DeletedLifecycle(found.value.value), TeardownRank, 3);
    } else {
      AppendsAll(p, q, [], TeardownRank, 3);
    }
  }

  lemma UnassignAppends(p: Platform, space: Option<string>, branch: Option<string>)
    ensures Appends(p, UnassignEffect(p, space, branch).1, TeardownRank, 4)
  {
    var q := UnassignEffect(p, space, branch).1;
    if IsBlank(space) || IsBlank(branch) {
      assert q.log == p.log;
      AppendsAll(p, q, [], TeardownRank, 4);
    } else {
      var found := ResourceIdOf(p, space, Environments, branch);
      if found.Ok? && found.value.Some? {
        var targets := Page(MachinesIn(p.machines, space.value));
        var env := found.value.value;
        assert q == Unassigned(p, targets, env);
        UnassignRanks(targets, env);
        AppendsAll(p, q, UnassignLog(targets, env), TeardownRank, 4);
      } else {
        assert q.log == p.log;
        AppendsAll(p, q, [], TeardownRank, 4);
      }
    }
  }

  lemma UnassignRanks(targets: seq<Machine>, env: string)
    ensures forall w :: w in UnassignLog(targets, env) ==> TeardownRank(w) == 4
  {
    UnassignLogWrites(targets, env);
  }

  lemma EnvironmentDeleteAppends(p: Platform, space: Option<string>, branch: Option<string>)
    ensures Appends(p, EnvironmentDeleteEffect(p, space, branch).1, TeardownRank, 5)
  {
    if IsBlank(space) || IsBlank(branch) {
      AppendsAll(p, p, [], TeardownRank, 5);
    } else {
      EnvironmentFoundEffectAppends(p, ResourceIdOf(p, space, Environments, branch));
    }
  }

  lemma EnvironmentFoundEffectAppends(p: Platform, found: Outcome<Option<string>>)
    ensures Appends(p, EnvironmentFoundEffect(p, found).1, TeardownRank, 5)
  {
    var q := EnvironmentFoundEffect(p, found).1;
    if found.Ok? && found.value.Some? {
      AppendsOne(p, q, DeletedEnvironment(found.value.value), TeardownRank, 5);
    } else {
      AppendsAll(p, q, [], TeardownRank, 5);
    }
  }

  /** The deletions after the poll write in their fixed order. */
  lemma RemoveOrdered(start: Platform, p: Platform, space: Option<string>, project: Option<string>, branch: Option<string>)
    requires OrderedSince(start, p, TeardownRank, 0)
    ensures OrderedSince(start, RemoveEffect(p, space, project, branch).1, TeardownRank, 5)
  {
    var (r1, p1) := ReleasesEffect(p, space, project, branch);
    ReleasesAppends(p, space, project, branch);
    Chain(start, p, p1, TeardownRank, 0, 1);
    if r1.Ok? {
      var (r2, p2) := ChannelDeleteEffect(p1, space, project, branch);
      ChannelDeleteAppends(p1, space, project, branch);
      Chain(start, p1, p2, TeardownRank, 1, 2);
      if r2.Ok? {
        RemoveSpaceOrdered(start, p2, space, branch);
      }
    }
  }

  lemma RemoveSpaceOrdered(start: Platform, p: Platform, space: Option<string>, branch: Option<string>)
    requires OrderedSince(start, p, TeardownRank, 2)
    ensures OrderedSince(start, RemoveSpaceEffect(p, space, branch).1, TeardownRank, 5)
  {
    var (r3, p3) := LifecycleDeleteEffect(p, space, branch);
    LifecycleDeleteAppends(p, space, branch);
    Chain(start, p, p3, TeardownRank, 2, 3);
    if r3.Ok? {
      var (r4, p4) := UnassignEffect(p3, space, branch);
      UnassignAppends(p3, space, branch);
      Chain(start, p3, p4, TeardownRank, 3, 4);
      if r4.Ok? {
        EnvironmentDeleteAppends(p4, space, branch);
        Chain(start, p4, EnvironmentDeleteEffect(p4, space, branch).1, TeardownRank, 4, 5);
      }
    }
  }

  /** Whatever its outcome, `delete_feature_branch` writes in its fixed order: every cancellation
      before any deletion, the releases before the channel, the channel before the lifecycle,
      the lifecycle before the targets, and the environment last. */
  lemma TeardownOrdered(p: Platform, a: Args, ticks: seq<set<string>>)
    ensures OrderedSince(p, DeleteEffect(p, a, ticks).1, TeardownRank, 5)
  {
    var space := SpaceIdOf(p, Some(a.space));
    var found := ResourceIdOf(p, space, Projects, Some(a.project));
    if found.Ok? {
      DeleteInProjectOrdered(p, space, found.value, Some(a.branch), ticks);
    } else {
      assert OrderedSince(p, p, TeardownRank, 5);
    }
  }

  lemma DeleteInProjectOrdered(p: Platform, space: Option<string>, project: Option<string>, branch: Option<string>,
                               ticks: seq<set<string>>)
    ensures OrderedSince(p, DeleteInProject(p, space, project, branch, ticks).1, TeardownRank, 5)
  {
    var (settled, q) := PollEffect(p, space, project, branch, ticks);
    PollAppends(p, space, project, branch, ticks);
    assert OrderedSince(p, q, TeardownRank, 0);
    if settled == Ok(true) {
      RemoveOrdered(p, q, space, project, branch);
    }
  }

  lemma EnvironmentAppends(p: Platform, space: Option<string>, branch: Option<string>)
    ensures Appends(p, EnvironmentEffect(p, space, branch).1, CreateRank, 0)
  {
    var found := if IsBlank(space) || IsBlank(branch) then Ok(Some("")) else ResourceIdOf(p, space, Environments, branch);
    if found == Ok(None) {
      AppendsAll(p, AddEnvironment(p, space.value, branch.value), [CreatedEnvironment(NewEnvironmentId(p))], CreateRank, 0);
    } else {
      AppendsAll(p, p, [], CreateRank, 0);
    }
  }

  lemma LifecycleAppends(p: Platform, space: Option<string>, environment: Option<string>, branch: Option<string>)
    ensures Appends(p, LifecycleEffect(p, space, environment, branch).1, CreateRank, 1)
  {
    var found := if IsBlank(space) || IsBlank(environment) || IsBlank(branch) then Ok(Some("")) else ResourceIdOf(p, space, Lifecycles, branch);
    if found == Ok(None) {
      var draft := LifecycleDraft(space.value, environment.value, branch.value);
      AppendsAll(p, AddLifecycle(p, space.value, draft), [CreatedLifecycle(NewLifecycleId(p))], CreateRank, 1);
    } else {
      AppendsAll(p, p, [], CreateRank, 1);
    }
  }

  /** The channel step logs at most its one creation (see `ChannelEffectLog`). */
  lemma ChannelAppends(p: Platform, q: Platform)
    requires q.log == p.log || q.log == p.log + [CreatedChannel(NewChannelId(p))]
    ensures Appends(p, q, CreateRank, 2)
  {
    if q.log == p.log {
      assert q.log[|p.log|..] == [];
    } else {
      AppendsOne(p, q, CreatedChannel(NewChannelId(p)), CreateRank, 2);
    }
  }

  lemma AssignedAppends(p: Platform, targets: seq<Machine>, env: string)
    ensures Appends(p, Assigned(p, targets, env), CreateRank, 3)
  {
    AssignLogWrites(targets, env);
    AppendsAll(p, Assigned(p, targets, env), AssignLog(targets, env), CreateRank, 3);
  }

  lemma AssignAppends(p: Platform, a: Args, space: Option<string>, env: Option<string>)
    ensures Appends(p, AssignEffect(p, a, space, env).1, CreateRank, 3)
  {
    if !(IsBlank(space) || IsBlank(env)) {
      if IsBlank(a.targetName) {
        if IsBlank(a.targetEnvironment) {
          if IsNotBlank(a.targetRole) && HasSpace(p, space.value) {
            AssignedAppends(p, WithRole(Page(MachinesIn(p.machines, space.value)), a.targetRole.value), env.value);
          }
        } else if IsNotBlank(a.targetRole) && ResourceIdOf(p, space, Environments, a.targetEnvironment).Ok? {
          var existing := ResourceIdOf(p, space, Environments, a.targetEnvironment).value;
          AssignedAppends(p, Holding(WithRole(Page(MachinesIn(p.machines, space.value)), a.targetRole.value), existing), env.value);
        }
      } else if ResourceIdOf(p, space, Machines, a.targetName).Ok? && ResourceIdOf(p, space, Machines, a.targetName).value.Some? {
        var m := MachineById(p, space.value, ResourceIdOf(p, space, Machines, a.targetName).value.value);
        if m.Some? {
          AssignedAppends(p, [m.value], env.value);
        }
      }
    }
  }

  /** Whatever its outcome, `create_feature_branch` writes in its fixed order: the environment,
      then the lifecycle, then the channel, then the targets. */
  lemma CreateOrdered(p: Platform, a: Args)
    ensures OrderedSince(p, CreateEffect(p, a).1, CreateRank, 3)
  {
    var space := SpaceIdOf(p, Some(a.space));
    var found := ResourceIdOf(p, space, Projects, Some(a.project));
    if found.Ok? {
      CreateInProjectOrdered(p, a, space, found.value);
    } else {
      assert OrderedSince(p, p, CreateRank, 3);
    }
  }

  lemma CreateInProjectOrdered(p: Platform, a: Args, space: Option<string>, project: Option<string>)
    ensures OrderedSince(p, CreateInProject(p, a, space, project).1, CreateRank, 3)
  {
    var (env, q) := ProvisionEffect(p, a, space, project);
    ProvisionOrdered(p, a, space, project);
    if env.Ok? {
      AssignAppends(q, a, space, env.value);
      Chain(p, q, AssignEffect(q, a, space, env.value).1, CreateRank, 2, 3);
    }
  }

  lemma ProvisionOrdered(p: Platform, a: Args, space: Option<string>, project: Option<string>)
    ensures OrderedSince(p, ProvisionEffect(p, a, space, project).1, CreateRank, 2)
  {
    var (env, p1) := EnvironmentEffect(p, space, Some(a.branch));
    EnvironmentAppends(p, space, Some(a.branch));
    assert OrderedSince(p, p1, CreateRank, 0);
    if env.Ok? {
      var (lifecycle, p2) := LifecycleEffect(p1, space, env.value, Some(a.branch));
      LifecycleAppends(p1, space, env.value, Some(a.branch));
      Chain(p, p1, p2, CreateRank, 0, 1);
      if lifecycle.Ok? {
        var (channel, p3) := ChannelEffect(p2, space, project, lifecycle.value, a.step, a.package, Some(a.branch));
        ChannelEffectLog(p2, space, project, lifecycle.value, a.step, a.package, Some(a.branch));
        ChannelAppends(p2, p3);
        Chain(p, p2, p3, CreateRank, 1, 2);
      } else {
        Chain(p, p2, p2, CreateRank, 1, 2);
      }
    } else {
      Chain(p, p1, p1, CreateRank, 0, 2);
    }
  }

  // Dispatch.

  /** A target name takes precedence over a target role (lines 537-543): with a name given, the
      role and the target environment make no difference. */
  lemma NamePrecedence(p: Platform, a: Args, role: Option<string>, environment: Option<string>)
    requires IsNotBlank(a.targetName)
    ensures CreateEffect(p, a) == CreateEffect(p, a.(targetRole := role, targetEnvironment := environment))
  {
    var b := a.(targetRole := role, targetEnvironment := environment);
    var space := SpaceIdOf(p, Some(a.space));
    var found := ResourceIdOf(p, space, Projects, Some(a.project));
    if found.Ok? {
      NamePrecedenceInProject(p, a, b, space, found.value);
    }
  }

  lemma NamePrecedenceInProject(p: Platform, a: Args, b: Args, space: Option<string>, project: Option<string>)
    requires IsNotBlank(a.targetName) && b == a.(targetRole := b.targetRole, targetEnvironment := b.targetEnvironment)
    ensures CreateInProject(p, a, space, project) == CreateInProject(p, b, space, project)
  {
    assert ProvisionEffect(p, a, space, project) == ProvisionEffect(p, b, space, project);
    var (env, q) := ProvisionEffect(p, a, space, project);
    if env.Ok? {
      assert AssignEffect(q, a, space, env.value) == AssignByNameEffect(q, space, env.value, a.targetName);
    }
  }

  /** Without a target name or a target role, the create workflow assigns no target. */
  lemma NoTargetWithoutNameOrRole(p: Platform, a: Args)
    requires IsBlank(a.targetName) && IsBlank(a.targetRole)
    ensures CreateEffect(p, a).1.machines == p.machines
  {
    var space := SpaceIdOf(p, Some(a.space));
    var found := ResourceIdOf(p, space, Projects, Some(a.project));
    if found.Ok? {
      CreateInProjectKeepsMachines(p, a, space, found.value);
    }
  }

  lemma CreateInProjectKeepsMachines(p: Platform, a: Args, space: Option<string>, project: Option<string>)
    requires IsBlank(a.targetName) && IsBlank(a.targetRole)
    ensures CreateInProject(p, a, space, project).1.machines == p.machines
  {
    var (env, q) := ProvisionEffect(p, a, space, project);
    ProvisionKeepsMachines(p, a, space, project);
    if env.Ok? {
      assert AssignEffect(q, a, space, env.value).1 == q;
    }
  }

  lemma ProvisionKeepsMachines(p: Platform, a: Args, space: Option<string>, project: Option<string>)
    ensures ProvisionEffect(p, a, space, project).1.machines == p.machines
  {
    var (env, p1) := EnvironmentEffect(p, space, Some(a.branch));
    EnvironmentKeepsMachines(p, space, Some(a.branch));
    if env.Ok? {
      var (lifecycle, p2) := LifecycleEffect(p1, space, env.value, Some(a.branch));
      LifecycleKeepsMachines(p1, space, env.value, Some(a.branch));
      if lifecycle.Ok? {
        ChannelKeepsMachines(p2, space, project, lifecycle.value, a.step, a.package, Some(a.branch));
      }
    }
  }

  lemma EnvironmentKeepsMachines(p: Platform, space: Option<string>, branch: Option<string>)
    ensures EnvironmentEffect(p, space, branch).1.machines == p.machines
  {
    if !(IsBlank(space) || IsBlank(branch)) && ResourceIdOf(p, space, Environments, branch) == Ok(None) {
      assert EnvironmentEffect(p, space, branch).1 == AddEnvironment(p, space.value, branch.value);
    }
  }

  lemma LifecycleKeepsMachines(p: Platform, space: Option<string>, environment: Option<string>, branch: Option<string>)
    ensures LifecycleEffect(p, space, environment, branch).1.machines == p.machines
  {
    if !(IsBlank(space) || IsBlank(environment) || IsBlank(branch)) && ResourceIdOf(p, space, Lifecycles, branch) == Ok(None) {
      var draft := LifecycleDraft(space.value, environment.value, branch.value);
      assert LifecycleEffect(p, space, environment, branch).1 == AddLifecycle(p, space.value, draft);
    }
  }

  lemma ChannelKeepsMachines(p: Platform, space: Option<string>, project: Option<string>, lifecycle: Option<string>,
                             step: Option<string>, package: Option<string>, branch: Option<string>)
    ensures ChannelEffect(p, space, project, lifecycle, step, package, branch).1.machines == p.machines
  {
    if !(IsBlank(space) || IsBlank(project) || IsBlank(lifecycle) || IsBlank(branch)) && ChannelIdOf(p, space, project, branch) == Ok(None) {
      var rules := NewChannelRules(p, space.value, project.value, step, package, branch.value);
      var draft := ChannelDraft(space.value, project.value, lifecycle.value, branch.value, rules);
      assert ChannelEffect(p, space, project, lifecycle, step, package, branch).1 == AddChannel(p, space.value, project.value, draft);
    }
  }
}
