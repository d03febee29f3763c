/** Assigning the branch environment to deployment targets and unassigning it again
    (`find_targets`, `find_targets_by_role`, the three `assign_target_*` functions, `delete_target`
    and `unassign_target`). */
module Assignment {
  import opened Wrappers
  import opened Collections
  import opened Text
  import opened Entities
  import opened Lookup
  import opened Targets
  import opened Server
  import opened Resolver

  /** `[a for a in items if role_name in a["Roles"]]` (line 237). */
  function WithRole(ms: seq<Machine>, role: string): seq<Machine> {
    Filter(ms, (m: Machine) => role in m.roles)
  }

  /** The targets of the role+environment variant that pass `existing_environment_id in
      target["EnvironmentIds"]` (line 351); when the existing environment was not found the id is
      `None`, which is in no list. */
  function Holding(ms: seq<Machine>, existing: Option<string>): seq<Machine> {
    Filter(ms, (m: Machine) => existing.Some? && existing.value in m.environmentIds)
  }

  /** The ids of a list of targets. */
  function IdSet(ts: seq<Machine>): set<string> {
    set t | t in ts :: t.id
  }

  /** The PUTs an assignment loop over `targets` issues, in order: one per target still lacking `env`. */
  function AssignLog(targets: seq<Machine>, env: string): seq<Write> {
    if targets == [] then []
    else
      var t := targets[|targets| - 1];
      AssignLog(targets[..|targets| - 1], env) + (if env in t.environmentIds then [] else [UpdatedMachine(t.id)])
  }

  /** The platform after an assignment loop over `targets` ran to its end. */
  function Assigned(p: Platform, targets: seq<Machine>, env: string): Platform {
    p.(machines := AssignAll(p.machines, IdSet(targets), env), log := p.log + AssignLog(targets, env))
  }

  /** The writes the unassignment loop issues, in order: a DELETE for a target whose only
      environment was `env`, a PUT for any other target holding `env`. */
  function UnassignLog(targets: seq<Machine>, env: string): seq<Write> {
    if targets == [] then []
    else
      var t := targets[|targets| - 1];
      UnassignLog(targets[..|targets| - 1], env)
        + (if env !in t.environmentIds then [] else if OnlyIn(t, env) then [DeletedMachine(t.id)] else [UpdatedMachine(t.id)])
  }

  /** The platform after the unassignment loop over `targets` ran to its end. */
  function Unassigned(p: Platform, targets: seq<Machine>, env: string): Platform {
    p.(machines := UnassignAll(p.machines, IdSet(targets), env), log := p.log + UnassignLog(targets, env))
  }

  /** `assign_target_by_name` when every request is answered (lines 298-321): the one target the
      name resolves to gains `env` when it lacks it. */
  function AssignByNameEffect(p: Platform, space: Option<string>, env: Option<string>, name: Option<string>): (Outcome<()>, Platform) {
    if IsBlank(space) || IsBlank(env) || IsBlank(name) then (Ok(()), p)
    else match ResourceIdOf(p, space, Machines, name)
      case Err(f) => (Err(f), p)
      case Ok(None) => (Ok(()), p)
      case Ok(Some(id)) => AssignOneEffect(p, space.value, env.value, id)
  }

  /** Lines 303-321 of `assign_target_by_name`: a checked GET of the resolved target, then a PUT
      with `env` appended when it lacks it. */
  function AssignOneEffect(p: Platform, space: string, env: string, id: string): (Outcome<()>, Platform) {
    match MachineById(p, space, id)
    case None => (Err(ApiError), p)
    case Some(m) => (Ok(()), Assigned(p, [m], env))
  }

  /** `assign_target_by_role` when every request is answered (lines 324-340). */
  function AssignByRoleEffect(p: Platform, space: Option<string>, env: Option<string>, role: Option<string>): (Outcome<()>, Platform) {
    if IsBlank(space) || IsBlank(env) || IsBlank(role) then (Ok(()), p)
    else if !HasSpace(p, space.value) then (Err(ApiError), p)
    else (Ok(()), Assigned(p, WithRole(Page(MachinesIn(p.machines, space.value)), role.value), env.value))
  }

  /** `assign_target_by_role_and_environment` when every request is answered (lines 343-362). */
  function AssignByRoleAndEnvironmentEffect(p: Platform, space: Option<string>, env: Option<string>, role: Option<string>,
                                            existingName: Option<string>): (Outcome<()>, Platform)
  {
    if IsBlank(space) || IsBlank(env) || IsBlank(role) || IsBlank(existingName) then (Ok(()), p)
    else match ResourceIdOf(p, space, Environments, existingName)
      case Err(f) => (Err(f), p)
      case Ok(existing) =>
        (Ok(()), Assigned(p, Holding(WithRole(Page(MachinesIn(p.machines, space.value)), role.value), existing), env.value))
  }

  /** `unassign_target` when every request is answered (lines 499-526), deleting emptied targets. */
  function UnassignEffect(p: Platform, space: Option<string>, branch: Option<string>): (Outcome<()>, Platform) {
    if IsBlank(space) || IsBlank(branch) then (Ok(()), p)
    else match ResourceIdOf(p, space, Environments, branch)
      case Err(f) => (Err(f), p)
      case Ok(None) => (Ok(()), p)
      case Ok(Some(env)) => (Ok(()), Unassigned(p, Page(MachinesIn(p.machines, space.value)), env))
  }

  // Facts the loops need.

  lemma PageMembers(ms: seq<Machine>, space: string)
    ensures forall x :: x in Page(MachinesIn(ms, space)) ==> x in ms && x.spaceId == space
  {
    var all := MachinesIn(ms, space);
    forall x | x in Page(all) ensures x in all {
      var k :| 0 <= k < |Page(all)| && Page(all)[k] == x;
      assert all[k] == x;
    }
  }

  lemma PageUnique(ms: seq<Machine>, space: string)
    requires UniqueBy(ms, MachineKey)
    ensures UniqueBy(Page(MachinesIn(ms, space)), MachineKey)
  {
    FilterUnique(ms, (m: Machine) => m.spaceId == space, MachineKey);
    var all := MachinesIn(ms, space);
    forall i, j | 0 <= i < j < |Page(all)| ensures MachineKey(Page(all)[i]) != MachineKey(Page(all)[j]) {
      assert Page(all)[i] == all[i] && Page(all)[j] == all[j];
    }
  }

  lemma IdSetStep(ts: seq<Machine>, i: nat)
    requires i < |ts|
    ensures IdSet(ts[..i + 1]) == IdSet(ts[..i]) + {ts[i].id}
  {
    assert ts[..i + 1] == ts[..i] + [ts[i]];
  }

  lemma LogPrefix(ts: seq<Machine>, i: nat, env: string)
    requires i < |ts|
    ensures AssignLog(ts[..i + 1], env) == AssignLog(ts[..i], env) + (if env in ts[i].environmentIds then [] else [UpdatedMachine(ts[i].id)])
    ensures UnassignLog(ts[..i + 1], env) == UnassignLog(ts[..i], env)
      + (if env !in ts[i].environmentIds then [] else if OnlyIn(ts[i], env) then [DeletedMachine(ts[i].id)] else [UpdatedMachine(ts[i].id)])
  {
    assert ts[..i + 1][..i] == ts[..i];
  }

  /** After an assignment the machine list still holds a machine with each original id and space. */
  lemma AssignAllKeepsMachine(ms: seq<Machine>, chosen: set<string>, env: string, t: Machine)
    requires t in ms
    ensures exists x :: x in AssignAll(ms, chosen, env) && x.id == t.id && x.spaceId == t.spaceId
  {
    var i :| 0 <= i < |ms| && ms[i] == t;
    AssignAllEffect(ms, chosen, env, i);
    assert AssignAll(ms, chosen, env)[i] in AssignAll(ms, chosen, env);
  }

  lemma AssignedNothing(p: Platform, env: string)
    ensures Assigned(p, [], env) == p
  {
    assert IdSet([]) == {};
    assert AssignAll(p.machines, {}, env) == p.machines;
  }

  lemma UnassignedNothing(p: Platform, env: string)
    ensures Unassigned(p, [], env) == p
  {
    assert IdSet([]) == {};
    UnassignAllNone(p.machines, env);
  }

  /** One pass of an assignment loop, on the platform: PUTting the next target with `env`
      appended, or skipping it when it holds `env`, extends the finished prefix by one. */
  lemma AssignedStep(p: Platform, targets: seq<Machine>, i: nat, env: string)
    requires UniqueBy(p.machines, MachineKey) && i < |targets| && targets[i] in p.machines
    ensures var q := Assigned(p, targets[..i], env); var t := targets[i];
      && MachineById(q, t.spaceId, t.id).Some?
      && (env !in t.environmentIds ==> UpdateMachine(q, WithEnvironment(t, env)) == Assigned(p, targets[..i + 1], env))
      && (env in t.environmentIds ==> q == Assigned(p, targets[..i + 1], env))
  {
    var t := targets[i];
    var q := Assigned(p, targets[..i], env);
    var after := Assigned(p, targets[..i + 1], env);
    assert MachineById(q, t.spaceId, t.id).Some? by {
      AssignAllKeepsMachine(p.machines, IdSet(targets[..i]), env, t);
    }
    assert after.log == p.log + AssignLog(targets[..i], env) + (if env in t.environmentIds then [] else [UpdatedMachine(t.id)]) by {
      LogPrefix(targets, i, env);
    }
    assert after.machines == AssignAll(p.machines, IdSet(targets[..i]) + {t.id}, env) by {
      IdSetStep(targets, i);
    }
    AssignStep(p.machines, IdSet(targets[..i]), t, env);
    if env in t.environmentIds {
      assert q.log == after.log;
    } else {
      assert UpdateMachine(q, WithEnvironment(t, env)).log == after.log;
    }
  }

  /** `find_targets` (lines 212-223): one checked GET of the first page of the space's machines. */
  method FindTargets(store: Store, space: Option<string>) returns (r: Outcome<Option<seq<Machine>>>)
    modifies store`requests, store`unanswered
    ensures store.requests == old(store.requests) + (if IsBlank(space) then 0 else 1)
    ensures store.unanswered == old(store.unanswered) + (if IsNotBlank(space) && old(store.requests) in store.failing then 1 else 0)
    ensures r == if IsBlank(space) then Ok(None)
      else if old(store.requests) in store.failing || !HasSpace(store.Data(), space.value) then Err(ApiError)
      else Ok(Some(Page(MachinesIn(store.machines, space.value))))
  {
    if IsBlank(space) {
      return Ok(None);
    }
    var listed := store.ListMachines(space.value);
    if listed.None? {
      return Err(ApiError);
    }
    r := Ok(listed);
  }

  /** `find_targets_by_role` (lines 226-237): the listed machines that carry the role. */
  method FindTargetsByRole(store: Store, space: Option<string>, role: Option<string>) returns (r: Outcome<Option<seq<Machine>>>)
    modifies store`requests, store`unanswered
    ensures store.requests == old(store.requests) + (if IsBlank(space) || IsBlank(role) then 0 else 1)
    ensures store.unanswered == old(store.unanswered) + (if IsNotBlank(space) && IsNotBlank(role) && old(store.requests) in store.failing then 1 else 0)
    ensures r == if IsBlank(space) || IsBlank(role) then Ok(None)
      else if old(store.requests) in store.failing || !HasSpace(store.Data(), space.value) then Err(ApiError)
      else Ok(Some(WithRole(Page(MachinesIn(store.machines, space.value)), role.value)))
    ensures r.Ok? && r.value.Some? ==> forall t :: t in r.value.value ==> role.value in t.roles
  {
    if IsBlank(space) || IsBlank(role) {
      return Ok(None);
    }
    var listed := store.ListMachines(space.value);
    if listed.None? {
      return Err(ApiError);
    }
    r := Ok(Some(WithRole(listed.value, role.value)));
  }

  /** `assign_target_by_name`. */
  method AssignTargetByName(store: Store, space: Option<string>, env: Option<string>, name: Option<string>) returns (r: Outcome<()>)
    requires store.Valid()
    modifies store`requests, store`unanswered, store`machines, store`log
    ensures store.Valid() && old(store.unanswered) <= store.unanswered
    ensures IsBlank(space) || IsBlank(env) || IsBlank(name) ==> r == Ok(()) && store.requests == old(store.requests)
    ensures r.Err? ==> store.Data() == old(store.Data())
    ensures store.unanswered == old(store.unanswered) ==>
      (r, store.Data()) == AssignByNameEffect(old(store.Data()), space, env, name)
  {
    if IsBlank(space) || IsBlank(env) || IsBlank(name) {
      return Ok(());
    }
    ghost var p := store.Data();
    var found := GetResourceId(store, space, Machines, name);
    if found.Err? {
      return Err(found.failure);
    }
    if found.value.None? {
      return Ok(());
    }
    r := AssignOne(store, space.value, env.value, found.value.value);
  }

  /** The part of `assign_target_by_name` after the name was resolved. */
  method AssignOne(store: Store, space: string, env: string, id: string) returns (r: Outcome<()>)
    requires store.Valid()
    modifies store`requests, store`unanswered, store`machines, store`log
    ensures store.Valid() && old(store.unanswered) <= store.unanswered
    ensures r.Err? ==> store.Data() == old(store.Data())
    ensures store.unanswered == old(store.unanswered) ==> (r, store.Data()) == AssignOneEffect(old(store.Data()), space, env, id)
  {
    ghost var p := store.Data();
    var target := store.GetMachine(space, id);
    if target.None? {
      return Err(ApiError);
    }
    var m := target.value;
    ghost var q := Assigned(p, [m], env);
    AssignedStep(p, [m], 0, env);
    AssignedNothing(p, env);
    assert [m][..0] == [] && [m][..1] == [m];
    if env !in m.environmentIds {
      var ok := store.PutMachine(space, WithEnvironment(m, env));
      if !ok {
        return Err(ApiError);
      }
    }
    r := Ok(());
  }

  /** The loop of `assign_target_by_role` (lines 329-340): each listed target lacking `env` is
      PUT back with `env` appended. It stops at the first PUT that is not answered. */
  method AssignLoop(store: Store, space: string, env: string, targets: seq<Machine>) returns (r: Outcome<()>)
    requires store.Valid()
    requires forall t :: t in targets ==> t in store.machines && t.spaceId == space
    modifies store`requests, store`unanswered, store`machines, store`log
    ensures store.Valid()
    ensures r.Ok? ==> store.Data() == Assigned(old(store.Data()), targets, env)
    ensures r.Err? ==>
      && r.failure == ApiError
      && exists k :: 0 <= k < |targets| && store.Data() == Assigned(old(store.Data()), targets[..k], env)
    ensures old(store.requests) <= store.requests && old(store.unanswered) <= store.unanswered
    ensures store.unanswered == old(store.unanswered) <==> r == Ok(())
  {
    ghost var p := store.Data();
    for i := 0 to |targets|
      invariant store.Valid() && old(store.requests) <= store.requests && store.unanswered == old(store.unanswered)
      invariant store.Data() == Assigned(p, targets[..i], env)
    {
      var t := targets[i];
      AssignedStep(p, targets, i, env);
      if env !in t.environmentIds {
        var ok := store.PutMachine(space, WithEnvironment(t, env));
        if !ok {
          assert store.Data() == Assigned(p, targets[..i], env);
          return Err(ApiError);
        }
      }
    }
    assert targets[..|targets|] == targets;
    r := Ok(());
  }

  /** Which of the listed targets the role+environment loop writes grows by the next target when
      that target holds the existing environment. */
  lemma HoldingStep(targets: seq<Machine>, i: nat, existing: Option<string>)
    requires i < |targets|
    ensures var t := targets[i];
      Holding(targets[..i + 1], existing) == Holding(targets[..i], existing)
        + (if existing.Some? && existing.value in t.environmentIds then [t] else [])
  {
    assert targets[..i + 1] == targets[..i] + [targets[i]];
    FilterAppend(targets[..i], [targets[i]], (m: Machine) => existing.Some? && existing.value in m.environmentIds);
  }

  /** One pass of the role+environment loop, on the platform: a target that does not hold the
      existing environment is skipped; one that does is handled as in `AssignedStep`. */
  lemma HoldersStep(p: Platform, targets: seq<Machine>, i: nat, existing: Option<string>, env: string)
    requires UniqueBy(p.machines, MachineKey) && i < |targets| && targets[i] in p.machines
    ensures var q := Assigned(p, Holding(targets[..i], existing), env); var next := Assigned(p, Holding(targets[..i + 1], existing), env);
      var t := targets[i]; var holds := existing.Some? && existing.value in t.environmentIds;
      && (holds ==> MachineById(q, t.spaceId, t.id).Some?)
      && (holds && env !in t.environmentIds ==> UpdateMachine(q, WithEnvironment(t, env)) == next)
      && (!(holds && env !in t.environmentIds) ==> q == next)
  {
    HoldingStep(targets, i, existing);
    if existing.Some? && existing.value in targets[i].environmentIds {
      AssignedNext(p, Holding(targets[..i], existing), targets[i], env);
    } else {
      assert Holding(targets[..i + 1], existing) == Holding(targets[..i], existing);
    }
  }

  /** `AssignedStep` for a target appended to the finished list. */
  lemma AssignedNext(p: Platform, before: seq<Machine>, t: Machine, env: string)
    requires UniqueBy(p.machines, MachineKey) && t in p.machines
    ensures var q := Assigned(p, before, env); var next := Assigned(p, before + [t], env);
      && MachineById(q, t.spaceId, t.id).Some?
      && (env !in t.environmentIds ==> UpdateMachine(q, WithEnvironment(t, env)) == next)
      && (env in t.environmentIds ==> q == next)
  {
    var after := before + [t];
    assert after[..|before|] == before && after[..|before| + 1] == after && after[|before|] == t;
    AssignedStep(p, after, |before|, env);
  }

  /** The loop of `assign_target_by_role_and_environment` (lines 350-362): only targets that
      hold the existing environment are considered, and each of those lacking `env` is PUT back
      with `env` appended. */
  method AssignHoldersLoop(store: Store, space: string, env: string, targets: seq<Machine>, existing: Option<string>) returns (r: Outcome<()>)
    requires store.Valid()
    requires forall t :: t in targets ==> t in store.machines && t.spaceId == space
    modifies store`requests, store`unanswered, store`machines, store`log
    ensures store.Valid()
    ensures r.Ok? ==> store.Data() == Assigned(old(store.Data()), Holding(targets, existing), env)
    ensures r.Err? ==>
      && r.failure == ApiError
      && exists k :: 0 <= k < |targets| && store.Data() == Assigned(old(store.Data()), Holding(targets[..k], existing), env)
    ensures old(store.requests) <= store.requests && old(store.unanswered) <= store.unanswered
    ensures store.unanswered == old(store.unanswered) <==> r == Ok(())
  {
    ghost var p := store.Data();
    AssignedNothing(p, env);
    for i := 0 to |targets|
      invariant store.Valid() && old(store.requests) <= store.requests && store.unanswered == old(store.unanswered)
      invariant store.Data() == Assigned(p, Holding(targets[..i], existing), env)
    {
      var t := targets[i];
      HoldersStep(p, targets, i, existing, env);
      if existing.Some? && existing.value in t.environmentIds {
        if env !in t.environmentIds {
          var ok := store.PutMachine(space, WithEnvironment(t, env));
          if !ok {
            assert store.Data() == Assigned(p, Holding(targets[..i], existing), env);
            return Err(ApiError);
          }
        }
      }
    }
    assert targets[..|targets|] == targets;
    r := Ok(());
  }

  /** `assign_target_by_role`. */
  method AssignTargetByRole(store: Store, space: Option<string>, env: Option<string>, role: Option<string>) returns (r: Outcome<()>)
    requires store.Valid()
    modifies store`requests, store`unanswered, store`machines, store`log
    ensures store.Valid() && old(store.unanswered) <= store.unanswered
    ensures IsBlank(space) || IsBlank(env) || IsBlank(role) ==> r == Ok(()) && store.requests == old(store.requests)
    ensures store.unanswered == old(store.unanswered) ==>
      (r, store.Data()) == AssignByRoleEffect(old(store.Data()), space, env, role)
  {
    if IsBlank(space) || IsBlank(env) || IsBlank(role) {
      return Ok(());
    }
    ghost var p := store.Data();
    var found := FindTargetsByRole(store, space, role);
    if found.Err? {
      assert store.unanswered == old(store.unanswered) ==> (Err(found.failure), store.Data()) == AssignByRoleEffect(p, space, env, role);
      return Err(found.failure);
    }
    var targets := found.value.value;
    assert store.Data() == p;
    ghost var listed := Page(MachinesIn(p.machines, space.value));
    assert targets == WithRole(listed, role.value);
    PageMembers(p.machines, space.value);
    assert forall t :: t in targets ==> t in listed;
    r := AssignLoop(store, space.value, env.value, targets);

  }

  /** `assign_target_by_role_and_environment`. The existing environment is resolved with an
      unchecked lookup; when it is not found no target qualifies. */
  method AssignTargetByRoleAndEnvironment(store: Store, space: Option<string>, env: Option<string>, role: Option<string>,
                                          existingName: Option<string>) returns (r: Outcome<()>)
    requires store.Valid()
    modifies store`requests, store`unanswered, store`machines, store`log
    ensures store.Valid() && old(store.unanswered) <= store.unanswered
    ensures IsBlank(space) || IsBlank(env) || IsBlank(role) || IsBlank(existingName) ==> r == Ok(()) && store.requests == old(store.requests)
    ensures store.unanswered == old(store.unanswered) ==>
      (r, store.Data()) == AssignByRoleAndEnvironmentEffect(old(store.Data()), space, env, role, existingName)
  {
    if IsBlank(space) || IsBlank(env) || IsBlank(role) || IsBlank(existingName) {
      return Ok(());
    }
    var existing := GetResourceId(store, space, Environments, existingName);
    if existing.Err? {
      return Err(existing.failure);
    }
    var found := FindTargetsByRole(store, space, role);
    if found.Err? {
      return Err(found.failure);
    }
    PageMembers(store.machines, space.value);
    r := AssignHoldersLoop(store, space.value, env.value, found.value.value, existing.value);
  }

  /** `delete_target` when every request is answered (lines 452-460). */
  function DeleteTargetEffect(p: Platform, space: Option<string>, id: Option<string>): (Outcome<()>, Platform) {
    if IsBlank(space) || IsBlank(id) then (Ok(()), p)
    else if MachineById(p, space.value, id.value).None? then (Err(ApiError), p)
    else (Ok(()), DropMachine(p, id.value))
  }

  /** `delete_target`: one checked DELETE; nothing for a blank space or id. */
  method DeleteTarget(store: Store, space: Option<string>, id: Option<string>) returns (r: Outcome<()>)
    requires store.Valid()
    modifies store`requests, store`unanswered, store`machines, store`log
    ensures store.Valid()
    ensures store.requests == old(store.requests) + (if IsBlank(space) || IsBlank(id) then 0 else 1)
    ensures store.unanswered == old(store.unanswered) + (if IsNotBlank(space) && IsNotBlank(id) && old(store.requests) in store.failing then 1 else 0)
    ensures r.Err? ==> r.failure == ApiError && store.Data() == old(store.Data())
    ensures r.Ok? <==> IsBlank(space) || IsBlank(id) || (old(store.requests) !in store.failing && MachineById(old(store.Data()), space.value, id.value).Some?)
    ensures store.unanswered == old(store.unanswered) ==> (r, store.Data()) == DeleteTargetEffect(old(store.Data()), space, id)
  {
    if IsBlank(space) || IsBlank(id) {
      return Ok(());
    }
    var ok := store.DeleteMachine(space.value, id.value);
    r := if ok then Ok(()) else Err(ApiError);
  }

  /** With unique ids, the next listed target has not been handled by an earlier pass. */
  lemma NotYetHandled(targets: seq<Machine>, i: nat)
    requires UniqueBy(targets, MachineKey) && i < |targets|
    ensures targets[i].id !in IdSet(targets[..i])
  {
    forall x | x in targets[..i] ensures x.id != targets[i].id {
      var k :| 0 <= k < i && targets[k] == x;
      assert MachineKey(targets[k]) != MachineKey(targets[i]);
    }
  }

  /** A listed target the loop has not reached yet is still on the platform, unchanged. */
  lemma StillListed(p: Platform, targets: seq<Machine>, i: nat, env: string)
    requires UniqueBy(p.machines, MachineKey) && UniqueBy(targets, MachineKey) && i < |targets| && targets[i] in p.machines
    ensures MachineById(Unassigned(p, targets[..i], env), targets[i].spaceId, targets[i].id).Some?
  {
    NotYetHandled(targets, i);
    assert targets[i] in Unassigned(p, targets[..i], env).machines;
  }

  /** One pass of the unassignment loop for a listed target without `env`: it is skipped and the
      finished prefix grows by one. */
  lemma UnassignedSkip(p: Platform, targets: seq<Machine>, i: nat, env: string)
    requires UniqueBy(p.machines, MachineKey) && i < |targets| && targets[i] in p.machines && env !in targets[i].environmentIds
    ensures Unassigned(p, targets[..i + 1], env) == Unassigned(p, targets[..i], env)
  {
    IdSetStep(targets, i);
    LogPrefix(targets, i, env);
    UnassignSkipStep(p.machines, IdSet(targets[..i]), targets[i], env);
  }

  /** One pass of the unassignment loop for a listed target whose only environment is `env`: it
      is still on the platform, and deleting it extends the finished prefix by one. */
  lemma UnassignedDelete(p: Platform, targets: seq<Machine>, i: nat, env: string)
    requires UniqueBy(p.machines, MachineKey) && UniqueBy(targets, MachineKey) && i < |targets| && targets[i] in p.machines
    requires OnlyIn(targets[i], env)
    ensures var q := Unassigned(p, targets[..i], env); var t := targets[i];
      && MachineById(q, t.spaceId, t.id).Some?
      && DropMachine(q, t.id) == Unassigned(p, targets[..i + 1], env)
  {
    StillListed(p, targets, i, env);
    DeleteExtends(p, targets, i, env);
  }

  /** Deleting the target the loop reached extends the finished prefix by one. */
  lemma DeleteExtends(p: Platform, targets: seq<Machine>, i: nat, env: string)
    requires UniqueBy(p.machines, MachineKey) && UniqueBy(targets, MachineKey) && i < |targets| && targets[i] in p.machines
    requires OnlyIn(targets[i], env)
    ensures DropMachine(Unassigned(p, targets[..i], env), targets[i].id) == Unassigned(p, targets[..i + 1], env)
  {
    var t := targets[i];
    var q := Unassigned(p, targets[..i], env);
    var after := Unassigned(p, targets[..i + 1], env);
    assert DropMachine(q, t.id).machines == after.machines by {
      DeletedMachines(p.machines, targets, i, env);
    }
    assert DropMachine(q, t.id).log == after.log by {
      LogPrefix(targets, i, env);
    }
  }

  /** The machines after deleting the target the loop reached. */
  lemma DeletedMachines(ms: seq<Machine>, targets: seq<Machine>, i: nat, env: string)
    requires UniqueBy(ms, MachineKey) && UniqueBy(targets, MachineKey) && i < |targets| && targets[i] in ms
    requires OnlyIn(targets[i], env)
    ensures UnassignAll(ms, IdSet(targets[..i + 1]), env) == RemoveMachine(UnassignAll(ms, IdSet(targets[..i]), env), targets[i].id)
  {
    IdSetStep(targets, i);
    NotYetHandled(targets, i);
    UnassignDeleteStep(ms, IdSet(targets[..i]), targets[i], env);
  }

  /** One pass of the unassignment loop for a listed target holding `env` besides others: it is
      still on the platform, and PUTting it without `env` extends the finished prefix by one. */
  lemma UnassignedPut(p: Platform, targets: seq<Machine>, i: nat, env: string)
    requires UniqueBy(p.machines, MachineKey) && UniqueBy(targets, MachineKey) && i < |targets| && targets[i] in p.machines
    requires env in targets[i].environmentIds && !OnlyIn(targets[i], env)
    ensures var q := Unassigned(p, targets[..i], env); var t := targets[i];
      && MachineById(q, t.spaceId, t.id).Some?
      && UpdateMachine(q, WithoutEnvironment(t, env)) == Unassigned(p, targets[..i + 1], env)
  {
    StillListed(p, targets, i, env);
    PutExtends(p, targets, i, env);
  }

  /** PUTting the target the loop reached without `env` extends the finished prefix by one. */
  lemma PutExtends(p: Platform, targets: seq<Machine>, i: nat, env: string)
    requires UniqueBy(p.machines, MachineKey) && UniqueBy(targets, MachineKey) && i < |targets| && targets[i] in p.machines
    requires env in targets[i].environmentIds && !OnlyIn(targets[i], env)
    ensures UpdateMachine(Unassigned(p, targets[..i], env), WithoutEnvironment(targets[i], env)) == Unassigned(p, targets[..i + 1], env)
  {
    var t := targets[i];
    var q := Unassigned(p, targets[..i], env);
    var after := Unassigned(p, targets[..i + 1], env);
    assert UpdateMachine(q, WithoutEnvironment(t, env)).machines == after.machines by {
      PutMachines(p.machines, targets, i, env);
    }
    assert UpdateMachine(q, WithoutEnvironment(t, env)).log == after.log by {
      LogPrefix(targets, i, env);
    }
  }

  /** The machines after PUTting the target the loop reached without `env`. */
  lemma PutMachines(ms: seq<Machine>, targets: seq<Machine>, i: nat, env: string)
    requires UniqueBy(ms, MachineKey) && UniqueBy(targets, MachineKey) && i < |targets| && targets[i] in ms
    requires env in targets[i].environmentIds && !OnlyIn(targets[i], env)
    ensures UnassignAll(ms, IdSet(targets[..i + 1]), env) == Replace(UnassignAll(ms, IdSet(targets[..i]), env), WithoutEnvironment(targets[i], env))
  {
    IdSetStep(targets, i);
    NotYetHandled(targets, i);
    UnassignPutStep(ms, IdSet(targets[..i]), targets[i], env);
  }

  /** The loop of `unassign_target` (lines 508-526): every listed target holding `env` loses it,
      and one that held nothing else is deleted. It stops at the first write that is not answered. */
  method UnassignLoop(store: Store, space: string, env: string, targets: seq<Machine>) returns (r: Outcome<()>)
    requires store.Valid() && IsNotBlank(Some(space)) && UniqueBy(targets, MachineKey)
    requires forall t :: t in targets ==> t in store.machines && t.spaceId == space
    modifies store`requests, store`unanswered, store`machines, store`log
    ensures store.Valid()
    ensures r.Ok? ==> store.Data() == Unassigned(old(store.Data()), targets, env)
    ensures r.Err? ==>
      && r.failure == ApiError
      && exists k :: 0 <= k < |targets| && store.Data() == Unassigned(old(store.Data()), targets[..k], env)
    ensures old(store.requests) <= store.requests && old(store.unanswered) <= store.unanswered
    ensures store.unanswered == old(store.unanswered) <==> r == Ok(())
  {
    ghost var p := store.Data();
    assert Wellformed(p);
    UnassignedNothing(p, env);
    for i := 0 to |targets|
      invariant store.Valid() && old(store.requests) <= store.requests && store.unanswered == old(store.unanswered)
      invariant store.Data() == Unassigned(p, targets[..i], env)
    {
      var t := targets[i];
      if env !in t.environmentIds {
        UnassignedSkip(p, targets, i, env);
      } else {
        if OnlyIn(t, env) {
          UnassignedDelete(p, targets, i, env);
          IdentifierIsNotBlank(t.id);
          var deleted := DeleteTarget(store, Some(space), Some(t.id));
          if deleted.Err? {
            return deleted;
          }
        } else {
          UnassignedPut(p, targets, i, env);
          var ok := store.PutMachine(space, WithoutEnvironment(t, env));
          if !ok {
            return Err(ApiError);
          }
        }
      }
    }
    assert targets[..|targets|] == targets;
    r := Ok(());
  }

  /** `unassign_target`, with the deletion of emptied targets the script intends (see
      `Targets.UnassignAsWritten` for the call as written). */
  method UnassignTarget(store: Store, space: Option<string>, branch: Option<string>) returns (r: Outcome<()>)
    requires store.Valid()
    modifies store`requests, store`unanswered, store`machines, store`log
    ensures store.Valid() && old(store.unanswered) <= store.unanswered
    ensures IsBlank(space) || IsBlank(branch) ==> r == Ok(()) && store.requests == old(store.requests)
    ensures store.unanswered == old(store.unanswered) ==>
      (r, store.Data()) == UnassignEffect(old(store.Data()), space, branch)
  {
    if IsBlank(space) || IsBlank(branch) {
      return Ok(());
    }
    var found := GetResourceId(store, space, Environments, branch);
    if found.Err? {
      return Err(found.failure);
    }
    if found.value.None? {
      return Ok(());
    }
    var targets := FindTargets(store, space);
    if targets.Err? {
      return Err(targets.failure);
    }
    PageMembers(store.machines, space.value);
    PageUnique(store.machines, space.value);
    r := UnassignLoop(store, space.value, found.value.value, targets.value.value);
  }
}
