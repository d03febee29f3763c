/** What the assignment and unassignment operations promise, stated over their effects: which
    machines they write, what each written machine becomes, and that running them again with
    the same arguments changes nothing. */
module AssignmentFacts {
  import opened Wrappers
  import opened Collections
  import opened Text
  import opened Entities
  import opened Lookup
  import opened Targets
  import opened Server
  import opened Resolver
  import opened Assignment

  // Which writes the loops issue.

  /** The assignment loop PUTs exactly the targets that lacked `env`, one write per target. */
  lemma {:induction false} AssignLogWrites(targets: seq<Machine>, env: string)
    ensures |AssignLog(targets, env)| <= |targets|
    ensures forall w :: w in AssignLog(targets, env) <==>
      exists t :: t in targets && env !in t.environmentIds && w == UpdatedMachine(t.id)
  {
    if targets != [] {
      var init, last := targets[..|targets| - 1], targets[|targets| - 1];
      AssignLogWrites(init, env);
      FrontLast(targets);
      forall w ensures w in AssignLog(targets, env) <==>
        exists t :: t in targets && env !in t.environmentIds && w == UpdatedMachine(t.id)
      {
        if w in AssignLog(init, env) {
          var t :| t in init && env !in t.environmentIds && w == UpdatedMachine(t.id);
          assert t in targets;
        }
        if exists t :: t in targets && env !in t.environmentIds && w == UpdatedMachine(t.id) {
          var t :| t in targets && env !in t.environmentIds && w == UpdatedMachine(t.id);
          if t != last {
            assert t in init;
          }
        }
      }
    }
  }

  /** The unassignment loop writes exactly the targets that held `env`: a DELETE for one whose
      only environment it was, a PUT for any other. */
  lemma {:induction false} UnassignLogWrites(targets: seq<Machine>, env: string)
    ensures |UnassignLog(targets, env)| <= |targets|
    ensures forall w :: w in UnassignLog(targets, env) <==>
      exists t :: t in targets && env in t.environmentIds && w == (if OnlyIn(t, env) then DeletedMachine(t.id) else UpdatedMachine(t.id))
  {
    if targets != [] {
      var init, last := targets[..|targets| - 1], targets[|targets| - 1];
      UnassignLogWrites(init, env);
      FrontLast(targets);
      forall w ensures w in UnassignLog(targets, env) <==>
        exists t :: t in targets && env in t.environmentIds && w == (if OnlyIn(t, env) then DeletedMachine(t.id) else UpdatedMachine(t.id))
      {
        if w in UnassignLog(init, env) {
          var t :| t in init && env in t.environmentIds && w == (if OnlyIn(t, env) then DeletedMachine(t.id) else UpdatedMachine(t.id));
          assert t in targets;
        }
        if exists t :: t in targets && env in t.environmentIds && w == (if OnlyIn(t, env) then DeletedMachine(t.id) else UpdatedMachine(t.id)) {
          var t :| t in targets && env in t.environmentIds && w == (if OnlyIn(t, env) then DeletedMachine(t.id) else UpdatedMachine(t.id));
          if t != last {
            assert t in init;
          }
        }
      }
    }
  }

  lemma AssignLogEmpty(targets: seq<Machine>, env: string)
    requires forall t :: t in targets ==> env in t.environmentIds
    ensures AssignLog(targets, env) == []
  {
    AssignLogWrites(targets, env);
  }

  lemma UnassignLogEmpty(targets: seq<Machine>, env: string)
    requires forall t :: t in targets ==> env !in t.environmentIds
    ensures UnassignLog(targets, env) == []
  {
    UnassignLogWrites(targets, env);
  }

  // What the loops do to the machine list.

  /** With unique ids, a machine is chosen by id exactly when it is one of the targets. */
  lemma ChosenAreTargets(ms: seq<Machine>, targets: seq<Machine>, i: nat)
    requires UniqueBy(ms, MachineKey) && (forall t :: t in targets ==> t in ms) && i < |ms|
    ensures ms[i].id in IdSet(targets) <==> ms[i] in targets
  {
    if ms[i].id in IdSet(targets) {
      var t :| t in targets && t.id == ms[i].id;
      UniqueIdentifies(ms, t, i);
    }
  }

  /** Assignment writes back exactly the listed targets, each with `env` added when it lacked
      it, at its own position; every other machine, and everything but the machines and the
      log, is as it was. */
  lemma AssignedChanges(p: Platform, targets: seq<Machine>, env: string)
    requires UniqueBy(p.machines, MachineKey) && forall t :: t in targets ==> t in p.machines
    ensures var q := Assigned(p, targets, env);
      && q == p.(machines := q.machines, log := q.log)
      && |q.machines| == |p.machines|
      && forall i :: 0 <= i < |p.machines| ==>
           q.machines[i] == if p.machines[i] in targets then WithEnvironment(p.machines[i], env) else p.machines[i]
  {
    forall i | 0 <= i < |p.machines| {
      ChosenAreTargets(p.machines, targets, i);
    }
  }

  /** Unassignment keeps every machine that is not a target holding `env`; a target holding
      `env` besides other environments stays without it; one whose only environment was `env` is
      gone; nothing else appears. */
  lemma UnassignedChanges(p: Platform, targets: seq<Machine>, env: string)
    requires UniqueBy(p.machines, MachineKey) && forall t :: t in targets ==> t in p.machines
    ensures var q := Unassigned(p, targets, env);
      && q == p.(machines := q.machines, log := q.log)
      && (forall m :: m in p.machines && !(m in targets && env in m.environmentIds) ==> m in q.machines)
      && (forall m :: m in targets && env in m.environmentIds && !OnlyIn(m, env) ==> WithoutEnvironment(m, env) in q.machines)
      && (forall m :: m in targets && OnlyIn(m, env) ==> forall x :: x in q.machines ==> x.id != m.id)
      && (forall x :: x in q.machines ==> x in p.machines || exists m :: m in targets && x == WithoutEnvironment(m, env))
      && (forall x :: x in q.machines ==> env !in x.environmentIds || !(exists m :: m in targets && m.id == x.id))
  {
    var ms, chosen := p.machines, IdSet(targets);
    var q := Unassigned(p, targets, env);
    forall m | m in ms && !(m in targets && env in m.environmentIds) ensures m in q.machines {
      var i :| 0 <= i < |ms| && ms[i] == m;
      ChosenAreTargets(ms, targets, i);
    }
    forall m | m in targets && OnlyIn(m, env) ensures forall x :: x in q.machines ==> x.id != m.id {
      UnassignAllDeletes(ms, chosen, env, m);
    }
    forall x | x in q.machines ensures x in ms || exists m :: m in targets && x == WithoutEnvironment(m, env) {
      if x !in ms {
        var m :| m in ms && m.id in chosen && x == WithoutEnvironment(m, env);
        var i :| 0 <= i < |ms| && ms[i] == m;
        ChosenAreTargets(ms, targets, i);
      }
    }
  }

  // Which machines each variant selects.

  /** `assign_target_by_role` changes only machines of the space that carry the role and lacked
      `env`, each by adding `env`; every machine of the first page that carries the role holds
      `env` afterwards. */
  lemma AssignByRoleSelects(p: Platform, space: string, env: string, role: string)
    requires UniqueBy(p.machines, MachineKey) && IsNotBlank(Some(space)) && IsNotBlank(Some(env)) && IsNotBlank(Some(role)) && HasSpace(p, space)
    ensures var q := AssignByRoleEffect(p, Some(space), Some(env), Some(role)).1;
      && |q.machines| == |p.machines|
      && (forall i :: 0 <= i < |p.machines| && q.machines[i] != p.machines[i] ==>
            && role in p.machines[i].roles && p.machines[i].spaceId == space && env !in p.machines[i].environmentIds
            && q.machines[i] == WithEnvironment(p.machines[i], env))
      && (forall i :: 0 <= i < |p.machines| && p.machines[i] in Page(MachinesIn(p.machines, space)) && role in p.machines[i].roles ==>
            env in q.machines[i].environmentIds)
  {
    var targets := WithRole(Page(MachinesIn(p.machines, space)), role);
    PageMembers(p.machines, space);
    AssignedChanges(p, targets, env);
  }

  /** What the role+environment variant selects once the existing environment is resolved. */
  lemma HoldersSelect(p: Platform, space: string, env: string, role: string, existing: Option<string>)
    requires UniqueBy(p.machines, MachineKey)
    ensures var q := Assigned(p, Holding(WithRole(Page(MachinesIn(p.machines, space)), role), existing), env);
      && (existing.None? ==> q == p)
      && |q.machines| == |p.machines|
      && (forall i :: 0 <= i < |p.machines| && q.machines[i] != p.machines[i] ==>
            && role in p.machines[i].roles && p.machines[i].spaceId == space && env !in p.machines[i].environmentIds
            && existing.Some? && existing.value in p.machines[i].environmentIds
            && q.machines[i] == WithEnvironment(p.machines[i], env))
      && (forall i :: (0 <= i < |p.machines| && p.machines[i] in Page(MachinesIn(p.machines, space)) && role in p.machines[i].roles
              && existing.Some? && existing.value in p.machines[i].environmentIds) ==>
            env in q.machines[i].environmentIds)
  {
    var targets := Holding(WithRole(Page(MachinesIn(p.machines, space)), role), existing);
    PageMembers(p.machines, space);
    AssignedChanges(p, targets, env);
    if existing.None? {
      assert targets == [];
      AssignedNothing(p, env);
    }
  }

  /** `assign_target_by_role_and_environment` changes only machines of the space that carry the
      role, already hold the existing environment and lacked `env`, each by adding `env`; every
      such machine of the first page holds `env` afterwards. Nothing changes when the existing
      environment is not found. */
  lemma AssignByRoleAndEnvironmentSelects(p: Platform, space: string, env: string, role: string, existingName: string)
    requires UniqueBy(p.machines, MachineKey) && IsNotBlank(Some(space)) && IsNotBlank(Some(env)) && IsNotBlank(Some(role)) && IsNotBlank(Some(existingName))
    requires HasSpace(p, space)
    ensures var existing := ResourceIdOf(p, Some(space), Environments, Some(existingName)).value;
      var q := AssignByRoleAndEnvironmentEffect(p, Some(space), Some(env), Some(role), Some(existingName)).1;
      && (existing.None? ==> q == p)
      && |q.machines| == |p.machines|
      && (forall i :: 0 <= i < |p.machines| && q.machines[i] != p.machines[i] ==>
            && role in p.machines[i].roles && p.machines[i].spaceId == space && env !in p.machines[i].environmentIds
            && existing.Some? && existing.value in p.machines[i].environmentIds
            && q.machines[i] == WithEnvironment(p.machines[i], env))
      && (forall i :: (0 <= i < |p.machines| && p.machines[i] in Page(MachinesIn(p.machines, space)) && role in p.machines[i].roles
              && existing.Some? && existing.value in p.machines[i].environmentIds) ==>
            env in q.machines[i].environmentIds)
  {
    var existing := ResourceIdOf(p, Some(space), Environments, Some(existingName)).value;
    assert AssignByRoleAndEnvironmentEffect(p, Some(space), Some(env), Some(role), Some(existingName)).1
      == Assigned(p, Holding(WithRole(Page(MachinesIn(p.machines, space)), role), existing), env);
    HoldersSelect(p, space, env, role, existing);
  }

  // Running an operation again with the same arguments changes nothing.

  lemma IdSetAssignAll(ts: seq<Machine>, chosen: set<string>, env: string)
    ensures IdSet(AssignAll(ts, chosen, env)) == IdSet(ts)
  {
    var a := AssignAll(ts, chosen, env);
    forall id | id in IdSet(ts) ensures id in IdSet(a) {
      var t :| t in ts && t.id == id;
      var i :| 0 <= i < |ts| && ts[i] == t;
      assert a[i] in a;
    }
  }

  /** Assigning again the targets an assignment returned changes nothing and writes nothing. */
  lemma ReassignSettled(p: Platform, targets: seq<Machine>, env: string)
    ensures var q := Assigned(p, targets, env);
      Assigned(q, AssignAll(targets, IdSet(targets), env), env) == q
  {
    var chosen := IdSet(targets);
    var again := AssignAll(targets, chosen, env);
    IdSetAssignAll(targets, chosen, env);
    AssignAllIdempotent(p.machines, chosen, env);
    forall t | t in again ensures env in t.environmentIds {
      var i :| 0 <= i < |again| && again[i] == t;
      assert targets[i] in targets;
    }
    AssignLogEmpty(again, env);
  }

  lemma PageAssignAll(ms: seq<Machine>, chosen: set<string>, env: string)
    ensures Page(AssignAll(ms, chosen, env)) == AssignAll(Page(ms), chosen, env)
  {
    if |ms| > PageSize {
      AssignAllPrefix(ms, chosen, env, PageSize);
    }
  }

  /** What the role variant lists on the assigned platform: the assigned targets. */
  lemma RoleTargetsAfterAssign(ms: seq<Machine>, chosen: set<string>, env: string, space: string, role: string)
    ensures WithRole(Page(MachinesIn(AssignAll(ms, chosen, env), space)), role)
      == AssignAll(WithRole(Page(MachinesIn(ms, space)), role), chosen, env)
  {
    FilterAssignAll(ms, chosen, env, (m: Machine) => m.spaceId == space);
    PageAssignAll(MachinesIn(ms, space), chosen, env);
    FilterAssignAll(Page(MachinesIn(ms, space)), chosen, env, (m: Machine) => role in m.roles);
  }

  /** Assignment leaves every (Id, Name) pair of the machine listing as it was. */
  lemma MachineListingAfterAssign(p: Platform, targets: seq<Machine>, env: string, space: string)
    ensures Listing(Assigned(p, targets, env), Machines, space) == Listing(p, Machines, space)
  {
    var chosen := IdSet(targets);
    FilterAssignAll(p.machines, chosen, env, (m: Machine) => m.spaceId == space);
    var before := MachinesIn(p.machines, space);
    var after := AssignAll(before, chosen, env);
    assert ItemsOf(after, MachineItem) == ItemsOf(before, MachineItem);
  }

  /** `assign_target_by_role` is idempotent: a second run with the same arguments, on the
      platform the first run left, changes nothing and returns the same outcome. */
  lemma AssignByRoleIdempotent(p: Platform, space: Option<string>, env: Option<string>, role: Option<string>)
    ensures var out := AssignByRoleEffect(p, space, env, role);
      AssignByRoleEffect(out.1, space, env, role) == out
  {
    if !(IsBlank(space) || IsBlank(env) || IsBlank(role)) && HasSpace(p, space.value) {
      var targets := WithRole(Page(MachinesIn(p.machines, space.value)), role.value);
      RoleTargetsAfterAssign(p.machines, IdSet(targets), env.value, space.value, role.value);
      ReassignSettled(p, targets, env.value);
    }
  }

  /** `assign_target_by_name` is idempotent. */
  lemma AssignByNameIdempotent(p: Platform, space: Option<string>, env: Option<string>, name: Option<string>)
    ensures var out := AssignByNameEffect(p, space, env, name);
      AssignByNameEffect(out.1, space, env, name) == out
  {
    if !(IsBlank(space) || IsBlank(env) || IsBlank(name)) {
      var found := ResourceIdOf(p, space, Machines, name);
      if found.Ok? && found.value.Some? {
        var out := AssignOneEffect(p, space.value, env.value, found.value.value);
        AssignOneIdempotent(p, space.value, env.value, found.value.value);
        AssignOneKeepsLookup(p, space, env.value, found.value.value, name);
        assert AssignByNameEffect(out.1, space, env, name) == AssignOneEffect(out.1, space.value, env.value, found.value.value);
      }
    }
  }

  /** Lines 303-321 again, on the platform they left: the target already holds `env`. */
  lemma AssignOneIdempotent(p: Platform, space: string, env: string, id: string)
    ensures var out := AssignOneEffect(p, space, env, id);
      AssignOneEffect(out.1, space, env, id) == out
  {
    if MachineById(p, space, id).Some? {
      var m := MachineById(p, space, id).value;
      var q := Assigned(p, [m], env);
      MachineByIdAfterAssign(p, space, id, env);
      assert AssignAll([m], IdSet([m]), env) == [WithEnvironment(m, env)];
      ReassignSettled(p, [m], env);
    }
  }

  /** After the resolved target gained `env` the lookup by id finds it with `env`. */
  lemma MachineByIdAfterAssign(p: Platform, space: string, id: string, env: string)
    requires MachineById(p, space, id).Some?
    ensures var m := MachineById(p, space, id).value;
      MachineById(Assigned(p, [m], env), space, id) == Some(WithEnvironment(m, env))
  {
    var m := MachineById(p, space, id).value;
    var keep := (x: Machine) => x.spaceId == space && x.id == id;
    FilterAssignAll(p.machines, IdSet([m]), env, keep);
    assert Filter(p.machines, keep)[0] == m;
  }

  /** Assigning one target does not change what a machine name resolves to. */
  lemma AssignOneKeepsLookup(p: Platform, space: Option<string>, env: string, id: string, name: Option<string>)
    requires IsNotBlank(space)
    ensures ResourceIdOf(AssignOneEffect(p, space.value, env, id).1, space, Machines, name) == ResourceIdOf(p, space, Machines, name)
  {
    if MachineById(p, space.value, id).Some? {
      var m := MachineById(p, space.value, id).value;
      MachineListingAfterAssign(p, [m], env, space.value);
    }
  }

  /** The role+environment filter gives the same verdict on a selected target after it gained
      `env`: it already held the existing environment, and adding keeps what was there. */
  lemma HoldersAfterAssign(ws: seq<Machine>, existing: Option<string>, env: string)
    requires UniqueBy(ws, MachineKey)
    ensures Holding(AssignAll(ws, IdSet(Holding(ws, existing)), env), existing)
      == AssignAll(Holding(ws, existing), IdSet(Holding(ws, existing)), env)
  {
    var chosen := IdSet(Holding(ws, existing));
    var keep := (m: Machine) => existing.Some? && existing.value in m.environmentIds;
    forall m | m in ws && m.id in chosen ensures keep(WithEnvironment(m, env)) == keep(m) {
      var t :| t in Holding(ws, existing) && t.id == m.id;
      var i :| 0 <= i < |ws| && ws[i] == m;
      UniqueIdentifies(ws, t, i);
    }
    FilterAssignAll(ws, chosen, env, keep);
  }

  /** `assign_target_by_role_and_environment` is idempotent. */
  lemma AssignByRoleAndEnvironmentIdempotent(p: Platform, space: Option<string>, env: Option<string>, role: Option<string>,
                                             existingName: Option<string>)
    requires Wellformed(p)
    ensures var out := AssignByRoleAndEnvironmentEffect(p, space, env, role, existingName);
      AssignByRoleAndEnvironmentEffect(out.1, space, env, role, existingName) == out
  {
    if !(IsBlank(space) || IsBlank(env) || IsBlank(role) || IsBlank(existingName))
      && ResourceIdOf(p, space, Environments, existingName).Ok?
    {
      var existing := ResourceIdOf(p, space, Environments, existingName).value;
      var ws := WithRole(Page(MachinesIn(p.machines, space.value)), role.value);
      var targets := Holding(ws, existing);
      PageUnique(p.machines, space.value);
      FilterUnique(Page(MachinesIn(p.machines, space.value)), (m: Machine) => role.value in m.roles, MachineKey);
      RoleTargetsAfterAssign(p.machines, IdSet(targets), env.value, space.value, role.value);
      HoldersAfterAssign(ws, existing, env.value);
      ReassignSettled(p, targets, env.value);
    }
  }

  /** On the unassigned platform no machine of the space that was listed holds `env` any more,
      when the whole space fitted in one page. */
  lemma UnassignClearsSpace(p: Platform, space: string, env: string)
    requires |MachinesIn(p.machines, space)| <= PageSize
    ensures var targets := Page(MachinesIn(p.machines, space)); var q := Unassigned(p, targets, env);
      forall x :: x in q.machines && x.spaceId == space ==> x.id in IdSet(targets) && env !in x.environmentIds
  {
    var targets := Page(MachinesIn(p.machines, space));
    var chosen := IdSet(targets);
    forall x | x in UnassignAll(p.machines, chosen, env) && x.spaceId == space
      ensures x.id in chosen && env !in x.environmentIds
    {
      if x in p.machines {
        assert x in targets;
      }
    }
  }

  /** A second unassignment of the same space and environment, on the platform the first left,
      changes nothing and writes nothing, when the whole space fitted in one page. */
  lemma UnassignSettled(p: Platform, space: string, env: string)
    requires |MachinesIn(p.machines, space)| <= PageSize
    ensures var q := Unassigned(p, Page(MachinesIn(p.machines, space)), env);
      Unassigned(q, Page(MachinesIn(q.machines, space)), env) == q
  {
    var q := Unassigned(p, Page(MachinesIn(p.machines, space)), env);
    var again := Page(MachinesIn(q.machines, space));
    SecondPassFindsNoHolder(p, space, env);
    UnassignAllNoHolders(q.machines, IdSet(again), env);
    UnassignLogEmpty(again, env);
    assert Unassigned(q, again, env) == q.(machines := q.machines, log := q.log + []);
  }

  /** After the first unassignment nothing the second one lists, or chooses by id, holds `env`. */
  lemma SecondPassFindsNoHolder(p: Platform, space: string, env: string)
    requires |MachinesIn(p.machines, space)| <= PageSize
    ensures var targets := Page(MachinesIn(p.machines, space)); var q := Unassigned(p, targets, env);
      var again := Page(MachinesIn(q.machines, space));
      && (forall y :: y in again ==> env !in y.environmentIds)
      && (forall x :: x in q.machines && x.id in IdSet(again) ==> env !in x.environmentIds)
  {
    var targets := Page(MachinesIn(p.machines, space));
    var q := Unassigned(p, targets, env);
    var again := Page(MachinesIn(q.machines, space));
    UnassignClearsSpace(p, space, env);
    PageMembers(q.machines, space);
    forall x | x in q.machines && x.id in IdSet(again) ensures env !in x.environmentIds {
      var y :| y in again && y.id == x.id;
      assert x.id in IdSet(targets);
    }
  }

  /** `unassign_target` is idempotent while the space's machines fit in one page: a second run
      finds no target holding the environment and writes nothing. */
  lemma UnassignIdempotent(p: Platform, space: Option<string>, branch: Option<string>)
    requires IsNotBlank(space) ==> |MachinesIn(p.machines, space.value)| <= PageSize
    ensures var out := UnassignEffect(p, space, branch);
      UnassignEffect(out.1, space, branch) == out
  {
    if !(IsBlank(space) || IsBlank(branch)) && ResourceIdOf(p, space, Environments, branch).Ok?
      && ResourceIdOf(p, space, Environments, branch).value.Some?
    {
      var env := ResourceIdOf(p, space, Environments, branch).value.value;
      var q := Unassigned(p, Page(MachinesIn(p.machines, space.value)), env);
      assert ResourceIdOf(q, space, Environments, branch) == ResourceIdOf(p, space, Environments, branch);
      UnassignSettled(p, space.value, env);
    }
  }

  /** With unique ids, a machine chosen by the role variant belongs to the space. */
  lemma RoleChosenInSpace(p: Platform, space: string, role: string, m: Machine)
    requires UniqueBy(p.machines, MachineKey) && m in p.machines
    requires m.id in IdSet(WithRole(Page(MachinesIn(p.machines, space)), role))
    ensures m.spaceId == space
  {
    var t :| t in WithRole(Page(MachinesIn(p.machines, space)), role) && t.id == m.id;
    PageMembers(p.machines, space);
    var i :| 0 <= i < |p.machines| && p.machines[i] == m;
    UniqueIdentifies(p.machines, t, i);
  }

  /** The ids the unassignment lists after an assignment are the ids of the whole space, when
      they fit in one page. */
  lemma SpaceIdsAfterAssign(p: Platform, targets: seq<Machine>, env: string, space: string)
    requires |MachinesIn(p.machines, space)| <= PageSize
    ensures IdSet(Page(MachinesIn(Assigned(p, targets, env).machines, space))) == IdSet(MachinesIn(p.machines, space))
  {
    FilterAssignAll(p.machines, IdSet(targets), env, (m: Machine) => m.spaceId == space);
    IdSetAssignAll(MachinesIn(p.machines, space), IdSet(targets), env);
  }

  /** Unassignment undoes assignment: when the space's machines fit in one page, the branch
      environment is new to every machine, and each machine of the space already holds some
      environment, assigning it to the role's targets and then unassigning it restores the
      machine list. */
  lemma UnassignUndoesAssignByRole(p: Platform, space: string, env: string, role: string)
    requires UniqueBy(p.machines, MachineKey) && |MachinesIn(p.machines, space)| <= PageSize
    requires forall m :: m in p.machines ==> env !in m.environmentIds
    requires forall m :: m in p.machines && m.spaceId == space ==> m.environmentIds != []
    ensures var targets := WithRole(Page(MachinesIn(p.machines, space)), role);
      var q := Assigned(p, targets, env);
      Unassigned(q, Page(MachinesIn(q.machines, space)), env).machines == p.machines
  {
    var targets := WithRole(Page(MachinesIn(p.machines, space)), role);
    var chosen := IdSet(targets);
    var all := IdSet(MachinesIn(p.machines, space));
    var after := AssignAll(p.machines, chosen, env);
    SpaceIdsAfterAssign(p, targets, env, space);
    assert chosen <= all by {
      PageMembers(p.machines, space);
    }
    assert UnassignAll(after, all, env) == UnassignAll(after, chosen, env) by {
      forall m | m in after && m.id in all && m.id !in chosen ensures env !in m.environmentIds {
        var i :| 0 <= i < |after| && after[i] == m;
        assert p.machines[i] in p.machines;
      }
      UnassignAllChosenHolders(after, chosen, all, env);
    }
    assert UnassignAll(after, chosen, env) == p.machines by {
      forall m | m in p.machines && m.id in chosen ensures env !in m.environmentIds && m.environmentIds != [] {
        RoleChosenInSpace(p, space, role, m);
      }
      UnassignAllUndoesAssignAll(p.machines, chosen, env);
    }
  }
}
