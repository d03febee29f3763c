/** What (un)assigning an environment does to the deployment targets: the add-if-absent and
    remove-everywhere updates of a machine's `EnvironmentIds`, lifted to the whole machine list. */
module Targets {
  import opened Wrappers
  import opened Collections
  import opened Entities

  /** A target gains `env` at the end of its environment list unless it already holds it
      (lines 312-313, 330-331, 352-353). */
  function WithEnvironment(m: Machine, env: string): (r: Machine)
    ensures r.id == m.id && r.spaceId == m.spaceId && r.name == m.name && r.roles == m.roles
    ensures forall e :: e in r.environmentIds <==> e in m.environmentIds || e == env
    ensures m.environmentIds <= r.environmentIds
    ensures env in m.environmentIds <==> r == m
  {
    if env in m.environmentIds then m else m.(environmentIds := m.environmentIds + [env])
  }

  /** Adding never duplicates an environment id. */
  lemma WithEnvironmentNoDuplicates(m: Machine, env: string)
    requires NoDuplicates(m.environmentIds)
    ensures NoDuplicates(WithEnvironment(m, env).environmentIds)
  {
    var ids := WithEnvironment(m, env).environmentIds;
    if env !in m.environmentIds {
      forall i, j | 0 <= i < j < |ids| ensures ids[i] != ids[j] {
        if j == |m.environmentIds| {
          assert ids[i] == m.environmentIds[i];
        } else {
          assert ids[i] == m.environmentIds[i] && ids[j] == m.environmentIds[j];
        }
      }
    }
  }

  /** Adding twice is adding once. */
  lemma WithEnvironmentIdempotent(m: Machine, env: string)
    ensures WithEnvironment(WithEnvironment(m, env), env) == WithEnvironment(m, env)
  {
  }

  /** The machine list after every machine whose id is in `chosen` was given `env`. */
  function AssignAll(ms: seq<Machine>, chosen: set<string>, env: string): seq<Machine> {
    seq(|ms|, i requires 0 <= i < |ms| => if ms[i].id in chosen then WithEnvironment(ms[i], env) else ms[i])
  }

  /** Assignment keeps the list's length, order and ids; a chosen machine ends up holding `env`,
      without a duplicate, and keeps the environments it had in their order; every other machine is
      exactly as it was. */
  lemma AssignAllEffect(ms: seq<Machine>, chosen: set<string>, env: string, i: nat)
    requires i < |ms|
    ensures |AssignAll(ms, chosen, env)| == |ms|
    ensures var r := AssignAll(ms, chosen, env)[i];
      && r.id == ms[i].id && r.roles == ms[i].roles && r.name == ms[i].name && r.spaceId == ms[i].spaceId
      && (ms[i].id in chosen ==>
            env in r.environmentIds && ms[i].environmentIds <= r.environmentIds
            && (NoDuplicates(ms[i].environmentIds) ==> NoDuplicates(r.environmentIds)))
      && (ms[i].id in chosen && env in ms[i].environmentIds ==> r == ms[i])
      && (ms[i].id !in chosen ==> r == ms[i])
  {
    if ms[i].id in chosen && NoDuplicates(ms[i].environmentIds) {
      WithEnvironmentNoDuplicates(ms[i], env);
    }
  }

  /** Assigning again with the same selection changes nothing. */
  lemma AssignAllIdempotent(ms: seq<Machine>, chosen: set<string>, env: string)
    ensures AssignAll(AssignAll(ms, chosen, env), chosen, env) == AssignAll(ms, chosen, env)
  {
    var once := AssignAll(ms, chosen, env);
    forall i | 0 <= i < |ms| ensures AssignAll(once, chosen, env)[i] == once[i] {
      WithEnvironmentIdempotent(ms[i], env);
    }
  }

  /** Choosing machines that already hold `env` as well makes no difference. */
  lemma AssignAllIgnoresAssigned(ms: seq<Machine>, chosen: set<string>, extra: set<string>, env: string)
    requires forall m :: m in ms && m.id in extra ==> env in m.environmentIds
    ensures AssignAll(ms, chosen + extra, env) == AssignAll(ms, chosen, env)
  {
    forall i | 0 <= i < |ms| ensures AssignAll(ms, chosen + extra, env)[i] == AssignAll(ms, chosen, env)[i] {
      assert ms[i] in ms;
    }
  }

  lemma AssignAllAppend(a: seq<Machine>, b: seq<Machine>, chosen: set<string>, env: string)
    ensures AssignAll(a + b, chosen, env) == AssignAll(a, chosen, env) + AssignAll(b, chosen, env)
  {
    var l, r := AssignAll(a + b, chosen, env), AssignAll(a, chosen, env) + AssignAll(b, chosen, env);
    forall i | 0 <= i < |l| ensures l[i] == r[i] {
      if i < |a| {
        assert (a + b)[i] == a[i];
      } else {
        assert (a + b)[i] == b[i - |a|];
      }
    }
  }

  /** Assignment keeps what a listing filters on: filtering the assigned list gives the assigned
      filtered list, provided the filter's verdict on a chosen machine does not change when it
      gains `env`. */
  lemma {:induction false} FilterAssignAll(ms: seq<Machine>, chosen: set<string>, env: string, keep: Machine -> bool)
    requires forall m :: m in ms && m.id in chosen ==> keep(WithEnvironment(m, env)) == keep(m)
    ensures Filter(AssignAll(ms, chosen, env), keep) == AssignAll(Filter(ms, keep), chosen, env)
  {
    if ms != [] {
      var a := AssignAll(ms, chosen, env);
      var x := a[0];
      assert a == [x] + a[1..];
      assert a[1..] == AssignAll(ms[1..], chosen, env);
      assert forall m :: m in ms[1..] ==> m in ms;
      FilterAssignAll(ms[1..], chosen, env, keep);
      assert keep(x) == keep(ms[0]);
      var rest := Filter(ms[1..], keep);
      if keep(ms[0]) {
        assert Filter(a, keep) == [x] + AssignAll(rest, chosen, env);
        assert Filter(ms, keep) == [ms[0]] + rest;
        AssignAllAppend([ms[0]], rest, chosen, env);
      } else {
        assert Filter(a, keep) == AssignAll(rest, chosen, env);
        assert Filter(ms, keep) == rest;
      }
    }
  }

  /** Any prefix of the assigned list is the assigned prefix. */
  lemma AssignAllPrefix(ms: seq<Machine>, chosen: set<string>, env: string, n: nat)
    requires n <= |ms|
    ensures AssignAll(ms, chosen, env)[..n] == AssignAll(ms[..n], chosen, env)
  {
  }

  /** The machine list after a PUT of `m`: the machine with `m`'s id is replaced by `m`. */
  function Replace(ms: seq<Machine>, m: Machine): (r: seq<Machine>)
    ensures |r| == |ms|
  {
    seq(|ms|, i requires 0 <= i < |ms| => if ms[i].id == m.id then m else ms[i])
  }

  /** The machine list after a DELETE of machine `id`. */
  function RemoveMachine(ms: seq<Machine>, id: string): seq<Machine> {
    Filter(ms, (x: Machine) => x.id != id)
  }

  /** With unique ids, the machine carrying a listed machine's id is that machine. */
  lemma UniqueIdentifies(ms: seq<Machine>, t: Machine, i: nat)
    requires UniqueBy(ms, MachineKey) && t in ms && i < |ms| && ms[i].id == t.id
    ensures ms[i] == t
  {
    var j :| 0 <= j < |ms| && ms[j] == t;
    assert MachineKey(ms[i]) == MachineKey(ms[j]);
  }

  /** One pass of an assignment loop: PUTting a listed machine with `env` added, or skipping it
      when it holds `env` already, turns the list for selection `done` into the list for
      `done + {t.id}`. */
  lemma AssignStep(ms: seq<Machine>, done: set<string>, t: Machine, env: string)
    requires UniqueBy(ms, MachineKey) && t in ms
    ensures env !in t.environmentIds ==>
      Replace(AssignAll(ms, done, env), WithEnvironment(t, env)) == AssignAll(ms, done + {t.id}, env)
    ensures env in t.environmentIds ==> AssignAll(ms, done + {t.id}, env) == AssignAll(ms, done, env)
  {
    forall i | 0 <= i < |ms| && ms[i].id == t.id ensures ms[i] == t {
      UniqueIdentifies(ms, t, i);
    }
  }

  /** A target without any occurrence of `env` (line 511). */
  function WithoutEnvironment(m: Machine, env: string): (r: Machine)
    ensures r.id == m.id && r.spaceId == m.spaceId && r.name == m.name && r.roles == m.roles
    ensures env !in r.environmentIds
    ensures forall e :: e in r.environmentIds <==> e in m.environmentIds && e != env
  {
    m.(environmentIds := RemoveAll(m.environmentIds, env))
  }

  /** `env` is the only environment `m` is assigned to: once it is removed nothing is left. */
  predicate OnlyIn(m: Machine, env: string) {
    env in m.environmentIds && RemoveAll(m.environmentIds, env) == []
  }

  /** What unassignment leaves of one machine: nothing when it was chosen and held only `env`,
      the machine without `env` when it was chosen and held `env` besides others, else the
      machine itself. */
  function UnassignOne(m: Machine, chosen: set<string>, env: string): (r: seq<Machine>)
    ensures forall x :: x in r ==> x.id == m.id
  {
    if m.id in chosen && env in m.environmentIds then
      (if OnlyIn(m, env) then [] else [WithoutEnvironment(m, env)])
    else [m]
  }

  /** The machine list after unassigning `env` from every chosen machine (lines 509-526, with the
      empty-machine deletion the script intends): a chosen machine that holds `env` loses every
      occurrence of it and is deleted when nothing is left; every other machine is untouched. */
  function UnassignAll(ms: seq<Machine>, chosen: set<string>, env: string): (r: seq<Machine>)
    ensures |r| <= |ms|
    ensures forall x :: x in r && x.id in chosen ==> env !in x.environmentIds
    ensures forall x :: x in r ==> x in ms || exists m :: m in ms && m.id in chosen && x == WithoutEnvironment(m, env)
    ensures forall m :: m in ms && !(m.id in chosen && env in m.environmentIds) ==> m in r
    ensures forall m :: m in ms && m.id in chosen && env in m.environmentIds && !OnlyIn(m, env) ==> WithoutEnvironment(m, env) in r
  {
    if ms == [] then []
    else
      assert forall x :: x in ms[1..] ==> x in ms;
      UnassignOne(ms[0], chosen, env) + UnassignAll(ms[1..], chosen, env)
  }

  /** Unassigning from no machine changes nothing. */
  lemma {:induction false} UnassignAllNone(ms: seq<Machine>, env: string)
    ensures UnassignAll(ms, {}, env) == ms
  {
    if ms != [] {
      UnassignAllNone(ms[1..], env);
      HeadTail(ms);
    }
  }

  /** Unassigning from machines none of which holds `env` changes nothing. */
  lemma {:induction false} UnassignAllNoHolders(ms: seq<Machine>, chosen: set<string>, env: string)
    requires forall m :: m in ms && m.id in chosen ==> env !in m.environmentIds
    ensures UnassignAll(ms, chosen, env) == ms
  {
    if ms != [] {
      assert forall m :: m in ms[1..] ==> m in ms;
      UnassignAllNoHolders(ms[1..], chosen, env);
      HeadTail(ms);
    }
  }

  /** Unassignment undoes assignment for a machine that lacked `env` and held some other
      environment; a machine that held no environment at all is deleted instead. */
  lemma UnassignUndoesAssign(m: Machine, env: string)
    requires env !in m.environmentIds
    ensures m.environmentIds != [] ==> WithoutEnvironment(WithEnvironment(m, env), env) == m
    ensures OnlyIn(WithEnvironment(m, env), env) <==> m.environmentIds == []
  {
    var keep := (y: string) => y != env;
    FilterAppend(m.environmentIds, [env], keep);
    FilterKeepsAll(m.environmentIds, keep);
  }

  /** The same on machine lists: unassigning the chosen machines after assigning them restores
      the list, when every chosen machine lacked `env` and held some other environment. */
  lemma {:induction false} UnassignAllUndoesAssignAll(ms: seq<Machine>, chosen: set<string>, env: string)
    requires forall m :: m in ms && m.id in chosen ==> env !in m.environmentIds && m.environmentIds != []
    ensures UnassignAll(AssignAll(ms, chosen, env), chosen, env) == ms
  {
    if ms != [] {
      var a := AssignAll(ms, chosen, env);
      assert a[0] == (if ms[0].id in chosen then WithEnvironment(ms[0], env) else ms[0]);
      assert a[1..] == AssignAll(ms[1..], chosen, env);
      if ms[0].id in chosen {
        UnassignUndoesAssign(ms[0], env);
      }
      assert UnassignOne(a[0], chosen, env) == [ms[0]];
      assert forall m :: m in ms[1..] ==> m in ms;
      UnassignAllUndoesAssignAll(ms[1..], chosen, env);
      HeadTail(ms);
    }
  }

  /** Every machine left carries the id of some input machine. */
  lemma {:induction false} UnassignAllIds(ms: seq<Machine>, chosen: set<string>, env: string)
    ensures forall x :: x in UnassignAll(ms, chosen, env) ==> exists k :: 0 <= k < |ms| && ms[k].id == x.id
  {
    if ms != [] {
      UnassignAllIds(ms[1..], chosen, env);
      forall x | x in UnassignAll(ms, chosen, env) ensures exists k :: 0 <= k < |ms| && ms[k].id == x.id {
        if x in UnassignOne(ms[0], chosen, env) {
          assert ms[0].id == x.id;
        } else {
          var k :| 0 <= k < |ms[1..]| && ms[1..][k].id == x.id;
          assert ms[k + 1].id == x.id;
        }
      }
    }
  }

  /** With unique ids, a chosen machine whose only environment was `env` is gone. */
  lemma {:induction false} UnassignAllDeletes(ms: seq<Machine>, chosen: set<string>, env: string, m: Machine)
    requires UniqueBy(ms, MachineKey) && m in ms && m.id in chosen && OnlyIn(m, env)
    ensures forall x :: x in UnassignAll(ms, chosen, env) ==> x.id != m.id
  {
    if ms[0] == m {
      UniqueHeadAlone(ms);
      UnassignAllIds(ms[1..], chosen, env);
    } else {
      UniqueTail(ms);
      UniqueNotHead(ms, m);
      UnassignAllDeletes(ms[1..], chosen, env, m);
    }
  }

  lemma UniqueTail(ms: seq<Machine>)
    requires UniqueBy(ms, MachineKey) && ms != []
    ensures UniqueBy(ms[1..], MachineKey)
  {
    forall i, j | 0 <= i < j < |ms[1..]| ensures MachineKey(ms[1..][i]) != MachineKey(ms[1..][j]) {
      assert ms[1..][i] == ms[i + 1] && ms[1..][j] == ms[j + 1];
    }
  }

  lemma UniqueHeadAlone(ms: seq<Machine>)
    requires UniqueBy(ms, MachineKey) && ms != []
    ensures forall k :: 1 <= k < |ms| ==> ms[k].id != ms[0].id
    ensures forall k :: 0 <= k < |ms[1..]| ==> ms[1..][k].id != ms[0].id
  {
    forall k | 1 <= k < |ms| ensures ms[k].id != ms[0].id {
      assert MachineKey(ms[0]) != MachineKey(ms[k]);
    }
  }

  lemma UniqueNotHead(ms: seq<Machine>, m: Machine)
    requires UniqueBy(ms, MachineKey) && m in ms && m != ms[0]
    ensures m in ms[1..] && m.id != ms[0].id
  {
    var k :| 0 <= k < |ms| && ms[k] == m;
    assert k != 0;
    assert MachineKey(ms[0]) != MachineKey(ms[k]);
    assert ms[1..][k - 1] == m;
  }

  /** Choosing an extra id changes nothing when no machine carrying it holds `env`. */
  lemma {:induction false} UnassignAllSelectsOnlyHolders(ms: seq<Machine>, done: set<string>, id: string, env: string)
    requires forall x :: x in ms && x.id == id ==> env !in x.environmentIds
    ensures UnassignAll(ms, done + {id}, env) == UnassignAll(ms, done, env)
  {
    if ms != [] {
      assert forall x :: x in ms[1..] ==> x in ms;
      UnassignAllSelectsOnlyHolders(ms[1..], done, id, env);
      assert UnassignOne(ms[0], done + {id}, env) == UnassignOne(ms[0], done, env);
    }
  }

  /** Choosing more ids changes nothing when no machine carrying one of the extra ids holds `env`. */
  lemma {:induction false} UnassignAllChosenHolders(ms: seq<Machine>, chosen: set<string>, all: set<string>, env: string)
    requires chosen <= all
    requires forall m :: m in ms && m.id in all && m.id !in chosen ==> env !in m.environmentIds
    ensures UnassignAll(ms, all, env) == UnassignAll(ms, chosen, env)
  {
    if ms != [] {
      assert forall x :: x in ms[1..] ==> x in ms;
      UnassignAllChosenHolders(ms[1..], chosen, all, env);
      assert UnassignOne(ms[0], all, env) == UnassignOne(ms[0], chosen, env);
    }
  }

  /** One pass of the unassignment loop for a listed machine `t` that lacks `env`: skipping it
      leaves the list as it is. */
  lemma UnassignSkipStep(ms: seq<Machine>, done: set<string>, t: Machine, env: string)
    requires UniqueBy(ms, MachineKey) && t in ms && env !in t.environmentIds
    ensures UnassignAll(ms, done + {t.id}, env) == UnassignAll(ms, done, env)
  {
    forall x | x in ms && x.id == t.id ensures env !in x.environmentIds {
      var i :| 0 <= i < |ms| && ms[i] == x;
      UniqueIdentifies(ms, t, i);
    }
    UnassignAllSelectsOnlyHolders(ms, done, t.id, env);
  }

  /** One pass of the unassignment loop for a listed machine `t`, not handled yet, whose only
      environment is `env`: deleting it turns the list for `done` into the list for `done + {t.id}`. */
  lemma {:induction false} UnassignDeleteStep(ms: seq<Machine>, done: set<string>, t: Machine, env: string)
    requires UniqueBy(ms, MachineKey) && t in ms && t.id !in done && OnlyIn(t, env)
    ensures UnassignAll(ms, done + {t.id}, env) == RemoveMachine(UnassignAll(ms, done, env), t.id)
  {
    var keep := (x: Machine) => x.id != t.id;
    var rest := UnassignAll(ms[1..], done, env);
    UniqueTail(ms);
    if ms[0] == t {
      UniqueHeadAlone(ms);
      UnassignAllSelectsOnlyHolders(ms[1..], done, t.id, env);
      UnassignAllIds(ms[1..], done, env);
      FilterKeepsAll(rest, keep);
      FilterAppend([t], rest, keep);
    } else {
      UniqueNotHead(ms, t);
      UnassignDeleteStep(ms[1..], done, t, env);
      var head := UnassignOne(ms[0], done, env);
      assert UnassignOne(ms[0], done + {t.id}, env) == head;
      FilterAppend(head, rest, keep);
      FilterKeepsAll(head, keep);
    }
  }

  /** One pass of the unassignment loop for a listed machine `t`, not handled yet, that holds `env`
      besides other environments: PUTting it without `env` turns the list for `done` into the list
      for `done + {t.id}`. */
  lemma {:induction false} UnassignPutStep(ms: seq<Machine>, done: set<string>, t: Machine, env: string)
    requires UniqueBy(ms, MachineKey) && t in ms && t.id !in done && env in t.environmentIds && !OnlyIn(t, env)
    ensures UnassignAll(ms, done + {t.id}, env) == Replace(UnassignAll(ms, done, env), WithoutEnvironment(t, env))
  {
    var rest := UnassignAll(ms[1..], done, env);
    var put := WithoutEnvironment(t, env);
    UniqueTail(ms);
    if ms[0] == t {
      UniqueHeadAlone(ms);
      UnassignAllSelectsOnlyHolders(ms[1..], done, t.id, env);
      UnassignAllIds(ms[1..], done, env);
      ReplaceAbsent(rest, put);
      ReplaceAppend([t], rest, put);
    } else {
      UniqueNotHead(ms, t);
      UnassignPutStep(ms[1..], done, t, env);
      var head := UnassignOne(ms[0], done, env);
      UnassignOneOther(ms[0], done, t.id, env);
      ReplaceAppend(head, rest, put);
      ReplaceAbsent(head, put);
    }
  }

  /** Choosing one more machine does not change what happens to another. */
  lemma UnassignOneOther(m: Machine, done: set<string>, id: string, env: string)
    requires m.id != id
    ensures UnassignOne(m, done + {id}, env) == UnassignOne(m, done, env)
  {
  }

  lemma ReplaceAbsent(ms: seq<Machine>, m: Machine)
    requires forall x :: x in ms ==> x.id != m.id
    ensures Replace(ms, m) == ms
  {
    forall i | 0 <= i < |ms| ensures Replace(ms, m)[i] == ms[i] {
      assert ms[i] in ms;
    }
  }

  lemma ReplaceAppend(a: seq<Machine>, b: seq<Machine>, m: Machine)
    ensures Replace(a + b, m) == Replace(a, m) + Replace(b, m)
  {
  }

  /** The unassignment loop as written (lines 509-526 with `delete_target(target["Id"])` called
      with one argument): the records PUT back, in order, and whether the loop died with the
      `TypeError` that the one-argument call raises when a target would be left empty. */
  function UnassignAsWritten(targets: seq<Machine>, env: string): (seq<Machine>, bool) {
    if targets == [] then ([], false)
    else
      var t := targets[0];
      if env in t.environmentIds then
        if OnlyIn(t, env) then ([], true)
        else
          var rest := UnassignAsWritten(targets[1..], env);
          ([WithoutEnvironment(t, env)] + rest.0, rest.1)
      else UnassignAsWritten(targets[1..], env)
  }

  /** As written, unassignment dies exactly when some listed target had `env` as its only
      environment. */
  lemma {:induction false} UnassignAsWrittenCrashes(targets: seq<Machine>, env: string)
    ensures UnassignAsWritten(targets, env).1 <==> exists t :: t in targets && OnlyIn(t, env)
  {
    if targets != [] {
      UnassignAsWrittenCrashes(targets[1..], env);
      assert forall t :: t in targets <==> t == targets[0] || t in targets[1..];
    }
  }

  /** A target assigned only to the branch environment: as written the teardown dies on it, with
      the intended deletion it is removed from the machine list. */
  lemma SoleEnvironmentTarget()
    ensures var web := Machine("Machines-1", "Spaces-1", "web", ["web"], ["Environments-1"]);
      && UnassignAsWritten([web], "Environments-1") == ([], true)
      && UnassignAll([web], {"Machines-1"}, "Environments-1") == []
  {
    var web := Machine("Machines-1", "Spaces-1", "web", ["web"], ["Environments-1"]);
    assert RemoveAll(web.environmentIds, "Environments-1") == [];
    assert OnlyIn(web, "Environments-1");
  }
}
