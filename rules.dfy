/** Channel rule generation: the packages of a deployment process (`find_packages`) and the
    version rules of a branch channel (the `map` inside `create_channel`). */
module Rules {
  import opened Wrappers
  import opened Text
  import opened Entities

  /** The version-tag pattern of a branch channel, `'^' + branch_name + '.*$'`: any release
      version that starts with the branch name. */
  function BranchTag(branch: string): (t: string)
    ensures |t| == |branch| + 4
    ensures t[0] == '^' && t[1..|t| - 3] == branch && t[|t| - 3..] == ".*$"
  {
    "^" + branch + ".*$"
  }

  /** The entries for the packages of one action of the step called `stepName`, in order. */
  function Entries(stepName: string, packages: seq<string>): seq<ActionPackage> {
    seq(|packages|, k requires 0 <= k < |packages| => ActionPackage(stepName, Some(packages[k])))
  }

  /** The entries for every package of every action of one step, action by action. */
  function ActionsPackages(stepName: string, actions: seq<StepAction>): seq<ActionPackage> {
    if actions == [] then []
    else ActionsPackages(stepName, actions[..|actions| - 1]) + Entries(stepName, actions[|actions| - 1].packages)
  }

  /** `find_packages` on a fetched process: one `{DeploymentAction: step name, PackageReference:
      package name}` entry per package of each action of each step, in process order. */
  function PackagesOf(process: seq<DeploymentStep>): seq<ActionPackage> {
    if process == [] then []
    else PackagesOf(process[..|process| - 1]) + ActionsPackages(process[|process| - 1].name, process[|process| - 1].actions)
  }

  /** The number of packages of an action list, counted independently of the entries. */
  function ActionsPackageCount(actions: seq<StepAction>): nat {
    if actions == [] then 0 else |actions[0].packages| + ActionsPackageCount(actions[1..])
  }

  /** The number of (step, action, package) triples of a process. */
  function PackageCount(process: seq<DeploymentStep>): nat {
    if process == [] then 0 else ActionsPackageCount(process[0].actions) + PackageCount(process[1..])
  }

  /** The body of `find_packages` (lines 250-256): three nested loops that append one entry per
      package. */
  method CollectPackages(process: seq<DeploymentStep>) returns (packages: seq<ActionPackage>)
    ensures packages == PackagesOf(process)
  {
    packages := [];
    for i := 0 to |process|
      invariant packages == PackagesOf(process[..i])
    {
      var step := process[i];
      var name := step.name;
      for j := 0 to |step.actions|
        invariant packages == PackagesOf(process[..i]) + ActionsPackages(name, step.actions[..j])
      {
        var action := step.actions[j];
        for k := 0 to |action.packages|
          invariant packages == PackagesOf(process[..i]) + ActionsPackages(name, step.actions[..j]) + Entries(name, action.packages[..k])
        {
          assert Entries(name, action.packages[..k + 1]) == Entries(name, action.packages[..k]) + [ActionPackage(name, Some(action.packages[k]))];
          packages := packages + [ActionPackage(name, Some(action.packages[k]))];
        }
        assert step.actions[..j + 1][..j] == step.actions[..j];
        assert action.packages[..|action.packages|] == action.packages;
      }
      assert process[..i + 1][..i] == process[..i];
      assert step.actions[..|step.actions|] == step.actions;
    }
    assert process[..|process|] == process;
  }

  lemma {:induction false} ActionsPackagesAppend(name: string, a: seq<StepAction>, b: seq<StepAction>)
    ensures ActionsPackages(name, a + b) == ActionsPackages(name, a) + ActionsPackages(name, b)
  {
    if b != [] {
      assert (a + b)[..|a + b| - 1] == a + b[..|b| - 1];
      ActionsPackagesAppend(name, a, b[..|b| - 1]);
    } else {
      assert a + b == a;
    }
  }

  /** Entries come out in process order: the entries of two processes run one after the other are
      those of the first followed by those of the second. */
  lemma {:induction false} PackagesOfAppend(p: seq<DeploymentStep>, q: seq<DeploymentStep>)
    ensures PackagesOf(p + q) == PackagesOf(p) + PackagesOf(q)
  {
    if q != [] {
      assert (p + q)[..|p + q| - 1] == p + q[..|q| - 1];
      PackagesOfAppend(p, q[..|q| - 1]);
    } else {
      assert p + q == p;
    }
  }

  lemma {:induction false} ActionsPackagesLength(name: string, actions: seq<StepAction>)
    ensures |ActionsPackages(name, actions)| == ActionsPackageCount(actions)
  {
    if actions != [] {
      ActionsPackagesAppend(name, [actions[0]], actions[1..]);
      assert [actions[0]] + actions[1..] == actions;
      assert ActionsPackages(name, [actions[0]]) == Entries(name, actions[0].packages) by {
        assert [actions[0]][..0] == [];
      }
      ActionsPackagesLength(name, actions[1..]);
    }
  }

  /** There is exactly one entry per (step, action, package) triple of the process. */
  lemma {:induction false} PackagesOfLength(process: seq<DeploymentStep>)
    ensures |PackagesOf(process)| == PackageCount(process)
  {
    if process != [] {
      PackagesOfAppend([process[0]], process[1..]);
      assert [process[0]] + process[1..] == process;
      assert PackagesOf([process[0]]) == ActionsPackages(process[0].name, process[0].actions) by {
        assert [process[0]][..0] == [];
      }
      ActionsPackagesLength(process[0].name, process[0].actions);
      PackagesOfLength(process[1..]);
    }
  }

  lemma {:induction false} ActionsPackagesCovers(name: string, actions: seq<StepAction>, j: nat, k: nat)
    requires j < |actions| && k < |actions[j].packages|
    ensures ActionPackage(name, Some(actions[j].packages[k])) in ActionsPackages(name, actions)
  {
    var last := |actions| - 1;
    if j == last {
      assert Entries(name, actions[j].packages)[k] == ActionPackage(name, Some(actions[j].packages[k]));
    } else {
      assert actions[..last][j] == actions[j];
      ActionsPackagesCovers(name, actions[..last], j, k);
    }
  }

  /** Every package of every action of every step has its entry, under its step's name. */
  lemma {:induction false} PackagesOfCovers(process: seq<DeploymentStep>, i: nat, j: nat, k: nat)
    requires i < |process| && j < |process[i].actions| && k < |process[i].actions[j].packages|
    ensures ActionPackage(process[i].name, Some(process[i].actions[j].packages[k])) in PackagesOf(process)
  {
    var last := |process| - 1;
    if i == last {
      ActionsPackagesCovers(process[i].name, process[i].actions, j, k);
    } else {
      assert process[..last][i] == process[i];
      PackagesOfCovers(process[..last], i, j, k);
    }
  }

  lemma {:induction false} ActionsPackagesSound(name: string, actions: seq<StepAction>, e: ActionPackage)
    requires e in ActionsPackages(name, actions)
    ensures e.deploymentAction == name
    ensures exists j, k :: 0 <= j < |actions| && 0 <= k < |actions[j].packages| && e.packageReference == Some(actions[j].packages[k])
  {
    var last := |actions| - 1;
    if e in ActionsPackages(name, actions[..last]) {
      ActionsPackagesSound(name, actions[..last], e);
      var j, k :| 0 <= j < |actions[..last]| && 0 <= k < |actions[..last][j].packages| && e.packageReference == Some(actions[..last][j].packages[k]);
      assert actions[..last][j] == actions[j];
    } else {
      var k :| 0 <= k < |actions[last].packages| && Entries(name, actions[last].packages)[k] == e;
      assert e.packageReference == Some(actions[last].packages[k]);
    }
  }

  /** Every entry names a package that some action of the named step deploys: nothing is invented. */
  lemma {:induction false} PackagesOfSound(process: seq<DeploymentStep>, e: ActionPackage)
    requires e in PackagesOf(process)
    ensures exists i, j, k :: (0 <= i < |process| && 0 <= j < |process[i].actions| && 0 <= k < |process[i].actions[j].packages|
      && e == ActionPackage(process[i].name, Some(process[i].actions[j].packages[k])))
  {
    var last := |process| - 1;
    if e in PackagesOf(process[..last]) {
      PackagesOfSound(process[..last], e);
      var i, j, k :| 0 <= i < |process[..last]| && 0 <= j < |process[..last][i].actions| && 0 <= k < |process[..last][i].actions[j].packages|
        && e == ActionPackage(process[..last][i].name, Some(process[..last][i].actions[j].packages[k]));
      assert process[..last][i] == process[i];
    } else {
      ActionsPackagesSound(process[last].name, process[last].actions, e);
      var j, k :| 0 <= j < |process[last].actions| && 0 <= k < |process[last].actions[j].packages| && e.packageReference == Some(process[last].actions[j].packages[k]);
      assert e == ActionPackage(process[last].name, Some(process[last].actions[j].packages[k]));
    }
  }

  /** The entries a new channel's rules are built from (lines 271-272): the whole process when the
      step name is `None` or strips to nothing, otherwise the one given step/package pair. */
  function ChannelPackages(stepName: Option<string>, packageName: Option<string>, process: seq<DeploymentStep>): seq<ActionPackage> {
    if stepName.None? || |Strip(stepName.value)| == 0 then PackagesOf(process)
    else [ActionPackage(stepName.value, packageName)]
  }

  /** The rule for one entry (lines 274-277). */
  function RuleFor(branch: string, entry: ActionPackage): ChannelRule {
    ChannelRule(BranchTag(branch), [entry.deploymentAction], [entry])
  }

  /** `list(map(lambda x: …, packages))`: one rule per entry, in order. */
  function RulesFor(branch: string, entries: seq<ActionPackage>): seq<ChannelRule> {
    seq(|entries|, i requires 0 <= i < |entries| => RuleFor(branch, entries[i]))
  }

  /** Rule generation. With a non-blank step name the channel gets exactly one rule, for that step
      and the given package; otherwise one rule per package of each action of each step, in process
      order. Every rule carries the branch tag, names its entry's step as its only action and holds
      exactly that entry. */
  lemma ChannelRules(branch: string, stepName: Option<string>, packageName: Option<string>, process: seq<DeploymentStep>)
    ensures var rules := RulesFor(branch, ChannelPackages(stepName, packageName, process));
      && (IsNotBlank(stepName) ==> rules == [ChannelRule(BranchTag(branch), [stepName.value], [ActionPackage(stepName.value, packageName)])])
      && (IsBlank(stepName) ==>
            |rules| == PackageCount(process) && forall i :: 0 <= i < |rules| ==> rules[i].actionPackages == [PackagesOf(process)[i]])
      && forall r :: r in rules ==> r.tag == BranchTag(branch) && |r.actionPackages| == 1 && r.actions == [r.actionPackages[0].deploymentAction]
  {
    var entries := ChannelPackages(stepName, packageName, process);
    var rules := RulesFor(branch, entries);
    BlankIffStripsToEmpty(stepName);
    RulesShape(branch, entries);
    if IsNotBlank(stepName) {
      assert entries == [ActionPackage(stepName.value, packageName)];
      assert rules == [RuleFor(branch, entries[0])];
    } else {
      assert entries == PackagesOf(process);
      PackagesOfLength(process);
    }
  }

  /** One rule per entry, each holding exactly its entry under the branch tag. */
  lemma RulesShape(branch: string, entries: seq<ActionPackage>)
    ensures var rules := RulesFor(branch, entries);
      && |rules| == |entries|
      && (forall i :: 0 <= i < |rules| ==> rules[i].actionPackages == [entries[i]])
      && forall r :: r in rules ==> r.tag == BranchTag(branch) && |r.actionPackages| == 1 && r.actions == [r.actionPackages[0].deploymentAction]
  {
  }

  /** The rule tag of branch `feature/foo` is literally `^feature/foo.*$`. */
  lemma FeatureFooTag()
    ensures BranchTag("feature/foo") == "^feature/foo.*$"
  {
  }
}
