/** Find-or-create provisioning of a branch's environment, lifecycle and channel
    (`create_environment`, `create_lifecycle`, `find_packages`, `create_channel`). */
module Provisioner {
  import opened Wrappers
  import opened Collections
  import opened Text
  import opened Entities
  import opened Lookup
  import opened Rules
  import opened Server
  import opened Resolver

  /** Both retention policies of a branch lifecycle: keep everything, forever. */
  const KeepForever := RetentionPolicy(true, 0, "Days")

  /** The lifecycle `create_lifecycle` posts (lines 160-182); its `Id` is left to the platform. */
  function LifecycleDraft(space: string, environment: string, branch: string): Lifecycle {
    Lifecycle("", space, branch, [Phase(branch, [environment], [], 0, false)], KeepForever, KeepForever)
  }

  /** The channel `create_channel` posts (lines 280-287). */
  function ChannelDraft(space: string, project: string, lifecycle: string, branch: string, rules: seq<ChannelRule>): Channel {
    Channel("", space, project, branch, false, lifecycle, rules)
  }

  /** `create_environment` when every request is answered (lines 128-147): the id of the first
      environment named like the branch, or else of a new one posted under the unstripped name. */
  function EnvironmentEffect(p: Platform, space: Option<string>, branch: Option<string>): (Outcome<Option<string>>, Platform) {
    if IsBlank(space) || IsBlank(branch) then (Ok(None), p)
    else match ResourceIdOf(p, space, Environments, branch)
      case Err(f) => (Err(f), p)
      case Ok(Some(id)) => (Ok(Some(id)), p)
      case Ok(None) => (Ok(Some(NewEnvironmentId(p))), AddEnvironment(p, space.value, branch.value))
  }

  /** `create_lifecycle` when every request is answered (lines 150-190). */
  function LifecycleEffect(p: Platform, space: Option<string>, environment: Option<string>, branch: Option<string>): (Outcome<Option<string>>, Platform) {
    if IsBlank(space) || IsBlank(environment) || IsBlank(branch) then (Ok(None), p)
    else match ResourceIdOf(p, space, Lifecycles, branch)
      case Err(f) => (Err(f), p)
      case Ok(Some(id)) => (Ok(Some(id)), p)
      case Ok(None) =>
        (Ok(Some(NewLifecycleId(p))), AddLifecycle(p, space.value, LifecycleDraft(space.value, environment.value, branch.value)))
  }

  /** The rules a new channel gets (lines 271-277), with the project's deployment process read
      from the platform. */
  function NewChannelRules(p: Platform, space: string, project: string, step: Option<string>, package: Option<string>, branch: string): seq<ChannelRule>
    requires HasProject(p, space, project)
  {
    RulesFor(branch, ChannelPackages(step, package, ProjectById(p, space, project).value.process))
  }

  /** `create_channel` when every request is answered (lines 261-295). */
  function ChannelEffect(p: Platform, space: Option<string>, project: Option<string>, lifecycle: Option<string>,
                         step: Option<string>, package: Option<string>, branch: Option<string>): (Outcome<Option<string>>, Platform)
  {
    if IsBlank(space) || IsBlank(project) || IsBlank(lifecycle) || IsBlank(branch) then (Ok(None), p)
    else match ChannelIdOf(p, space, project, branch)
      case Err(f) => (Err(f), p)
      case Ok(Some(id)) => (Ok(Some(id)), p)
      case Ok(None) =>
        var rules := NewChannelRules(p, space.value, project.value, step, package, branch.value);
        (Ok(Some(NewChannelId(p))), AddChannel(p, space.value, project.value, ChannelDraft(space.value, project.value, lifecycle.value, branch.value, rules)))
  }

  /** `create_environment`. */
  method CreateEnvironment(store: Store, space: Option<string>, branch: Option<string>) returns (r: Outcome<Option<string>>)
    requires store.Valid()
    modifies store`requests, store`unanswered, store`environments, store`log
    ensures store.Valid() && old(store.unanswered) <= store.unanswered
    ensures IsBlank(space) || IsBlank(branch) ==> r == Ok(None) && store.requests == old(store.requests)
    ensures r.Err? || (r.Ok? && r.value.None?) ==> store.Data() == old(store.Data())
    ensures store.unanswered == old(store.unanswered) ==>
      (r, store.Data()) == EnvironmentEffect(old(store.Data()), space, branch)
  {
    if IsBlank(space) || IsBlank(branch) {
      return Ok(None);
    }
    var found := GetResourceId(store, space, Environments, branch);
    if found.Err? || found.value.Some? {
      return found;
    }
    var created := store.PostEnvironment(space.value, branch.value);
    if created.None? {
      return Err(ApiError);
    }
    r := Ok(created);
  }

  /** `create_lifecycle`. */
  method CreateLifecycle(store: Store, space: Option<string>, environment: Option<string>, branch: Option<string>) returns (r: Outcome<Option<string>>)
    requires store.Valid()
    modifies store`requests, store`unanswered, store`lifecycles, store`log
    ensures store.Valid() && old(store.unanswered) <= store.unanswered
    ensures IsBlank(space) || IsBlank(environment) || IsBlank(branch) ==> r == Ok(None) && store.requests == old(store.requests)
    ensures r.Err? || (r.Ok? && r.value.None?) ==> store.Data() == old(store.Data())
    ensures store.unanswered == old(store.unanswered) ==>
      (r, store.Data()) == LifecycleEffect(old(store.Data()), space, environment, branch)
  {
    if IsBlank(space) || IsBlank(environment) || IsBlank(branch) {
      return Ok(None);
    }
    var found := GetResourceId(store, space, Lifecycles, branch);
    if found.Err? || found.value.Some? {
      return found;
    }
    var created := store.PostLifecycle(space.value, LifecycleDraft(space.value, environment.value, branch.value));
    if created.None? {
      return Err(ApiError);
    }
    r := Ok(created);
  }

  /** `find_packages` (lines 240-258): one checked GET of the deployment process, then the
      entries collected by the nested loops. */
  method FindPackages(store: Store, space: Option<string>, project: Option<string>) returns (r: Outcome<Option<seq<ActionPackage>>>)
    modifies store`requests, store`unanswered
    ensures store.requests == old(store.requests) + (if IsBlank(space) || IsBlank(project) then 0 else 1)
    ensures store.unanswered == old(store.unanswered) + (if IsNotBlank(space) && IsNotBlank(project) && old(store.requests) in store.failing then 1 else 0)
    ensures r == if IsBlank(space) || IsBlank(project) then Ok(None)
      else if old(store.requests) in store.failing || !HasProject(store.Data(), space.value, project.value) then Err(ApiError)
      else Ok(Some(PackagesOf(ProjectById(store.Data(), space.value, project.value).value.process)))
  {
    if IsBlank(space) || IsBlank(project) {
      return Ok(None);
    }
    var process := store.GetDeploymentProcess(space.value, project.value);
    if process.None? {
      return Err(ApiError);
    }
    var packages := CollectPackages(process.value);
    r := Ok(Some(packages));
  }

  /** `create_channel`. */
  method CreateChannel(store: Store, space: Option<string>, project: Option<string>, lifecycle: Option<string>,
                       step: Option<string>, package: Option<string>, branch: Option<string>) returns (r: Outcome<Option<string>>)
    requires store.Valid()
    modifies store`requests, store`unanswered, store`channels, store`log
    ensures store.Valid() && old(store.unanswered) <= store.unanswered
    ensures IsBlank(space) || IsBlank(project) || IsBlank(lifecycle) || IsBlank(branch) ==>
      r == Ok(None) && store.requests == old(store.requests)
    ensures r.Err? || (r.Ok? && r.value.None?) ==> store.Data() == old(store.Data())
    ensures store.unanswered == old(store.unanswered) ==>
      (r, store.Data()) == ChannelEffect(old(store.Data()), space, project, lifecycle, step, package, branch)
  {
    if IsBlank(space) || IsBlank(project) || IsBlank(lifecycle) || IsBlank(branch) {
      return Ok(None);
    }
    var found := FindChannel(store, space, project, branch);
    if found.Err? || found.value.Some? {
      return found;
    }
    r := PostBranchChannel(store, space.value, project.value, lifecycle.value, step, package, branch.value);
  }

  /** The second half of `create_channel` (lines 267-295), once no channel of the branch exists:
      collect the packages, generate the rules and post the channel. */
  method PostBranchChannel(store: Store, space: string, project: string, lifecycle: string,
                           step: Option<string>, package: Option<string>, branch: string) returns (r: Outcome<Option<string>>)
    requires store.Valid() && IsNotBlank(Some(space)) && IsNotBlank(Some(project)) && HasProject(store.Data(), space, project)
    modifies store`requests, store`unanswered, store`channels, store`log
    ensures store.Valid() && old(store.unanswered) <= store.unanswered
    ensures r.Err? || (r.Ok? && r.value.None?) ==> store.Data() == old(store.Data())
    ensures store.unanswered == old(store.unanswered) ==>
      var rules := NewChannelRules(old(store.Data()), space, project, step, package, branch);
      (r, store.Data()) == (Ok(Some(NewChannelId(old(store.Data())))), AddChannel(old(store.Data()), space, project, ChannelDraft(space, project, lifecycle, branch, rules)))
  {
    var packages: seq<ActionPackage>;
    if step.None? || |Strip(step.value)| == 0 {
      var listed := FindPackages(store, Some(space), Some(project));
      if listed.Err? {
        return Err(listed.failure);
      }
      packages := listed.value.value;
    } else {
      packages := [ActionPackage(step.value, package)];
    }
    var rules := RulesFor(branch, packages);
    var created := store.PostChannel(space, project, ChannelDraft(space, project, lifecycle, branch, rules));
    if created.None? {
      return Err(ApiError);
    }
    r := Ok(created);
  }

  /** Find-or-create, environment: with a space and branch given and the space existing, either
      an environment named exactly like the stripped branch is listed and nothing changes, or
      exactly one environment is added, under a fresh id, with the branch name as given, and
      one creation is logged; while the partial-name matches fit in one page, the second case
      means no listed environment had that name. */
  lemma EnvironmentFoundOrCreated(p: Platform, space: Option<string>, branch: Option<string>)
    requires IsNotBlank(space) && IsNotBlank(branch) && HasSpace(p, space.value)
    ensures var (r, q) := EnvironmentEffect(p, space, branch); var listing := Listing(p, Environments, space.value);
      && r.Ok? && r.value.Some?
      && (q == p ==> Item(r.value.value, Strip(branch.value)) in listing)
      && (q != p ==>
            && r.value.value !in IdsOf(p.environments, EnvironmentKey)
            && q == p.(environments := p.environments + [Environment(r.value.value, space.value, branch.value)],
                       log := p.log + [CreatedEnvironment(r.value.value)])
            && (|PartialMatches(listing, Strip(branch.value))| <= PageSize ==>
                  forall a :: a in listing ==> a.name != Strip(branch.value)))
  {
    ResolveNameIsFirstExact(Listing(p, Environments, space.value), branch.value);
    var (r, q) := EnvironmentEffect(p, space, branch);
    if ResourceIdOf(p, space, Environments, branch).value.None? {
      assert |q.environments| == |p.environments| + 1;
    }
  }

  /** Find-or-create is idempotent, environment: running it again on the platform it produced,
      for a branch name without surrounding whitespace, finds what it returned and changes nothing,
      provided the partial-name matches leave room in one page. */
  lemma EnvironmentIdempotent(p: Platform, space: Option<string>, branch: Option<string>)
    requires IsNotBlank(space) && IsNotBlank(branch) ==>
      Strip(branch.value) == branch.value && |PartialMatches(Listing(p, Environments, space.value), branch.value)| < PageSize
    ensures var (r, q) := EnvironmentEffect(p, space, branch); EnvironmentEffect(q, space, branch) == (r, q)
  {
    if IsNotBlank(space) && IsNotBlank(branch) && ResourceIdOf(p, space, Environments, branch) == Ok(None) {
      var q := AddEnvironment(p, space.value, branch.value);
      assert EnvironmentEffect(p, space, branch) == (Ok(Some(NewEnvironmentId(p))), q);
      EnvironmentFoundOnceCreated(p, space.value, branch.value);
      EnvironmentEffectFinds(q, space, branch, NewEnvironmentId(p));
    }
  }

  /** Not idempotent for a padded name, environment: when the branch name has surrounding
      whitespace and no environment is found, every run posts another environment under the
      unstripped name, because the lookup searches the stripped name (line 139). */
  lemma EnvironmentPaddedDuplicates(p: Platform, space: Option<string>, branch: Option<string>)
    requires IsNotBlank(space) && IsNotBlank(branch) && HasSpace(p, space.value) && Strip(branch.value) != branch.value
    requires ResourceIdOf(p, space, Environments, branch) == Ok(None)
    ensures var (r, q) := EnvironmentEffect(p, space, branch); var (r2, q2) := EnvironmentEffect(q, space, branch);
      && r2.Ok? && r2.value.Some? && r2 != r
      && q2 == q.(environments := q.environments + [Environment(r2.value.value, space.value, branch.value)],
                  log := q.log + [CreatedEnvironment(r2.value.value)])
  {
    var q := AddEnvironment(p, space.value, branch.value);
    EnvironmentListingGrows(p, space.value, branch.value);
    PaddedIsNotFound(Listing(p, Environments, space.value), NewEnvironmentId(p), branch.value);
    assert q.spaces == p.spaces;
    assert ResourceIdOf(q, space, Environments, branch) == Ok(None);
    assert IdsOf(q.environments, EnvironmentKey)[|p.environments|] == NewEnvironmentId(p);
  }

  /** A lookup that finds the environment leaves the platform as it is. */
  lemma EnvironmentEffectFinds(p: Platform, space: Option<string>, branch: Option<string>, id: string)
    requires IsNotBlank(space) && IsNotBlank(branch) && ResourceIdOf(p, space, Environments, branch) == Ok(Some(id))
    ensures EnvironmentEffect(p, space, branch) == (Ok(Some(id)), p)
  {
  }

  /** The environment just created is what the next lookup of its name finds. */
  lemma EnvironmentFoundOnceCreated(p: Platform, space: string, name: string)
    requires IsNotBlank(Some(space)) && IsNotBlank(Some(name)) && HasSpace(p, space)
    requires Strip(name) == name && |PartialMatches(Listing(p, Environments, space), name)| < PageSize
    requires ResolveName(Listing(p, Environments, space), name).None?
    ensures ResourceIdOf(AddEnvironment(p, space, name), Some(space), Environments, Some(name)) == Ok(Some(NewEnvironmentId(p)))
  {
    EnvironmentListingGrows(p, space, name);
    CreatedIsFound(Listing(p, Environments, space), NewEnvironmentId(p), name);
  }

  /** Find-or-create, lifecycle, and the shape of a created lifecycle: exactly one phase, named
      after the branch, with the branch environment as its only optional target, no automatic
      targets, no minimum and not optional; both retention policies keep forever with quantity 0. */
  lemma LifecycleFoundOrCreated(p: Platform, space: Option<string>, environment: Option<string>, branch: Option<string>)
    requires IsNotBlank(space) && IsNotBlank(environment) && IsNotBlank(branch) && HasSpace(p, space.value)
    ensures var (r, q) := LifecycleEffect(p, space, environment, branch); var listing := Listing(p, Lifecycles, space.value);
      && r.Ok? && r.value.Some?
      && (q == p ==> Item(r.value.value, Strip(branch.value)) in listing)
      && (q != p ==>
            && r.value.value !in IdsOf(p.lifecycles, LifecycleKey)
            && q == p.(lifecycles := p.lifecycles + [Lifecycle(r.value.value, space.value, branch.value,
                                                              [Phase(branch.value, [environment.value], [], 0, false)],
                                                              RetentionPolicy(true, 0, "Days"), RetentionPolicy(true, 0, "Days"))],
                       log := p.log + [CreatedLifecycle(r.value.value)])
            && (|PartialMatches(listing, Strip(branch.value))| <= PageSize ==>
                  forall a :: a in listing ==> a.name != Strip(branch.value)))
  {
    ResolveNameIsFirstExact(Listing(p, Lifecycles, space.value), branch.value);
    var (r, q) := LifecycleEffect(p, space, environment, branch);
    if ResourceIdOf(p, space, Lifecycles, branch).value.None? {
      assert |q.lifecycles| == |p.lifecycles| + 1;
    }
  }

  /** Find-or-create is idempotent, lifecycle. */
  lemma LifecycleIdempotent(p: Platform, space: Option<string>, environment: Option<string>, branch: Option<string>)
    requires IsNotBlank(space) && IsNotBlank(branch) ==>
      Strip(branch.value) == branch.value && |PartialMatches(Listing(p, Lifecycles, space.value), branch.value)| < PageSize
    ensures var (r, q) := LifecycleEffect(p, space, environment, branch); LifecycleEffect(q, space, environment, branch) == (r, q)
  {
    if IsBlank(space) || IsBlank(environment) || IsBlank(branch) {
      assert LifecycleEffect(p, space, environment, branch) == (Ok(None), p);
    } else {
      var found := ResourceIdOf(p, space, Lifecycles, branch);
      if found == Ok(None) {
        var q := AddLifecycle(p, space.value, LifecycleDraft(space.value, environment.value, branch.value));
        assert LifecycleEffect(p, space, environment, branch) == (Ok(Some(NewLifecycleId(p))), q);
        LifecycleFoundOnceCreated(p, space.value, environment.value, branch.value);
        LifecycleEffectFinds(q, space, environment, branch, NewLifecycleId(p));
      } else if found.Ok? {
        LifecycleEffectFinds(p, space, environment, branch, found.value.value);
      } else {
        assert LifecycleEffect(p, space, environment, branch) == (Err(found.failure), p);
      }
    }
  }

  /** Not idempotent for a padded name, lifecycle: every run posts another lifecycle. */
  lemma LifecyclePaddedDuplicates(p: Platform, space: Option<string>, environment: Option<string>, branch: Option<string>)
    requires IsNotBlank(space) && IsNotBlank(environment) && IsNotBlank(branch) && HasSpace(p, space.value)
    requires Strip(branch.value) != branch.value && ResourceIdOf(p, space, Lifecycles, branch) == Ok(None)
    ensures var (r, q) := LifecycleEffect(p, space, environment, branch); var (r2, q2) := LifecycleEffect(q, space, environment, branch);
      && r2.Ok? && r2.value.Some? && r2 != r
      && q2 == q.(lifecycles := q.lifecycles + [LifecycleDraft(space.value, environment.value, branch.value).(id := r2.value.value)],
                  log := q.log + [CreatedLifecycle(r2.value.value)])
  {
    var draft := LifecycleDraft(space.value, environment.value, branch.value);
    var q := AddLifecycle(p, space.value, draft);
    LifecycleListingGrows(p, space.value, draft);
    PaddedIsNotFound(Listing(p, Lifecycles, space.value), NewLifecycleId(p), branch.value);
    assert q.spaces == p.spaces;
    assert ResourceIdOf(q, space, Lifecycles, branch) == Ok(None);
    assert LifecycleEffect(p, space, environment, branch) == (Ok(Some(NewLifecycleId(p))), q);
    assert LifecycleEffect(q, space, environment, branch) == (Ok(Some(NewLifecycleId(q))), AddLifecycle(q, space.value, draft));
    assert IdsOf(q.lifecycles, LifecycleKey)[|p.lifecycles|] == NewLifecycleId(p);
  }

  /** A lookup that finds the lifecycle leaves the platform as it is. */
  lemma LifecycleEffectFinds(p: Platform, space: Option<string>, environment: Option<string>, branch: Option<string>, id: string)
    requires IsNotBlank(space) && IsNotBlank(environment) && IsNotBlank(branch)
    requires ResourceIdOf(p, space, Lifecycles, branch) == Ok(Some(id))
    ensures LifecycleEffect(p, space, environment, branch) == (Ok(Some(id)), p)
  {
  }

  /** The lifecycle just created is what the next lookup of its name finds. */
  lemma LifecycleFoundOnceCreated(p: Platform, space: string, environment: string, name: string)
    requires IsNotBlank(Some(space)) && IsNotBlank(Some(name)) && HasSpace(p, space)
    requires Strip(name) == name && |PartialMatches(Listing(p, Lifecycles, space), name)| < PageSize
    requires ResolveName(Listing(p, Lifecycles, space), name).None?
    ensures ResourceIdOf(AddLifecycle(p, space, LifecycleDraft(space, environment, name)), Some(space), Lifecycles, Some(name))
      == Ok(Some(NewLifecycleId(p)))
  {
    var draft := LifecycleDraft(space, environment, name);
    LifecycleListingGrows(p, space, draft);
    CreatedIsFound(Listing(p, Lifecycles, space), NewLifecycleId(p), name);
  }

  /** Find-or-create, channel, and the shape of a created channel: not the default, named as the
      branch, on the given lifecycle and project, with the rules generated for the branch from the
      given step/package or from the project's deployment process. */
  lemma ChannelFoundOrCreated(p: Platform, space: Option<string>, project: Option<string>, lifecycle: Option<string>,
                              step: Option<string>, package: Option<string>, branch: Option<string>)
    requires IsNotBlank(space) && IsNotBlank(project) && IsNotBlank(lifecycle) && IsNotBlank(branch)
    requires HasProject(p, space.value, project.value)
    ensures var (r, q) := ChannelEffect(p, space, project, lifecycle, step, package, branch);
      var listing := ChannelListing(p, space.value, project.value);
      && r.Ok? && r.value.Some?
      && (q == p ==> Item(r.value.value, Strip(branch.value)) in listing)
      && (q != p ==>
            && r.value.value !in IdsOf(p.channels, ChannelKey)
            && q == p.(channels := p.channels + [Channel(r.value.value, space.value, project.value, branch.value, false, lifecycle.value,
                                                         RulesFor(branch.value, ChannelPackages(step, package, ProjectById(p, space.value, project.value).value.process)))],
                       log := p.log + [CreatedChannel(r.value.value)])
            && (|PartialMatches(listing, Strip(branch.value))| <= PageSize ==>
                  forall a :: a in listing ==> a.name != Strip(branch.value)))
  {
    ResolveNameIsFirstExact(ChannelListing(p, space.value, project.value), branch.value);
    var (r, q) := ChannelEffect(p, space, project, lifecycle, step, package, branch);
    if ChannelIdOf(p, space, project, branch).value.None? {
      assert |q.channels| == |p.channels| + 1;
    }
  }

  /** Find-or-create is idempotent, channel. */
  lemma ChannelIdempotent(p: Platform, space: Option<string>, project: Option<string>, lifecycle: Option<string>,
                          step: Option<string>, package: Option<string>, branch: Option<string>)
    requires IsNotBlank(space) && IsNotBlank(project) && IsNotBlank(branch) ==>
      Strip(branch.value) == branch.value && |PartialMatches(ChannelListing(p, space.value, project.value), branch.value)| < PageSize
    ensures var (r, q) := ChannelEffect(p, space, project, lifecycle, step, package, branch);
      ChannelEffect(q, space, project, lifecycle, step, package, branch) == (r, q)
  {
    if IsNotBlank(space) && IsNotBlank(project) && IsNotBlank(lifecycle) && IsNotBlank(branch)
      && ChannelIdOf(p, space, project, branch) == Ok(None)
    {
      var rules := NewChannelRules(p, space.value, project.value, step, package, branch.value);
      var draft := ChannelDraft(space.value, project.value, lifecycle.value, branch.value, rules);
      var q := AddChannel(p, space.value, project.value, draft);
      ChannelEffectCreates(p, space, project, lifecycle, step, package, branch);
      ChannelFoundOnceCreated(p, space.value, project.value, draft);
      ChannelEffectFinds(q, space, project, lifecycle, step, package, branch, NewChannelId(p));
    }
  }

  /** A lookup that finds no channel of the branch creates one, with the rules generated for it. */
  lemma ChannelEffectCreates(p: Platform, space: Option<string>, project: Option<string>, lifecycle: Option<string>,
                             step: Option<string>, package: Option<string>, branch: Option<string>)
    requires IsNotBlank(space) && IsNotBlank(project) && IsNotBlank(lifecycle) && IsNotBlank(branch)
    requires ChannelIdOf(p, space, project, branch) == Ok(None)
    ensures HasProject(p, space.value, project.value)
    ensures var rules := NewChannelRules(p, space.value, project.value, step, package, branch.value);
      ChannelEffect(p, space, project, lifecycle, step, package, branch)
        == (Ok(Some(NewChannelId(p))), AddChannel(p, space.value, project.value, ChannelDraft(space.value, project.value, lifecycle.value, branch.value, rules)))
  {
  }

  /** The channel step logs one creation or nothing. */
  lemma ChannelEffectLog(p: Platform, space: Option<string>, project: Option<string>, lifecycle: Option<string>,
                         step: Option<string>, package: Option<string>, branch: Option<string>)
    ensures var q := ChannelEffect(p, space, project, lifecycle, step, package, branch).1;
      q.log == p.log || q.log == p.log + [CreatedChannel(NewChannelId(p))]
  {
    if IsNotBlank(space) && IsNotBlank(project) && IsNotBlank(lifecycle) && IsNotBlank(branch)
      && ChannelIdOf(p, space, project, branch) == Ok(None)
    {
      ChannelEffectCreates(p, space, project, lifecycle, step, package, branch);
    }
  }

  /** Not idempotent for a padded name, channel: every run posts another channel of the project. */
  lemma ChannelPaddedDuplicates(p: Platform, space: Option<string>, project: Option<string>, lifecycle: Option<string>,
                                step: Option<string>, package: Option<string>, branch: Option<string>)
    requires IsNotBlank(space) && IsNotBlank(project) && IsNotBlank(lifecycle) && IsNotBlank(branch)
    requires Strip(branch.value) != branch.value && ChannelIdOf(p, space, project, branch) == Ok(None)
    ensures var (r, q) := ChannelEffect(p, space, project, lifecycle, step, package, branch);
      var (r2, q2) := ChannelEffect(q, space, project, lifecycle, step, package, branch);
      && r2.Ok? && r2.value.Some? && r2 != r
      && |q2.channels| == |q.channels| + 1 && q2.channels[..|q.channels|] == q.channels
      && q2.channels[|q.channels|].id == r2.value.value && q2.channels[|q.channels|].name == branch.value
      && q2.log == q.log + [CreatedChannel(r2.value.value)]
  {
    var rules := NewChannelRules(p, space.value, project.value, step, package, branch.value);
    var draft := ChannelDraft(space.value, project.value, lifecycle.value, branch.value, rules);
    var q := AddChannel(p, space.value, project.value, draft);
    ChannelEffectCreates(p, space, project, lifecycle, step, package, branch);
    ChannelListingGrows(p, space.value, project.value, draft);
    PaddedIsNotFound(ChannelListing(p, space.value, project.value), NewChannelId(p), branch.value);
    assert q.projects == p.projects;
    ChannelIdOfProject(q, space.value, project.value, branch.value);
    ChannelEffectCreates(q, space, project, lifecycle, step, package, branch);
    assert IdsOf(q.channels, ChannelKey)[|p.channels|] == NewChannelId(p);
  }

  /** A lookup that finds the channel leaves the platform as it is. */
  lemma ChannelEffectFinds(p: Platform, space: Option<string>, project: Option<string>, lifecycle: Option<string>,
                           step: Option<string>, package: Option<string>, branch: Option<string>, id: string)
    requires IsNotBlank(space) && IsNotBlank(project) && IsNotBlank(lifecycle) && IsNotBlank(branch)
    requires ChannelIdOf(p, space, project, branch) == Ok(Some(id))
    ensures ChannelEffect(p, space, project, lifecycle, step, package, branch) == (Ok(Some(id)), p)
  {
  }

  /** The channel just created is what the next lookup of its name finds. */
  lemma ChannelFoundOnceCreated(p: Platform, space: string, project: string, draft: Channel)
    requires IsNotBlank(Some(space)) && IsNotBlank(Some(project)) && IsNotBlank(Some(draft.name)) && HasProject(p, space, project)
    requires Strip(draft.name) == draft.name && |PartialMatches(ChannelListing(p, space, project), draft.name)| < PageSize
    requires ResolveName(ChannelListing(p, space, project), draft.name).None?
    ensures ChannelIdOf(AddChannel(p, space, project, draft), Some(space), Some(project), Some(draft.name)) == Ok(Some(NewChannelId(p)))
  {
    var q := AddChannel(p, space, project, draft);
    assert q.projects == p.projects;
    assert HasProject(q, space, project);
    ChannelListingGrows(p, space, project, draft);
    CreatedIsFound(ChannelListing(p, space, project), NewChannelId(p), draft.name);
    ChannelIdOfProject(q, space, project, draft.name);
  }
}
