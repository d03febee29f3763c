/** The Octopus Deploy server as the script sees it: the resources behind the REST endpoints it
    calls, the requests it sends and whether each one is answered. Every GET/POST/PUT/DELETE the
    script issues is one method of `Store`, which counts it as one request. */
module Server {
  import opened Wrappers
  import opened Collections
  import opened Text
  import opened Entities
  import opened Lookup
  import opened Targets

  /** One write the platform accepted. The store keeps them in the order they were accepted. */
  datatype Write =
    | CreatedEnvironment(id: string)
    | CreatedLifecycle(id: string)
    | CreatedChannel(id: string)
    | UpdatedMachine(id: string)
    | DeletedMachine(id: string)
    | CancelledTask(id: string)
    | DeletedRelease(id: string)
    | DeletedChannel(id: string)
    | DeletedLifecycle(id: string)
    | DeletedEnvironment(id: string)

  /** The resource types `get_resource_id` is called with: "environments", "lifecycles",
      "projects" and "machines". */
  datatype Kind = Environments | Lifecycles | Projects | Machines

  /** Everything the platform holds that the script can observe, plus the log of accepted writes. */
  datatype Platform = Platform(
    spaces: seq<Space>,
    environments: seq<Environment>,
    lifecycles: seq<Lifecycle>,
    projects: seq<Project>,
    channels: seq<Channel>,
    machines: seq<Machine>,
    releases: seq<Release>,
    deployments: seq<Deployment>,
    tasks: seq<ServerTask>,
    log: seq<Write>)

  /** The first element of `s` that satisfies `keep`. */
  function First<T(!new)>(s: seq<T>, keep: T -> bool): (r: Option<T>)
    ensures r.None? <==> forall x :: x in s ==> !keep(x)
    ensures r.Some? ==> r.value in s && keep(r.value)
  {
    var hits := Filter(s, keep);
    if hits == [] then None else (assert hits[0] in hits; Some(hits[0]))
  }

  /** The elements of `s` whose key is not `id`: what a DELETE of resource `id` leaves. */
  function WithoutKey<T(!new)>(s: seq<T>, key: T -> string, id: string): (r: seq<T>)
    ensures forall x :: x in r <==> x in s && key(x) != id
  {
    Filter(s, (x: T) => key(x) != id)
  }

  /** A DELETE after a filter is one filter by both conditions. */
  lemma WithoutKeyAfterFilter<T(!new)>(s: seq<T>, keep: T -> bool, key: T -> string, id: string, both: T -> bool)
    requires forall x :: x in s ==> both(x) == (keep(x) && key(x) != id)
    ensures WithoutKey(Filter(s, keep), key, id) == Filter(s, both)
  {
    FilterTwice(s, keep, (x: T) => key(x) != id, both);
  }

  lemma WithoutKeyUnique<T(!new)>(s: seq<T>, key: T -> string, id: string)
    requires UniqueBy(s, key)
    ensures UniqueBy(WithoutKey(s, key, id), key)
  {
    FilterUnique(s, (x: T) => key(x) != id, key);
  }

  /** The ids of a collection, in order. */
  function IdsOf<T>(s: seq<T>, key: T -> string): (r: seq<string>)
    ensures |r| == |s| && forall i :: 0 <= i < |s| ==> r[i] == key(s[i])
  {
    seq(|s|, i requires 0 <= i < |s| => key(s[i]))
  }

  /** The length of the longest string of `ids`. */
  function Longest(ids: seq<string>): (n: nat)
    ensures forall i :: 0 <= i < |ids| ==> |ids[i]| <= n
  {
    if ids == [] then 0
    else
      var rest := Longest(ids[1..]);
      assert forall i :: 1 <= i < |ids| ==> ids[i] == ids[1..][i - 1];
      if |ids[0]| > rest then |ids[0]| else rest
  }

  /** The id the platform gives a new resource: `prefix` followed by enough digits to be longer,
      and so different from, every id already taken. */
  function FreshId(prefix: string, taken: seq<string>): (id: string)
    ensures id !in taken
  {
    var id := prefix + seq(Longest(taken) + 1, _ => '1');
    assert forall i :: 0 <= i < |taken| ==> |taken[i]| < |id|;
    id
  }

  function SpaceItem(s: Space): Item { Item(s.id, s.name) }
  function EnvironmentItem(e: Environment): Item { Item(e.id, e.name) }
  function LifecycleItem(l: Lifecycle): Item { Item(l.id, l.name) }
  function ProjectItem(x: Project): Item { Item(x.id, x.name) }
  function ChannelItem(c: Channel): Item { Item(c.id, c.name) }
  function MachineItem(m: Machine): Item { Item(m.id, m.name) }

  /** The (Id, Name) pairs of a listing, in order. */
  function ItemsOf<T>(s: seq<T>, item: T -> Item): (r: seq<Item>)
    ensures |r| == |s| && forall i :: 0 <= i < |s| ==> r[i] == item(s[i])
  {
    seq(|s|, i requires 0 <= i < |s| => item(s[i]))
  }

  lemma ItemsOfAppend<T>(a: seq<T>, b: seq<T>, item: T -> Item)
    ensures ItemsOf(a + b, item) == ItemsOf(a, item) + ItemsOf(b, item)
  {
  }

  function EnvironmentsIn(es: seq<Environment>, space: string): seq<Environment> {
    Filter(es, (e: Environment) => e.spaceId == space)
  }

  function LifecyclesIn(ls: seq<Lifecycle>, space: string): seq<Lifecycle> {
    Filter(ls, (l: Lifecycle) => l.spaceId == space)
  }

  function ProjectsIn(ps: seq<Project>, space: string): seq<Project> {
    Filter(ps, (x: Project) => x.spaceId == space)
  }

  /** The machines of a space, in the platform's order: `/api/{space}/machines`. */
  function MachinesIn(ms: seq<Machine>, space: string): seq<Machine> {
    Filter(ms, (m: Machine) => m.spaceId == space)
  }

  /** `/api/{space}/projects/{project}/channels`. */
  function ChannelsOf(cs: seq<Channel>, space: string, project: string): seq<Channel> {
    Filter(cs, (c: Channel) => c.spaceId == space && c.projectId == project)
  }

  /** `/api/{space}/projects/{project}/releases`. */
  function ReleasesOf(rs: seq<Release>, space: string, project: string): seq<Release> {
    Filter(rs, (r: Release) => r.spaceId == space && r.projectId == project)
  }

  /** `/api/{space}/deployments?projects={project}&channels={channel}`. */
  function DeploymentsOf(ds: seq<Deployment>, space: string, project: string, channel: string): seq<Deployment> {
    Filter(ds, (d: Deployment) => d.spaceId == space && d.projectId == project && d.channelId == channel)
  }

  /** What a partial-name search of the given resource type in `space` lists, before the search. */
  function Listing(p: Platform, kind: Kind, space: string): seq<Item> {
    match kind
    case Environments => ItemsOf(EnvironmentsIn(p.environments, space), EnvironmentItem)
    case Lifecycles => ItemsOf(LifecyclesIn(p.lifecycles, space), LifecycleItem)
    case Projects => ItemsOf(ProjectsIn(p.projects, space), ProjectItem)
    case Machines => ItemsOf(MachinesIn(p.machines, space), MachineItem)
  }

  function ChannelListing(p: Platform, space: string, project: string): seq<Item> {
    ItemsOf(ChannelsOf(p.channels, space, project), ChannelItem)
  }

  predicate HasSpace(p: Platform, space: string) {
    exists s :: s in p.spaces && s.id == space
  }

  function ProjectById(p: Platform, space: string, id: string): Option<Project> {
    First(p.projects, (x: Project) => x.spaceId == space && x.id == id)
  }

  /** The URL `/api/{space}/projects/{project}/…` names an existing project. */
  predicate HasProject(p: Platform, space: string, project: string) {
    ProjectById(p, space, project).Some?
  }

  function MachineById(p: Platform, space: string, id: string): Option<Machine> {
    First(p.machines, (m: Machine) => m.spaceId == space && m.id == id)
  }

  function TaskById(p: Platform, space: string, id: string): Option<ServerTask> {
    First(p.tasks, (t: ServerTask) => t.spaceId == space && t.id == id)
  }

  predicate HasEnvironment(p: Platform, space: string, id: string) {
    exists e :: e in p.environments && e.spaceId == space && e.id == id
  }

  predicate HasLifecycle(p: Platform, space: string, id: string) {
    exists l :: l in p.lifecycles && l.spaceId == space && l.id == id
  }

  predicate HasChannel(p: Platform, space: string, project: string, id: string) {
    exists c :: c in p.channels && c.spaceId == space && c.projectId == project && c.id == id
  }

  predicate HasRelease(p: Platform, space: string, id: string) {
    exists r :: r in p.releases && r.spaceId == space && r.id == id
  }

  /** The ids the platform gives the next environment, lifecycle and channel. */
  function NewEnvironmentId(p: Platform): string { FreshId("Environments-", IdsOf(p.environments, EnvironmentKey)) }
  function NewLifecycleId(p: Platform): string { FreshId("Lifecycles-", IdsOf(p.lifecycles, LifecycleKey)) }
  function NewChannelId(p: Platform): string { FreshId("Channels-", IdsOf(p.channels, ChannelKey)) }

  // The effect of each accepted write on the platform.

  function AddEnvironment(p: Platform, space: string, name: string): Platform {
    var id := NewEnvironmentId(p);
    p.(environments := p.environments + [Environment(id, space, name)], log := p.log + [CreatedEnvironment(id)])
  }

  function AddLifecycle(p: Platform, space: string, draft: Lifecycle): Platform {
    var id := NewLifecycleId(p);
    p.(lifecycles := p.lifecycles + [draft.(id := id, spaceId := space)], log := p.log + [CreatedLifecycle(id)])
  }

  function AddChannel(p: Platform, space: string, project: string, draft: Channel): Platform {
    var id := NewChannelId(p);
    p.(channels := p.channels + [draft.(id := id, spaceId := space, projectId := project)], log := p.log + [CreatedChannel(id)])
  }

  function UpdateMachine(p: Platform, m: Machine): Platform {
    p.(machines := Replace(p.machines, m), log := p.log + [UpdatedMachine(m.id)])
  }

  function DropMachine(p: Platform, id: string): Platform {
    p.(machines := RemoveMachine(p.machines, id), log := p.log + [DeletedMachine(id)])
  }

  function NoteCancel(p: Platform, id: string): Platform {
    p.(log := p.log + [CancelledTask(id)])
  }

  function DropRelease(p: Platform, id: string): Platform {
    p.(releases := WithoutKey(p.releases, ReleaseKey, id), log := p.log + [DeletedRelease(id)])
  }

  function DropChannel(p: Platform, id: string): Platform {
    p.(channels := WithoutKey(p.channels, ChannelKey, id), log := p.log + [DeletedChannel(id)])
  }

  function DropLifecycle(p: Platform, id: string): Platform {
    p.(lifecycles := WithoutKey(p.lifecycles, LifecycleKey, id), log := p.log + [DeletedLifecycle(id)])
  }

  function DropEnvironment(p: Platform, id: string): Platform {
    p.(environments := WithoutKey(p.environments, EnvironmentKey, id), log := p.log + [DeletedEnvironment(id)])
  }

  /** A created environment is listed last among its space's environments. */
  lemma EnvironmentListingGrows(p: Platform, space: string, name: string)
    ensures Listing(AddEnvironment(p, space, name), Environments, space) == Listing(p, Environments, space) + [Item(NewEnvironmentId(p), name)]
  {
    var e := Environment(NewEnvironmentId(p), space, name);
    FilterAppend(p.environments, [e], (e: Environment) => e.spaceId == space);
    ItemsOfAppend(EnvironmentsIn(p.environments, space), [e], EnvironmentItem);
  }

  /** A created lifecycle is listed last among its space's lifecycles. */
  lemma LifecycleListingGrows(p: Platform, space: string, draft: Lifecycle)
    ensures Listing(AddLifecycle(p, space, draft), Lifecycles, space) == Listing(p, Lifecycles, space) + [Item(NewLifecycleId(p), draft.name)]
  {
    var l := draft.(id := NewLifecycleId(p), spaceId := space);
    FilterAppend(p.lifecycles, [l], (l: Lifecycle) => l.spaceId == space);
    ItemsOfAppend(LifecyclesIn(p.lifecycles, space), [l], LifecycleItem);
  }

  /** A created channel is listed last among its project's channels. */
  lemma ChannelListingGrows(p: Platform, space: string, project: string, draft: Channel)
    ensures ChannelListing(AddChannel(p, space, project, draft), space, project) == ChannelListing(p, space, project) + [Item(NewChannelId(p), draft.name)]
  {
    var c := draft.(id := NewChannelId(p), spaceId := space, projectId := project);
    FilterAppend(p.channels, [c], (c: Channel) => c.spaceId == space && c.projectId == project);
    ItemsOfAppend(ChannelsOf(p.channels, space, project), [c], ChannelItem);
  }

  /** The tasks after the platform finished those listed in `finished`. */
  function Complete(ts: seq<ServerTask>, finished: set<string>): (r: seq<ServerTask>)
    ensures |r| == |ts|
  {
    seq(|ts|, i requires 0 <= i < |ts| => if ts[i].id in finished then ts[i].(isCompleted := true) else ts[i])
  }

  /** The platform after the tasks in `finished` completed. */
  function Elapsed(p: Platform, finished: set<string>): Platform {
    p.(tasks := Complete(p.tasks, finished))
  }

  /** Completing tasks works element by element, so it distributes over concatenation. */
  lemma CompleteAppend(a: seq<ServerTask>, b: seq<ServerTask>, finished: set<string>)
    ensures Complete(a + b, finished) == Complete(a, finished) + Complete(b, finished)
  {
  }

  lemma {:induction false} FilterComplete(ts: seq<ServerTask>, finished: set<string>, space: string, id: string)
    ensures Filter(Complete(ts, finished), (t: ServerTask) => t.spaceId == space && t.id == id)
      == Complete(Filter(ts, (t: ServerTask) => t.spaceId == space && t.id == id), finished)
  {
    var keep := (t: ServerTask) => t.spaceId == space && t.id == id;
    if ts != [] {
      var done := Complete(ts, finished);
      var head := if keep(ts[0]) then [ts[0]] else [];
      assert keep(done[0]) == keep(ts[0]);
      assert done[1..] == Complete(ts[1..], finished);
      assert Complete(head, finished) == if keep(done[0]) then [done[0]] else [];
      FilterComplete(ts[1..], finished, space, id);
      CompleteAppend(head, Filter(ts[1..], keep), finished);
    }
  }

  /** Time passing completes a task in `finished` and changes no other: the lookup of a task
      finds it where it found it before, completed exactly when its id is in `finished`. */
  lemma TaskByIdElapsed(p: Platform, finished: set<string>, space: string, id: string)
    ensures var before, after := TaskById(p, space, id), TaskById(Elapsed(p, finished), space, id);
      && after.Some? == before.Some?
      && (after.Some? ==>
            after.value.id == id && after.value.spaceId == space && after.value.isCompleted == (before.value.isCompleted || id in finished))
  {
    FilterComplete(p.tasks, finished, space, id);
  }

  /** A platform-assigned id such as `Machines-12`: it does not start with whitespace. */
  predicate IsIdentifier(id: string) {
    |id| > 0 && !IsSpace(id[0])
  }

  /** An id the platform assigned is never blank, so the script never skips a request for it. */
  lemma IdentifierIsNotBlank(id: string)
    requires IsIdentifier(id)
    ensures IsNotBlank(Some(id))
  {
  }

  /** What the proofs rely on: machine and release ids are unique, and machine ids are
      platform-assigned identifiers. */
  ghost predicate Wellformed(p: Platform) {
    && UniqueBy(p.machines, MachineKey)
    && UniqueBy(p.releases, ReleaseKey)
    && forall m :: m in p.machines ==> IsIdentifier(m.id)
  }

  lemma ReplaceUnique(ms: seq<Machine>, m: Machine)
    requires UniqueBy(ms, MachineKey)
    ensures UniqueBy(Replace(ms, m), MachineKey)
    ensures forall x :: x in Replace(ms, m) ==> x in ms || x == m
  {
    var r := Replace(ms, m);
    forall i, j | 0 <= i < j < |r| ensures MachineKey(r[i]) != MachineKey(r[j]) {
      assert MachineKey(r[i]) == MachineKey(ms[i]) && MachineKey(r[j]) == MachineKey(ms[j]);
    }
    forall x | x in r ensures x in ms || x == m {
      var i :| 0 <= i < |r| && r[i] == x;
    }
  }

  /** The platform. A request numbered in `failing` gets an error status and changes nothing;
      any other request is served from the fields. */
  class Store {
    var spaces: seq<Space>
    var environments: seq<Environment>
    var lifecycles: seq<Lifecycle>
    var projects: seq<Project>
    var channels: seq<Channel>
    var machines: seq<Machine>
    var releases: seq<Release>
    var deployments: seq<Deployment>
    var tasks: seq<ServerTask>
    var log: seq<Write>
    /** How many requests have been sent; the next one gets this number. */
    var requests: nat
    /** The numbers of the requests the platform answers with an error status. */
    const failing: set<nat>
    /** How many of the requests sent so far were answered with an error. */
    ghost var unanswered: nat

    function Data(): Platform
      reads this
    {
      Platform(spaces, environments, lifecycles, projects, channels, machines, releases, deployments, tasks, log)
    }

    ghost predicate Valid()
      reads this
    {
      Wellformed(Data())
    }

    constructor (initial: Platform, failing: set<nat>)
      ensures Data() == initial && requests == 0 && unanswered == 0 && this.failing == failing
    {
      spaces := initial.spaces;
      environments := initial.environments;
      lifecycles := initial.lifecycles;
      projects := initial.projects;
      channels := initial.channels;
      machines := initial.machines;
      releases := initial.releases;
      deployments := initial.deployments;
      tasks := initial.tasks;
      log := initial.log;
      requests := 0;
      unanswered := 0;
      this.failing := failing;
    }

    /** Sends one request; it is answered unless its number is in `failing`. */
    method Send() returns (answered: bool)
      modifies this`requests, this`unanswered
      ensures requests == old(requests) + 1 && answered == (old(requests) !in failing)
      ensures unanswered == old(unanswered) + (if answered then 0 else 1)
    {
      answered := requests !in failing;
      requests := requests + 1;
      if !answered {
        unanswered := unanswered + 1;
      }
    }

    /** GET /api/spaces?partialName={partial}&take=1000. */
    method ListSpaces(partial: string) returns (r: Option<seq<Item>>)
      modifies this`requests, this`unanswered
      ensures requests == old(requests) + 1 && unanswered == old(unanswered) + (if old(requests) in failing then 1 else 0)
      ensures r == if old(requests) in failing then None else Some(Page(PartialMatches(ItemsOf(spaces, SpaceItem), partial)))
    {
      var answered := Send();
      r := if answered then Some(Page(PartialMatches(ItemsOf(spaces, SpaceItem), partial))) else None;
    }

    /** GET /api/spaces/{id}: whether the response is truthy. */
    method GetSpace(id: string) returns (found: bool)
      modifies this`requests, this`unanswered
      ensures requests == old(requests) + 1 && unanswered == old(unanswered) + (if old(requests) in failing then 1 else 0)
      ensures found == (old(requests) !in failing && HasSpace(Data(), id))
    {
      var answered := Send();
      found := answered && exists s :: s in spaces && s.id == id;
    }

    /** GET /api/{space}/{kind}?partialName={partial}&take=1000. */
    method ListResources(space: string, kind: Kind, partial: string) returns (r: Option<seq<Item>>)
      modifies this`requests, this`unanswered
      ensures requests == old(requests) + 1 && unanswered == old(unanswered) + (if old(requests) in failing then 1 else 0)
      ensures r == if old(requests) in failing || !HasSpace(Data(), space) then None
        else Some(Page(PartialMatches(Listing(Data(), kind, space), partial)))
    {
      var answered := Send();
      if answered && exists s :: s in spaces && s.id == space {
        r := Some(Page(PartialMatches(Listing(Data(), kind, space), partial)));
      } else {
        r := None;
      }
    }

    /** GET /api/{space}/projects/{project}/channels?partialName={partial}&take=1000. */
    method ListChannels(space: string, project: string, partial: string) returns (r: Option<seq<Item>>)
      modifies this`requests, this`unanswered
      ensures requests == old(requests) + 1 && unanswered == old(unanswered) + (if old(requests) in failing then 1 else 0)
      ensures r == if old(requests) in failing || !HasProject(Data(), space, project) then None
        else Some(Page(PartialMatches(ChannelListing(Data(), space, project), partial)))
    {
      var answered := Send();
      if answered && HasProject(Data(), space, project) {
        r := Some(Page(PartialMatches(ChannelListing(Data(), space, project), partial)));
      } else {
        r := None;
      }
    }

    /** GET /api/{space}/machines?take=1000. */
    method ListMachines(space: string) returns (r: Option<seq<Machine>>)
      modifies this`requests, this`unanswered
      ensures requests == old(requests) + 1 && unanswered == old(unanswered) + (if old(requests) in failing then 1 else 0)
      ensures r == if old(requests) in failing || !HasSpace(Data(), space) then None else Some(Page(MachinesIn(machines, space)))
    {
      var answered := Send();
      if answered && exists s :: s in spaces && s.id == space {
        r := Some(Page(MachinesIn(machines, space)));
      } else {
        r := None;
      }
    }

    /** GET /api/{space}/machines/{id}. */
    method GetMachine(space: string, id: string) returns (r: Option<Machine>)
      modifies this`requests, this`unanswered
      ensures requests == old(requests) + 1 && unanswered == old(unanswered) + (if old(requests) in failing then 1 else 0)
      ensures r == if old(requests) in failing then None else MachineById(Data(), space, id)
    {
      var answered := Send();
      r := if answered then MachineById(Data(), space, id) else None;
    }

    /** GET /api/{space}/projects/{project}/deploymentprocesses: the process's steps. */
    method GetDeploymentProcess(space: string, project: string) returns (r: Option<seq<DeploymentStep>>)
      modifies this`requests, this`unanswered
      ensures requests == old(requests) + 1 && unanswered == old(unanswered) + (if old(requests) in failing then 1 else 0)
      ensures r == if old(requests) in failing || !HasProject(Data(), space, project) then None
        else Some(ProjectById(Data(), space, project).value.process)
    {
      var answered := Send();
      var found := ProjectById(Data(), space, project);
      r := if answered && found.Some? then Some(found.value.process) else None;
    }

    /** GET /api/{space}/deployments?projects={project}&channels={channel}. */
    method ListDeployments(space: string, project: string, channel: string) returns (r: Option<seq<Deployment>>)
      modifies this`requests, this`unanswered
      ensures requests == old(requests) + 1 && unanswered == old(unanswered) + (if old(requests) in failing then 1 else 0)
      ensures r == if old(requests) in failing || !HasSpace(Data(), space) then None
        else Some(DeploymentsOf(deployments, space, project, channel))
    {
      var answered := Send();
      if answered && exists s :: s in spaces && s.id == space {
        r := Some(DeploymentsOf(deployments, space, project, channel));
      } else {
        r := None;
      }
    }

    /** GET /api/{space}/tasks/{id}. */
    method GetTask(space: string, id: string) returns (r: Option<ServerTask>)
      modifies this`requests, this`unanswered
      ensures requests == old(requests) + 1 && unanswered == old(unanswered) + (if old(requests) in failing then 1 else 0)
      ensures r == if old(requests) in failing then None else TaskById(Data(), space, id)
    {
      var answered := Send();
      r := if answered then TaskById(Data(), space, id) else None;
    }

    /** GET /api/{space}/projects/{project}/releases. */
    method ListReleases(space: string, project: string) returns (r: Option<seq<Release>>)
      modifies this`requests, this`unanswered
      ensures requests == old(requests) + 1 && unanswered == old(unanswered) + (if old(requests) in failing then 1 else 0)
      ensures r == if old(requests) in failing || !HasProject(Data(), space, project) then None
        else Some(ReleasesOf(releases, space, project))
    {
      var answered := Send();
      r := if answered && HasProject(Data(), space, project) then Some(ReleasesOf(releases, space, project)) else None;
    }

    /** POST /api/{space}/environments with `{'Name': name}`: the new environment's id. */
    method PostEnvironment(space: string, name: string) returns (r: Option<string>)
      requires Valid()
      modifies this`requests, this`unanswered, this`environments, this`log
      ensures requests == old(requests) + 1 && unanswered == old(unanswered) + (if old(requests) in failing then 1 else 0)
      ensures Valid()
      ensures r.Some? <==> old(requests) !in failing && HasSpace(old(Data()), space)
      ensures r.None? ==> Data() == old(Data())
      ensures r.Some? ==> r.value == NewEnvironmentId(old(Data())) && Data() == AddEnvironment(old(Data()), space, name)
    {
      var answered := Send();
      if answered && exists s :: s in spaces && s.id == space {
        var id := NewEnvironmentId(Data());
        environments := environments + [Environment(id, space, name)];
        log := log + [CreatedEnvironment(id)];
        r := Some(id);
      } else {
        r := None;
      }
    }

    /** POST /api/{space}/lifecycles with the record `draft`; the platform gives it its id. */
    method PostLifecycle(space: string, draft: Lifecycle) returns (r: Option<string>)
      requires Valid()
      modifies this`requests, this`unanswered, this`lifecycles, this`log
      ensures requests == old(requests) + 1 && unanswered == old(unanswered) + (if old(requests) in failing then 1 else 0)
      ensures Valid()
      ensures r.Some? <==> old(requests) !in failing && HasSpace(old(Data()), space)
      ensures r.None? ==> Data() == old(Data())
      ensures r.Some? ==> r.value == NewLifecycleId(old(Data())) && Data() == AddLifecycle(old(Data()), space, draft)
    {
      var answered := Send();
      if answered && exists s :: s in spaces && s.id == space {
        var id := NewLifecycleId(Data());
        lifecycles := lifecycles + [draft.(id := id, spaceId := space)];
        log := log + [CreatedLifecycle(id)];
        r := Some(id);
      } else {
        r := None;
      }
    }

    /** POST /api/{space}/projects/{project}/channels with the record `draft`. */
    method PostChannel(space: string, project: string, draft: Channel) returns (r: Option<string>)
      requires Valid()
      modifies this`requests, this`unanswered, this`channels, this`log
      ensures requests == old(requests) + 1 && unanswered == old(unanswered) + (if old(requests) in failing then 1 else 0)
      ensures Valid()
      ensures r.Some? <==> old(requests) !in failing && HasProject(old(Data()), space, project)
      ensures r.None? ==> Data() == old(Data())
      ensures r.Some? ==> r.value == NewChannelId(old(Data())) && Data() == AddChannel(old(Data()), space, project, draft)
    {
      var answered := Send();
      if answered && HasProject(Data(), space, project) {
        var id := NewChannelId(Data());
        channels := channels + [draft.(id := id, spaceId := space, projectId := project)];
        log := log + [CreatedChannel(id)];
        r := Some(id);
      } else {
        r := None;
      }
    }

    /** PUT /api/{space}/machines/{m.id} with the record `m`: whether the response is truthy. */
    method PutMachine(space: string, m: Machine) returns (ok: bool)
      requires Valid()
      modifies this`requests, this`unanswered, this`machines, this`log
      ensures requests == old(requests) + 1 && unanswered == old(unanswered) + (if old(requests) in failing then 1 else 0)
      ensures Valid()
      ensures ok <==> old(requests) !in failing && MachineById(old(Data()), space, m.id).Some?
      ensures !ok ==> Data() == old(Data())
      ensures ok ==> Data() == UpdateMachine(old(Data()), m)
    {
      var answered := Send();
      ok := answered && MachineById(Data(), space, m.id).Some?;
      if ok {
        ReplaceUnique(machines, m);
        machines := Replace(machines, m);
        log := log + [UpdatedMachine(m.id)];
      }
    }

    /** DELETE /api/{space}/machines/{id}. */
    method DeleteMachine(space: string, id: string) returns (ok: bool)
      requires Valid()
      modifies this`requests, this`unanswered, this`machines, this`log
      ensures requests == old(requests) + 1 && unanswered == old(unanswered) + (if old(requests) in failing then 1 else 0)
      ensures Valid()
      ensures ok <==> old(requests) !in failing && MachineById(old(Data()), space, id).Some?
      ensures !ok ==> Data() == old(Data())
      ensures ok ==> Data() == DropMachine(old(Data()), id)
    {
      var answered := Send();
      ok := answered && MachineById(Data(), space, id).Some?;
      if ok {
        FilterUnique(machines, (x: Machine) => x.id != id, MachineKey);
        machines := RemoveMachine(machines, id);
        log := log + [DeletedMachine(id)];
      }
    }

    /** POST /api/{space}/tasks/{id}/cancel. Cancelling is asynchronous: the task completes only
        when the platform later finishes it (see `Elapse`). */
    method CancelTask(space: string, id: string) returns (ok: bool)
      modifies this`requests, this`unanswered, this`log
      ensures requests == old(requests) + 1 && unanswered == old(unanswered) + (if old(requests) in failing then 1 else 0)
      ensures ok <==> old(requests) !in failing && TaskById(old(Data()), space, id).Some?
      ensures !ok ==> Data() == old(Data())
      ensures ok ==> Data() == NoteCancel(old(Data()), id)
    {
      var answered := Send();
      ok := answered && TaskById(Data(), space, id).Some?;
      if ok {
        log := log + [CancelledTask(id)];
      }
    }

    /** DELETE /api/{space}/releases/{id}. */
    method DeleteRelease(space: string, id: string) returns (ok: bool)
      requires Valid()
      modifies this`requests, this`unanswered, this`releases, this`log
      ensures requests == old(requests) + 1 && unanswered == old(unanswered) + (if old(requests) in failing then 1 else 0)
      ensures Valid()
      ensures ok <==> old(requests) !in failing && HasRelease(old(Data()), space, id)
      ensures !ok ==> Data() == old(Data())
      ensures ok ==> Data() == DropRelease(old(Data()), id)
    {
      var answered := Send();
      ok := answered && exists x :: x in releases && x.spaceId == space && x.id == id;
      if ok {
        WithoutKeyUnique(releases, ReleaseKey, id);
        releases := WithoutKey(releases, ReleaseKey, id);
        log := log + [DeletedRelease(id)];
      }
    }

    /** DELETE /api/{space}/projects/{project}/channels/{id}. */
    method DeleteChannel(space: string, project: string, id: string) returns (ok: bool)
      modifies this`requests, this`unanswered, this`channels, this`log
      ensures requests == old(requests) + 1 && unanswered == old(unanswered) + (if old(requests) in failing then 1 else 0)
      ensures ok <==> old(requests) !in failing && HasChannel(old(Data()), space, project, id)
      ensures !ok ==> Data() == old(Data())
      ensures ok ==> Data() == DropChannel(old(Data()), id)
    {
      var answered := Send();
      ok := answered && exists c :: c in channels && c.spaceId == space && c.projectId == project && c.id == id;
      if ok {
        channels := WithoutKey(channels, ChannelKey, id);
        log := log + [DeletedChannel(id)];
      }
    }

    /** DELETE /api/{space}/lifecycles/{id}. */
    method DeleteLifecycle(space: string, id: string) returns (ok: bool)
      modifies this`requests, this`unanswered, this`lifecycles, this`log
      ensures requests == old(requests) + 1 && unanswered == old(unanswered) + (if old(requests) in failing then 1 else 0)
      ensures ok <==> old(requests) !in failing && HasLifecycle(old(Data()), space, id)
      ensures !ok ==> Data() == old(Data())
      ensures ok ==> Data() == DropLifecycle(old(Data()), id)
    {
      var answered := Send();
      ok := answered && exists l :: l in lifecycles && l.spaceId == space && l.id == id;
      if ok {
        lifecycles := WithoutKey(lifecycles, LifecycleKey, id);
        log := log + [DeletedLifecycle(id)];
      }
    }

    /** DELETE /api/{space}/environments/{id}. */
    method DeleteEnvironment(space: string, id: string) returns (ok: bool)
      modifies this`requests, this`unanswered, this`environments, this`log
      ensures requests == old(requests) + 1 && unanswered == old(unanswered) + (if old(requests) in failing then 1 else 0)
      ensures ok <==> old(requests) !in failing && HasEnvironment(old(Data()), space, id)
      ensures !ok ==> Data() == old(Data())
      ensures ok ==> Data() == DropEnvironment(old(Data()), id)
    {
      var answered := Send();
      ok := answered && exists e :: e in environments && e.spaceId == space && e.id == id;
      if ok {
        environments := WithoutKey(environments, EnvironmentKey, id);
        log := log + [DeletedEnvironment(id)];
      }
    }

    /** Time passes between polls; meanwhile the platform finishes the tasks in `finished`. This
        is not a request. */
    method Elapse(finished: set<string>)
      requires Valid()
      modifies this`tasks
      ensures Valid() && Data() == Elapsed(old(Data()), finished)
    {
      tasks := Complete(tasks, finished);
    }
  }
}
