/** Looking resources up by name: `get_space_id`, `get_resource_id` and `find_channel`. Each
    searches the platform for the stripped name and keeps the first item whose name equals it. */
module Resolver {
  import opened Wrappers
  import opened Text
  import opened Lookup
  import opened Server

  /** `get_space_id` when every request is answered (lines 73-95): a blank name resolves to
      nothing; otherwise the first space whose name is the stripped name, or failing that the
      name itself when it is, unstripped, the id of a space. */
  function SpaceIdOf(p: Platform, name: Option<string>): Option<string> {
    if IsBlank(name) then None
    else
      match ResolveName(ItemsOf(p.spaces, SpaceItem), name.value)
      case Some(id) => Some(id)
      case None => if HasSpace(p, name.value) then Some(name.value) else None
  }

  /** `get_resource_id` when the request is answered (lines 98-114). */
  function ResourceIdOf(p: Platform, space: Option<string>, kind: Kind, name: Option<string>): Outcome<Option<string>> {
    if IsBlank(space) || IsBlank(name) then Ok(None)
    else if !HasSpace(p, space.value) then Err(UndecodableResponse)
    else Ok(ResolveName(Listing(p, kind, space.value), name.value))
  }

  /** `find_channel` when the request is answered (lines 193-209). */
  function ChannelIdOf(p: Platform, space: Option<string>, project: Option<string>, branch: Option<string>): Outcome<Option<string>> {
    if IsBlank(space) || IsBlank(project) || IsBlank(branch) then Ok(None)
    else if !HasProject(p, space.value, project.value) then Err(UndecodableResponse)
    else Ok(ResolveName(ChannelListing(p, space.value, project.value), branch.value))
  }

  /** For non-blank names and an existing project, the channel lookup is one resolver call on the
      project's channels. */
  lemma ChannelIdOfProject(p: Platform, space: string, project: string, branch: string)
    requires IsNotBlank(Some(space)) && IsNotBlank(Some(project)) && IsNotBlank(Some(branch)) && HasProject(p, space, project)
    ensures ChannelIdOf(p, Some(space), Some(project), Some(branch)) == Ok(ResolveName(ChannelListing(p, space, project), branch))
  {
  }

  /** The channel lookup reads only the projects and the channels. */
  lemma ChannelIdSameCatalog(p: Platform, q: Platform, space: Option<string>, project: Option<string>, branch: Option<string>)
    requires p.projects == q.projects && p.channels == q.channels
    ensures ChannelIdOf(p, space, project, branch) == ChannelIdOf(q, space, project, branch)
  {
  }

  /** `get_space_id`: no request for a blank name; an unanswered search is a decoding failure;
      an unanswered id probe means "not found". */
  method GetSpaceId(store: Store, name: Option<string>) returns (r: Outcome<Option<string>>)
    modifies store`requests, store`unanswered
    ensures IsBlank(name) ==> r == Ok(None) && store.requests == old(store.requests)
    ensures IsNotBlank(name) ==> old(store.requests) < store.requests <= old(store.requests) + 2
    ensures old(store.unanswered) <= store.unanswered
    ensures r.Err? <==> IsNotBlank(name) && old(store.requests) in store.failing
    ensures r.Err? ==> r.failure == UndecodableResponse
    ensures r.Ok? && r.value.Some? ==> HasSpace(store.Data(), r.value.value)
    ensures store.unanswered == old(store.unanswered) ==> r == Ok(SpaceIdOf(store.Data(), name))
  {
    if IsBlank(name) {
      return Ok(None);
    }
    var wanted := Strip(name.value);
    var listed := store.ListSpaces(wanted);
    if listed.None? {
      return Err(UndecodableResponse);
    }
    var found := FirstExactId(listed.value, wanted);
    if found.Some? {
      SpaceIdNamesSpace(store.Data(), name);
      return Ok(found);
    }
    var known := store.GetSpace(name.value);
    r := Ok(if known then Some(name.value) else None);
  }

  /** `get_resource_id`: no request when the space or the name is blank, a decoding failure when
      the request is not answered or the space does not exist. */
  method GetResourceId(store: Store, space: Option<string>, kind: Kind, name: Option<string>) returns (r: Outcome<Option<string>>)
    modifies store`requests, store`unanswered
    ensures store.requests == old(store.requests) + (if IsBlank(space) || IsBlank(name) then 0 else 1)
    ensures store.unanswered == old(store.unanswered) + (if IsNotBlank(space) && IsNotBlank(name) && old(store.requests) in store.failing then 1 else 0)
    ensures r == if IsNotBlank(space) && IsNotBlank(name) && old(store.requests) in store.failing then Err(UndecodableResponse)
      else ResourceIdOf(store.Data(), space, kind, name)
  {
    if IsBlank(space) || IsBlank(name) {
      return Ok(None);
    }
    var listed := store.ListResources(space.value, kind, Strip(name.value));
    if listed.None? {
      return Err(UndecodableResponse);
    }
    r := Ok(FirstExactId(listed.value, Strip(name.value)));
  }

  /** `find_channel`: the same search among the channels of one project. */
  method FindChannel(store: Store, space: Option<string>, project: Option<string>, branch: Option<string>) returns (r: Outcome<Option<string>>)
    modifies store`requests, store`unanswered
    ensures store.requests == old(store.requests) + (if IsBlank(space) || IsBlank(project) || IsBlank(branch) then 0 else 1)
    ensures store.unanswered == old(store.unanswered)
      + (if IsNotBlank(space) && IsNotBlank(project) && IsNotBlank(branch) && old(store.requests) in store.failing then 1 else 0)
    ensures r == if IsNotBlank(space) && IsNotBlank(project) && IsNotBlank(branch) && old(store.requests) in store.failing
      then Err(UndecodableResponse)
      else ChannelIdOf(store.Data(), space, project, branch)
  {
    if IsBlank(space) || IsBlank(project) || IsBlank(branch) {
      return Ok(None);
    }
    var listed := store.ListChannels(space.value, project.value, Strip(branch.value));
    if listed.None? {
      return Err(UndecodableResponse);
    }
    r := Ok(FirstExactId(listed.value, Strip(branch.value)));
  }

  /** A space id `get_space_id` returns always names an existing space. */
  lemma SpaceIdNamesSpace(p: Platform, name: Option<string>)
    ensures SpaceIdOf(p, name).Some? ==> HasSpace(p, SpaceIdOf(p, name).value)
  {
    if IsNotBlank(name) {
      var items := ItemsOf(p.spaces, SpaceItem);
      var found := ResolveName(items, name.value);
      if found.Some? {
        assert SpaceIdOf(p, name) == found;
        ResolveNameSound(items, name.value);
        var i :| 0 <= i < |items| && items[i] == Item(found.value, Strip(name.value));
        assert p.spaces[i] in p.spaces;
      }
    }
  }

  /** A channel id `find_channel` returns names an existing channel of the project. */
  lemma ChannelIdNamesChannel(p: Platform, space: Option<string>, project: Option<string>, branch: Option<string>)
    requires ChannelIdOf(p, space, project, branch).Ok? && ChannelIdOf(p, space, project, branch).value.Some?
    ensures HasChannel(p, space.value, project.value, ChannelIdOf(p, space, project, branch).value.value)
  {
    var cs := ChannelsOf(p.channels, space.value, project.value);
    var items := ItemsOf(cs, ChannelItem);
    var id := ChannelIdOf(p, space, project, branch).value.value;
    assert ResolveName(items, branch.value) == Some(id);
    ResolveNameSound(items, branch.value);
    var i :| 0 <= i < |items| && items[i] == Item(id, Strip(branch.value));
    assert cs[i] in cs;
  }

  /** An environment or lifecycle id `get_resource_id` returns names an existing one of the space. */
  lemma ResourceIdNamesResource(p: Platform, space: Option<string>, kind: Kind, name: Option<string>)
    requires ResourceIdOf(p, space, kind, name).Ok? && ResourceIdOf(p, space, kind, name).value.Some?
    ensures var id := ResourceIdOf(p, space, kind, name).value.value;
      && (kind == Environments ==> HasEnvironment(p, space.value, id))
      && (kind == Lifecycles ==> HasLifecycle(p, space.value, id))
  {
    var id := ResourceIdOf(p, space, kind, name).value.value;
    var items := Listing(p, kind, space.value);
    ResolveNameSound(items, name.value);
    var i :| 0 <= i < |items| && items[i] == Item(id, Strip(name.value));
    if kind == Environments {
      var es := EnvironmentsIn(p.environments, space.value);
      assert es[i] in es;
    } else if kind == Lifecycles {
      var ls := LifecyclesIn(p.lifecycles, space.value);
      assert ls[i] in ls;
    }
  }
}
