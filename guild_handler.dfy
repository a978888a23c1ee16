/** Guild wrappers that check required channels and roles, and the list of
    wrapped guilds the bot keeps (bot/classes/GuildHandler.py). A live
    guild is reduced to its id and its channel and role listings. */
module Guilds {
  import opened Common

  /** A channel or a role: both are found by name. */
  datatype Named = Named(id: int, name: string)
  type Channel = Named
  type Role = Named

  datatype Guild = Guild(id: int, channels: seq<Channel>, roles: seq<Role>)

  /** `GuildHandler.CustomGuild`: a guild with the channel and role names it must have. */
  datatype CustomGuild = CustomGuild(guild: Guild, requiredChannels: seq<string>, requiredRoles: seq<string>)

  predicate HasNamed(xs: seq<Named>, name: string) {
    exists i :: 0 <= i < |xs| && xs[i].name == name
  }

  /** Position of the first element called `name`, or `|xs|` when there is none. */
  function FirstIndex(xs: seq<Named>, name: string): (k: nat)
    ensures k <= |xs|
    ensures forall j :: 0 <= j < k ==> xs[j].name != name
    ensures k < |xs| ==> xs[k].name == name
  {
    if xs == [] then 0
    else if xs[0].name == name then 0
    else 1 + FirstIndex(xs[1..], name)
  }

  /** `discord.utils.get(xs, name=name)`: the first element with that exact name, or None. */
  function FirstNamed(xs: seq<Named>, name: string): (r: Option<Named>)
    ensures r.None? <==> !HasNamed(xs, name)
    ensures r.Some? ==> r.value.name == name && r.value in xs
    ensures r.Some? ==> r.value == xs[FirstIndex(xs, name)]
  {
    var k := FirstIndex(xs, name);
    if k < |xs| then Some(xs[k]) else None
  }

  /** `get_channel_obj`. */
  function GetChannelObj(cg: CustomGuild, name: string): (r: Option<Channel>)
    ensures r.None? <==> forall i :: 0 <= i < |cg.guild.channels| ==> cg.guild.channels[i].name != name
    ensures r.Some? ==> exists k :: 0 <= k < |cg.guild.channels| && r.value == cg.guild.channels[k]
                          && r.value.name == name
                          && forall i :: 0 <= i < k ==> cg.guild.channels[i].name != name
  {
    FirstNamed(cg.guild.channels, name)
  }

  /** `get_role_obj`. */
  function GetRoleObj(cg: CustomGuild, name: string): (r: Option<Role>)
    ensures r.None? <==> forall i :: 0 <= i < |cg.guild.roles| ==> cg.guild.roles[i].name != name
    ensures r.Some? ==> exists k :: 0 <= k < |cg.guild.roles| && r.value == cg.guild.roles[k]
                          && r.value.name == name
                          && forall i :: 0 <= i < k ==> cg.guild.roles[i].name != name
  {
    FirstNamed(cg.guild.roles, name)
  }

  /** `validate_channel`: the guild has a channel with that name. */
  function ValidateChannel(cg: CustomGuild, name: string): (r: bool)
    ensures r <==> exists i :: 0 <= i < |cg.guild.channels| && cg.guild.channels[i].name == name
  {
    GetChannelObj(cg, name).Some?
  }

  /** `validate_role`: the guild has a role with that name. */
  function ValidateRole(cg: CustomGuild, name: string): (r: bool)
    ensures r <==> exists i :: 0 <= i < |cg.guild.roles| && cg.guild.roles[i].name == name
  {
    GetRoleObj(cg, name).Some?
  }

  /** Python's `names or required`: None and the empty list both fall back. */
  function Effective(names: Option<seq<string>>, required: seq<string>): seq<string> {
    if names.None? || names.value == [] then required else names.value
  }

  predicate AllNamed(xs: seq<Named>, names: seq<string>) {
    forall n :: n in names ==> HasNamed(xs, n)
  }

  /** The names the validation diagnostic reports, in the order checked. */
  function Missing(xs: seq<Named>, names: seq<string>): seq<string> {
    if names == [] then []
    else
      var last := names[|names| - 1];
      Missing(xs, names[..|names| - 1]) + (if HasNamed(xs, last) then [] else [last])
  }

  /** The diagnostic is empty exactly when every name resolves. */
  lemma {:induction false} MissingEmptyIffAllNamed(xs: seq<Named>, names: seq<string>)
    ensures Missing(xs, names) == [] <==> AllNamed(xs, names)
  {
    if names != [] {
      var init := names[..|names| - 1];
      MissingEmptyIffAllNamed(xs, init);
      assert names == init + [names[|names| - 1]];
      assert forall n :: n in names <==> n in init || n == names[|names| - 1];
    }
  }

  /** The shared loop of `validate_channels` and `validate_roles`. */
  method ValidateNames(xs: seq<Named>, names: seq<string>) returns (allValid: bool, missing: seq<string>)
    ensures allValid <==> AllNamed(xs, names)
    ensures missing == Missing(xs, names)
  {
    allValid := true;
    missing := [];
    for i := 0 to |names|
      invariant allValid <==> AllNamed(xs, names[..i])
      invariant missing == Missing(xs, names[..i])
    {
      assert names[..i + 1][..i] == names[..i];
      assert forall n :: n in names[..i + 1] <==> n in names[..i] || n == names[i];
      if FirstNamed(xs, names[i]).None? {
        allValid := false;
        missing := missing + [names[i]];
      }
    }
    assert names[..|names|] == names;
  }

  /** `validate_channels`: every given channel name (or, for None or an empty list,
      every required one) names a channel of the guild. */
  method ValidateChannels(cg: CustomGuild, names: Option<seq<string>>) returns (allValid: bool, missing: seq<string>)
    ensures allValid <==> AllNamed(cg.guild.channels, Effective(names, cg.requiredChannels))
    ensures missing == Missing(cg.guild.channels, Effective(names, cg.requiredChannels))
  {
    allValid, missing := ValidateNames(cg.guild.channels, Effective(names, cg.requiredChannels));
  }

  /** `validate_roles`: the same rule over roles and the required roles. */
  method ValidateRoles(cg: CustomGuild, names: Option<seq<string>>) returns (allValid: bool, missing: seq<string>)
    ensures allValid <==> AllNamed(cg.guild.roles, Effective(names, cg.requiredRoles))
    ensures missing == Missing(cg.guild.roles, Effective(names, cg.requiredRoles))
  {
    allValid, missing := ValidateNames(cg.guild.roles, Effective(names, cg.requiredRoles));
  }

  predicate GuildValid(cg: CustomGuild) {
    AllNamed(cg.guild.channels, cg.requiredChannels) && AllNamed(cg.guild.roles, cg.requiredRoles)
  }

  /** `validate_guild`: channels valid and roles valid, against the required lists. */
  method ValidateGuild(cg: CustomGuild) returns (r: bool)
    ensures r <==> GuildValid(cg)
  {
    var channelsValid, channelErrors := ValidateChannels(cg, None);
    var rolesValid, roleErrors := ValidateRoles(cg, None);
    r := channelsValid && rolesValid;
  }

  /** With nothing required, every guild passes validation. */
  lemma NothingRequiredAlwaysValid(g: Guild)
    ensures GuildValid(CustomGuild(g, [], []))
  {
  }

  /** A guild passes exactly when it lacks none of the required channels and roles. */
  lemma GuildValidIffNothingMissing(cg: CustomGuild)
    ensures GuildValid(cg) <==> Missing(cg.guild.channels, cg.requiredChannels) == []
                                && Missing(cg.guild.roles, cg.requiredRoles) == []
  {
    MissingEmptyIffAllNamed(cg.guild.channels, cg.requiredChannels);
    MissingEmptyIffAllNamed(cg.guild.roles, cg.requiredRoles);
  }

  predicate FirstGuildAt(cgs: seq<CustomGuild>, id: int, k: int) {
    && 0 <= k < |cgs|
    && cgs[k].guild.id == id
    && forall j :: 0 <= j < k ==> cgs[j].guild.id != id
  }

  class GuildHandler {
    var customGuilds: seq<CustomGuild>
    var requiredChannels: seq<string>
    var requiredRoles: seq<string>

    /** `GuildHandler.__init__`: None and the empty list both give an empty requirement. */
    constructor (requiredChannels: Option<seq<string>>, requiredRoles: Option<seq<string>>)
      ensures customGuilds == []
      ensures this.requiredChannels == Effective(requiredChannels, [])
      ensures this.requiredRoles == Effective(requiredRoles, [])
    {
      customGuilds := [];
      this.requiredChannels := if requiredChannels.None? then [] else requiredChannels.value;
      this.requiredRoles := if requiredRoles.None? then [] else requiredRoles.value;
    }

    /** `new_guild`: wraps a guild with this handler's requirements. */
    function NewGuild(g: Guild): (cg: CustomGuild)
      reads this
      ensures cg.guild == g
      ensures GuildValid(cg) <==> AllNamed(g.channels, requiredChannels) && AllNamed(g.roles, requiredRoles)
    {
      CustomGuild(g, requiredChannels, requiredRoles)
    }

    /** `add_guild`. Its test reads the bound method `validate_guild` without calling
        it, and a bound method is always truthy: every guild is appended. */
    method AddGuild(g: Guild)
      modifies this
      ensures customGuilds == old(customGuilds) + [old(NewGuild(g))]
      ensures requiredChannels == old(requiredChannels) && requiredRoles == old(requiredRoles)
    {
      var cg := NewGuild(g);
      customGuilds := customGuilds + [cg];
    }

    /** `initialize_guilds`: one wrapper per client guild, in the client's order. */
    method InitializeGuilds(guilds: seq<Guild>)
      modifies this
      ensures |customGuilds| == |old(customGuilds)| + |guilds|
      ensures customGuilds[..|old(customGuilds)|] == old(customGuilds)
      ensures forall i :: 0 <= i < |guilds| ==>
                customGuilds[|old(customGuilds)| + i] == CustomGuild(guilds[i], requiredChannels, requiredRoles)
      ensures requiredChannels == old(requiredChannels) && requiredRoles == old(requiredRoles)
    {
      for i := 0 to |guilds|
        invariant |customGuilds| == |old(customGuilds)| + i
        invariant customGuilds[..|old(customGuilds)|] == old(customGuilds)
        invariant forall j :: 0 <= j < i ==>
                    customGuilds[|old(customGuilds)| + j] == CustomGuild(guilds[j], requiredChannels, requiredRoles)
        invariant requiredChannels == old(requiredChannels) && requiredRoles == old(requiredRoles)
      {
        AddGuild(guilds[i]);
      }
    }

    /** `get_custom_guild` as written: the scan compares against `custom_guild.id`, an
        attribute `CustomGuild` never sets, so any non-empty list raises on its first entry. */
    method GetCustomGuild(g: Guild) returns (r: Result<Option<CustomGuild>>)
      ensures customGuilds == [] ==> r == Ok(None)
      ensures customGuilds != [] ==> r == Err(AttributeError("'CustomGuild' object has no attribute 'id'"))
    {
      if |customGuilds| > 0 {
        return Err(AttributeError("'CustomGuild' object has no attribute 'id'"));
      }
      return Ok(None);
    }

    /** `get_custom_guild` comparing against the wrapped guild's id: the first match in list order. */
    method FindCustomGuild(g: Guild) returns (r: Option<CustomGuild>)
      ensures r.None? <==> forall i :: 0 <= i < |customGuilds| ==> customGuilds[i].guild.id != g.id
      ensures r.Some? ==> exists k :: FirstGuildAt(customGuilds, g.id, k) && customGuilds[k] == r.value
    {
      var i := 0;
      while i < |customGuilds|
        invariant 0 <= i <= |customGuilds|
        invariant forall j :: 0 <= j < i ==> customGuilds[j].guild.id != g.id
      {
        if customGuilds[i].guild.id == g.id {
          assert FirstGuildAt(customGuilds, g.id, i);
          return Some(customGuilds[i]);
        }
        i := i + 1;
      }
      return None;
    }
  }

  /** Joining the same guild twice leaves two wrappers for it: nothing deduplicates. */
  method JoinTwice(g: Guild) returns (count: nat)
    ensures count == 2
  {
    var handler := new GuildHandler(None, None);
    handler.AddGuild(g);
    handler.AddGuild(g);
    count := |handler.customGuilds|;
  }

  /** A guild just added cannot be looked up with `get_custom_guild` as written. */
  method LookupAfterJoinAsWritten(g: Guild) returns (r: Result<Option<CustomGuild>>)
    ensures r == Err(AttributeError("'CustomGuild' object has no attribute 'id'"))
  {
    var handler := new GuildHandler(None, None);
    handler.AddGuild(g);
    r := handler.GetCustomGuild(g);
  }

  /** A guild just added is found by the lookup that compares wrapped guild ids. */
  method LookupAfterJoin(g: Guild) returns (r: Option<CustomGuild>)
    ensures r == Some(CustomGuild(g, [], []))
  {
    var handler := new GuildHandler(None, None);
    handler.AddGuild(g);
    assert handler.customGuilds == [CustomGuild(g, [], [])];
    assert handler.customGuilds[0].guild.id == g.id;
    r := handler.FindCustomGuild(g);
  }
}
