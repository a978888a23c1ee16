/** Reply descriptors built from message templates, and the choice of the
    channel a reply goes to (bot/classes/EmbedHandler.py). The templates are
    the parsed embed configuration file; filling their placeholders with
    `str.format` is not modelled, so a descriptor keeps the raw template
    text together with the arguments it would be filled with. */
module Embeds {
  import opened Common
  import opened Guilds

  /** The three colour keys of the colour map. */
  datatype Color = Default | Success | Failure

  /** One entry of the embed configuration: field name to text. */
  type Template = map<string, string>

  /** The configuration key of a colour. */
  function ColorKey(c: Color): string {
    match c
    case Default => "DEFAULT"
    case Success => "SUCCESS"
    case Failure => "FAILURE"
  }

  /** `self._color_map[key]`: only the three colour keys resolve; anything else,
      a missing "color" field included, raises KeyError. */
  function ColorOf(key: Option<string>): (r: Result<Color>)
    ensures r.Ok? <==> key.Some? && key.value in {"DEFAULT", "SUCCESS", "FAILURE"}
    ensures r.Ok? ==> key == Some(ColorKey(r.value))
    ensures r.Err? ==> r.error.KeyError?
  {
    match key
    case Some("DEFAULT") => Ok(Default)
    case Some("SUCCESS") => Ok(Success)
    case Some("FAILURE") => Ok(Failure)
    case Some(k) => Err(KeyError(k))
    case None => Err(KeyError("None"))
  }

  /** Every colour is found again under its own key. */
  lemma ColorRoundTrip(c: Color)
    ensures ColorOf(Some(ColorKey(c))) == Ok(c)
  {
  }

  /** `dict.get(key)`. */
  function Lookup(t: Template, key: string): (r: Option<string>)
    ensures r.Some? <==> key in t
    ensures r.Some? ==> r.value == t[key]
  {
    if key in t then Some(t[key]) else None
  }

  function MissingKeyMessage(key: string): string {
    "Embed key '" + key + "' not found in configuration."
  }

  /** `_get_embed_format`: the stored template; a missing key or an empty template raises ValueError. */
  function GetEmbedFormat(messages: map<string, Template>, key: string): (r: Result<Template>)
    ensures r.Ok? <==> key in messages && messages[key] != map[]
    ensures r.Ok? ==> r.value == messages[key]
    ensures r.Err? ==> r.error == ValueError(MissingKeyMessage(key))
  {
    if key !in messages || messages[key] == map[] then Err(ValueError(MissingKeyMessage(key)))
    else Ok(messages[key])
  }

  /** What a `CustomEmbed` carries: the title and description templates, the colour,
      the destination channel name (`None` when the template names none) and the
      format arguments. */
  datatype EmbedData = EmbedData(
    title: string,
    description: string,
    color: Color,
    channelName: Option<string>,
    args: map<string, string>)

  const NoFormatError := AttributeError("'NoneType' object has no attribute 'format'")

  /** `get_embed(key, **args)`: the descriptor built from template `key`. The
      constructor arguments are evaluated in order, so a missing title is reported
      before a missing description, and both before a bad colour. */
  function EmbedFor(messages: map<string, Template>, key: string, args: map<string, string>): (r: Result<EmbedData>)
    ensures r.Ok? <==> && GetEmbedFormat(messages, key).Ok?
                       && "title" in messages[key] && "description" in messages[key]
                       && ColorOf(Lookup(messages[key], "color")).Ok?
    ensures GetEmbedFormat(messages, key).Err? ==> r == Err(GetEmbedFormat(messages, key).error)
    ensures GetEmbedFormat(messages, key).Ok? && ("title" !in messages[key] || "description" !in messages[key]) ==>
              r == Err(NoFormatError)
    ensures r.Ok? ==> && r.value.title == messages[key]["title"]
                      && r.value.description == messages[key]["description"]
                      && Some(ColorKey(r.value.color)) == Lookup(messages[key], "color")
                      && r.value.channelName == Lookup(messages[key], "channel")
                      && r.value.args == args
  {
    var data := GetEmbedFormat(messages, key);
    if data.Err? then Err(data.error)
    else
      var t := data.value;
      if "title" !in t || "description" !in t then Err(NoFormatError)
      else
        var color := ColorOf(Lookup(t, "color"));
        if color.Err? then Err(color.error)
        else Ok(EmbedData(t["title"], t["description"], color.value, Lookup(t, "channel"), args))
  }

  /** A template with a title, a description and one of the three colour keys always
      yields a descriptor addressed to the template's "channel" field. */
  lemma WellFormedTemplateBuilds(messages: map<string, Template>, key: string, args: map<string, string>, c: Color)
    requires key in messages
    requires "title" in messages[key] && "description" in messages[key]
    requires "color" in messages[key] && messages[key]["color"] == ColorKey(c)
    ensures EmbedFor(messages, key, args).Ok?
    ensures EmbedFor(messages, key, args).value.color == c
    ensures EmbedFor(messages, key, args).value.channelName == Lookup(messages[key], "channel")
  {
    ColorRoundTrip(c);
  }

  /** The channel `set_channel_obj` settles on. An empty template channel name with a
      message channel replies in place; otherwise the name is looked up among the
      guild's channels (a template without a channel name finds none), and that
      lookup raises when the embed has no guild. */
  function Target(channelName: Option<string>, guild: Option<Guild>, msgChannel: Option<Channel>): (r: Result<Option<Channel>>)
    ensures r.Err? <==> !(channelName == Some("") && msgChannel.Some?) && guild.None?
    ensures r.Ok? && r.value.Some? ==>
              || (r.value == msgChannel && channelName == Some(""))
              || (guild.Some? && channelName.Some? && r.value.value in guild.value.channels
                  && r.value.value.name == channelName.value)
  {
    if channelName == Some("") && msgChannel.Some? then Ok(msgChannel)
    else if guild.None? then Err(AttributeError("'NoneType' object has no attribute 'channels'"))
    else if channelName.None? then Ok(None)
    else Ok(FirstNamed(guild.value.channels, channelName.value))
  }

  /** An empty channel name replies in the channel the message came from. */
  lemma ReplyInPlace(guild: Option<Guild>, msgChannel: Channel)
    ensures Target(Some(""), guild, Some(msgChannel)) == Ok(Some(msgChannel))
  {
  }

  /** A named channel, or an empty name with no message channel, is looked up by name. */
  lemma NamedTarget(name: string, g: Guild, msgChannel: Option<Channel>)
    requires name != "" || msgChannel.None?
    ensures Target(Some(name), Some(g), msgChannel) == Ok(FirstNamed(g.channels, name))
  {
  }

  function NoChannelMessage(title: string): string {
    "Embed '" + title + "' needs a channel in order to be sent!."
  }

  /** What `send(guild, msg_channel)` does: delivers to the resolved channel, or raises. */
  function SendOutcome(data: EmbedData, guild: Option<Guild>, msgChannel: Option<Channel>): (r: Result<Channel>)
    ensures r.Ok? <==> Target(data.channelName, guild, msgChannel).Ok? && Target(data.channelName, guild, msgChannel).value.Some?
    ensures r.Ok? ==> Target(data.channelName, guild, msgChannel) == Ok(Some(r.value))
    ensures Target(data.channelName, guild, msgChannel) == Ok(None) ==> r == Err(ValueError(NoChannelMessage(data.title)))
  {
    var t := Target(data.channelName, guild, msgChannel);
    if t.Err? then Err(t.error)
    else if t.value.None? then Err(ValueError(NoChannelMessage(data.title)))
    else Ok(t.value.value)
  }

  /** A reply addressed to a channel the guild lacks is never silently dropped. */
  lemma MissingChannelRaises(data: EmbedData, g: Guild, msgChannel: Option<Channel>)
    requires data.channelName.Some? && !HasNamed(g.channels, data.channelName.value)
    requires data.channelName != Some("") || msgChannel.None?
    ensures SendOutcome(data, Some(g), msgChannel) == Err(ValueError(NoChannelMessage(data.title)))
  {
  }

  /** The wrapped guild's underlying guild, as the lookups see it. */
  function Unwrapped(cg: Option<CustomGuild>): Option<Guild> {
    if cg.Some? then Some(cg.value.guild) else None
  }

  /** `EmbedHandler.CustomEmbed`: a descriptor that finds its own destination when sent. */
  class CustomEmbed {
    const data: EmbedData
    const guildHandler: GuildHandler
    var channelObj: Option<Channel>
    var guild: Option<CustomGuild>

    constructor (data: EmbedData, guildHandler: GuildHandler)
      ensures this.data == data && this.guildHandler == guildHandler
      ensures channelObj == None && guild == None
    {
      this.data := data;
      this.guildHandler := guildHandler;
      channelObj := None;
      guild := None;
    }

    /** `set_guild`: wraps the message's guild (None outside a guild) with the handler's requirements. */
    method SetGuild(g: Option<Guild>)
      modifies this
      ensures guild == if g.Some? then Some(guildHandler.NewGuild(g.value)) else None
      ensures Unwrapped(guild) == g
      ensures channelObj == old(channelObj)
    {
      if g.Some? {
        guild := Some(guildHandler.NewGuild(g.value));
      } else {
        guild := None;
      }
    }

    /** `set_channel_obj`: records the target channel, or raises looking it up without a guild. */
    method SetChannelObj(msgChannel: Option<Channel>) returns (r: Result<Option<Channel>>)
      modifies this
      ensures r == Target(data.channelName, Unwrapped(guild), msgChannel)
      ensures r.Ok? ==> channelObj == r.value
      ensures r.Err? ==> channelObj == old(channelObj)
      ensures guild == old(guild)
    {
      if data.channelName == Some("") && msgChannel.Some? {
        channelObj := msgChannel;
        return Ok(msgChannel);
      }
      if guild.None? {
        return Err(AttributeError("'NoneType' object has no attribute 'channels'"));
      }
      var found := if data.channelName.Some? then GetChannelObj(guild.value, data.channelName.value) else None;
      channelObj := found;
      return Ok(found);
    }

    /** `send`: sets the guild and the channel, then delivers to that channel or raises. */
    method Send(g: Option<Guild>, msgChannel: Option<Channel>) returns (r: Result<Channel>)
      modifies this
      ensures r == SendOutcome(data, g, msgChannel)
      ensures guild == (if g.Some? then Some(guildHandler.NewGuild(g.value)) else None)
      ensures Unwrapped(guild) == g
      ensures Target(data.channelName, g, msgChannel).Ok? ==> channelObj == Target(data.channelName, g, msgChannel).value
    {
      SetGuild(g);
      var target := SetChannelObj(msgChannel);
      if target.Err? {
        return Err(target.error);
      }
      if channelObj.Some? {
        return Ok(channelObj.value);
      }
      return Err(ValueError(NoChannelMessage(data.title)));
    }
  }

  /** `EmbedHandler`: the templates, the colour map and a guild handler of its own. */
  class EmbedHandler {
    const guildHandler: GuildHandler
    const messages: map<string, Template>
    var guild: Option<Guild>

    /** `EmbedHandler.__init__`: its guild handler requires nothing. */
    constructor (messages: map<string, Template>)
      ensures fresh(guildHandler)
      ensures guildHandler.customGuilds == [] && guildHandler.requiredChannels == [] && guildHandler.requiredRoles == []
      ensures this.messages == messages && guild == None
    {
      guildHandler := new GuildHandler(None, None);
      this.messages := messages;
      guild := None;
    }

    /** `get_embed`: a new descriptor from template `key`, or the error building it raises. */
    method GetEmbed(key: string, args: map<string, string>) returns (r: Result<CustomEmbed>)
      ensures r.Err? ==> EmbedFor(messages, key, args) == Err(r.error)
      ensures r.Ok? ==> EmbedFor(messages, key, args) == Ok(r.value.data)
      ensures r.Ok? ==> fresh(r.value) && r.value.guildHandler == guildHandler
                        && r.value.channelObj == None && r.value.guild == None
    {
      var format := GetEmbedFormat(messages, key);
      if format.Err? {
        return Err(format.error);
      }
      var data := format.value;
      var channelName := Lookup(data, "channel");
      var title := Lookup(data, "title");
      if title.None? {
        return Err(NoFormatError);
      }
      var description := Lookup(data, "description");
      if description.None? {
        return Err(NoFormatError);
      }
      var color := ColorOf(Lookup(data, "color"));
      if color.Err? {
        return Err(color.error);
      }
      var embed := new CustomEmbed(EmbedData(title.value, description.value, color.value, channelName, args), guildHandler);
      return Ok(embed);
    }

    /** `EmbedHandler.set_guild`. */
    method SetGuild(g: Option<Guild>)
      modifies this
      ensures guild == g
    {
      guild := g;
    }
  }
}
