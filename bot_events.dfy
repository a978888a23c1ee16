/** The event handlers of bot/bot.py: which messages get a reply and by which path,
    the `send_embed` step, and the guild-join, ready and refresh events. The Discord
    client itself is not modelled: an event is a method call on the bot object and a
    send is the channel it would write to, or the exception it would raise. */
module Events {
  import opened Common
  import opened Sql
  import opened Guilds
  import opened Embeds
  import opened BotCore

  /** The parts of a Discord message the handlers read. */
  datatype Message = Message(
    authorId: int,          // `msg.author`, compared with the bot's own user by its id
    mention: string,        // `msg.author.mention`
    hasAttachments: bool,   // `msg.attachments` is non-empty
    content: string,
    guild: Option<Guild>,   // None for a direct message
    channel: Channel)

  /** The branch `on_message` takes. */
  datatype Decision = Ignored | NotReady | Dispatch

  /** `on_message`'s guards, in the order the handler applies them: its own messages and
      messages with attachments first, then the prefix, then the ready flag. */
  function Decide(msg: Message, selfId: int, prefix: string, ready: bool): (d: Decision)
    ensures d == Ignored <==> msg.authorId == selfId || msg.hasAttachments || !(prefix <= msg.content)
    ensures d == NotReady <==> msg.authorId != selfId && !msg.hasAttachments && prefix <= msg.content && !ready
    ensures d == Dispatch <==> msg.authorId != selfId && !msg.hasAttachments && prefix <= msg.content && ready
  {
    if msg.authorId == selfId || msg.hasAttachments then Ignored
    else if !(prefix <= msg.content) then Ignored
    else if !ready then NotReady
    else Dispatch
  }

  /** What handling one message comes to. */
  datatype Outcome =
    | Silent                            // no reply is attempted
    | Attempted(sent: Result<Channel>)  // one send: the channel written to, or what `send` raised
    | Raised(error: Error)              // building the reply raised; nothing is sent

  /** `send_embed` handed the flag `update_database` returns: a bool has no `send`. */
  const BoolSendError := AttributeError("'bool' object has no attribute 'send'")

  /** `send_embed` on a reply that is not None: an embed goes through `CustomEmbed.send`. */
  function Delivered(reply: Result<ReplyValue>, guild: Option<Guild>, channel: Channel): (o: Outcome)
    ensures o.Raised? <==> reply.Err?
    ensures o.Raised? ==> o.error == reply.error
    ensures o.Attempted? && o.sent.Ok? ==> reply.Ok? && reply.value.EmbedValue?
  {
    if reply.Err? then Raised(reply.error)
    else if reply.value.FlagValue? then Attempted(Err(BoolSendError))
    else Attempted(SendOutcome(reply.value.data, guild, Some(channel)))
  }

  /** The reply `on_message` gives while the bot is not ready. */
  function NotReadyReply(cfg: Config, msg: Message): Result<EmbedData> {
    EmbedFor(cfg.messages, "bot-not-ready", map["mention" := msg.mention])
  }

  /** One message's outcome and what it leaves in the course table and the ready flag. */
  datatype Step = Step(outcome: Outcome, store: map<int, Course>, ready: bool)

  /** The reply built for a message that passed the guards, and what building it left
      behind: the not-ready embed, or what `handle_command` returns and changes. */
  function ReplyFor(cfg: Config, msg: Message, m: map<int, Course>, ready: bool, fault: Option<nat>): (h: Handled)
    ensures !ready ==> h == Handled(Embedded(NotReadyReply(cfg, msg)), m, false)
  {
    if ready then Handle(cfg, Route(CommandTable(cfg.prefix), cfg.owner, msg.content, msg.authorId), m, ready, msg.authorId, fault)
    else Handled(Embedded(NotReadyReply(cfg, msg)), m, ready)
  }

  /** `on_message`. Only dispatch can reach a handler, so only dispatch can change the
      table or the flag; every message that passes the guards gets one send attempt
      unless building its reply raises. */
  function OnMessageStep(cfg: Config, selfId: int, msg: Message, m: map<int, Course>, ready: bool, fault: Option<nat>): (s: Step)
    ensures Decide(msg, selfId, cfg.prefix, ready) != Dispatch ==> s.store == m && s.ready == ready
    ensures s.outcome == Silent <==> Decide(msg, selfId, cfg.prefix, ready) == Ignored
    ensures Decide(msg, selfId, cfg.prefix, ready) == NotReady ==>
              s.outcome == Delivered(Embedded(NotReadyReply(cfg, msg)), msg.guild, msg.channel)
  {
    if Decide(msg, selfId, cfg.prefix, ready) == Ignored then Step(Silent, m, ready)
    else
      var h := ReplyFor(cfg, msg, m, ready, fault);
      Step(Delivered(h.reply, msg.guild, msg.channel), h.store, h.ready)
  }

  /** While the bot is not ready, the command after the prefix makes no difference:
      `handle_command` is never reached. */
  lemma NotReadyIgnoresCommand(cfg: Config, selfId: int, msg: Message, other: string, m: map<int, Course>, fault: Option<nat>)
    requires cfg.prefix <= msg.content && cfg.prefix <= other
    ensures OnMessageStep(cfg, selfId, msg, m, false, fault) == OnMessageStep(cfg, selfId, msg.(content := other), m, false, fault)
  {
    assert Decide(msg, selfId, cfg.prefix, false) == Decide(msg.(content := other), selfId, cfg.prefix, false);
  }

  /** A prefix holding a non-blank character makes every prefixed message carry a token,
      so `argv[0]` never raises on a message that passed the prefix test. */
  lemma PrefixedHasToken(cfg: Config, content: string, authorId: int, k: nat)
    requires k < |cfg.prefix| && !IsSpace(cfg.prefix[k])
    requires cfg.prefix <= content
    ensures Route(CommandTable(cfg.prefix), cfg.owner, content, authorId) != NoToken
  {
    assert content[k] == cfg.prefix[k];
  }

  /** The owner's `update` command runs the sync pass, and its reply then fails to send:
      the handler returns the ready flag, not an embed. */
  lemma UpdateReplyNeverSent(cfg: Config, selfId: int, msg: Message, m: map<int, Course>, fault: Option<nat>)
    requires Plain(cfg.prefix)
    requires msg.content == cfg.prefix + "update"
    requires msg.authorId == cfg.owner && msg.authorId != selfId && !msg.hasAttachments
    ensures OnMessageStep(cfg, selfId, msg, m, true, fault).outcome == Attempted(Err(BoolSendError))
    ensures var s := OnMessageStep(cfg, selfId, msg, m, true, fault); SyncResult(s.store, s.ready) == Sync(m, fault)
  {
    TriggerRoutes(cfg.prefix, cfg.owner, 2, msg.authorId);
    assert Items(cfg.prefix)[2].trigger == msg.content;
    assert cfg.prefix <= msg.content;
  }

  /** Anyone other than the owner who sends `update` gets the refusal, and the table and
      the ready flag stay as they were. */
  lemma UpdateRefusedToOthers(cfg: Config, selfId: int, msg: Message, m: map<int, Course>, fault: Option<nat>)
    requires Plain(cfg.prefix)
    requires msg.content == cfg.prefix + "update"
    requires msg.authorId != cfg.owner && msg.authorId != selfId && !msg.hasAttachments
    ensures OnMessageStep(cfg, selfId, msg, m, true, fault) ==
              Step(Delivered(Embedded(EmbedFor(cfg.messages, "unauthorized-user", map[])), msg.guild, msg.channel), m, true)
  {
    TriggerRoutes(cfg.prefix, cfg.owner, 2, msg.authorId);
    assert Items(cfg.prefix)[2].trigger == msg.content;
    assert cfg.prefix <= msg.content;
  }

  /** `send_embed`: nothing for None, otherwise one call to the reply's `send`. */
  method SendEmbed(embed: Option<Reply>, guild: Option<Guild>, channel: Channel) returns (o: Outcome)
    modifies if embed.Some? && embed.value.EmbedReply? then {embed.value.embed} else {}
    ensures embed.None? ==> o == Silent
    ensures embed.Some? ==> o == Delivered(ValueOf(Ok(embed.value)), guild, channel)
  {
    if embed.None? {
      return Silent;
    }
    match embed.value
    case FlagReply(_) =>
      return Attempted(Err(BoolSendError));
    case EmbedReply(e) =>
      var sent := e.Send(guild, Some(channel));
      return Attempted(sent);
  }

  /** The reply `on_message` builds for a message that passed the guards: the not-ready
      embed, or whatever `handle_command` returns. */
  method BuildReply(bot: Bot, msg: Message, fault: Option<nat>) returns (embed: Result<Reply>)
    requires bot.Valid()
    modifies bot, bot.store
    ensures bot.Valid()
    ensures Handled(ValueOf(embed), bot.store.courses, bot.ready) ==
              ReplyFor(bot.config, msg, old(bot.store.courses), old(bot.ready), fault)
    ensures embed.Ok? && embed.value.EmbedReply? ==> fresh(embed.value.embed)
  {
    if !bot.ready {
      var e := bot.embeds.GetEmbed("bot-not-ready", map["mention" := msg.mention]);
      embed := AsReply(e);
    } else {
      embed := bot.HandleCommand(msg.content, msg.authorId, fault);
    }
  }

  /** `on_message`. */
  method OnMessage(bot: Bot, selfId: int, msg: Message, fault: Option<nat>) returns (o: Outcome)
    requires bot.Valid()
    modifies bot, bot.store
    ensures bot.Valid()
    ensures Step(o, bot.store.courses, bot.ready) ==
              OnMessageStep(bot.config, selfId, msg, old(bot.store.courses), old(bot.ready), fault)
  {
    if msg.authorId == selfId || msg.hasAttachments {
      return Silent;
    }
    if bot.config.prefix <= msg.content {
      ghost var h := ReplyFor(bot.config, msg, bot.store.courses, bot.ready, fault);
      var embed := BuildReply(bot, msg, fault);
      assert ValueOf(embed) == h.reply;
      if embed.Err? {
        return Raised(embed.error);
      }
      o := SendEmbed(Some(embed.value), msg.guild, msg.channel);
      assert o == Delivered(h.reply, msg.guild, msg.channel);
      return;
    }
    return Silent;
  }

  /** `on_guild_join`: the guild is wrapped and appended, whether or not it is valid. */
  method OnGuildJoin(bot: Bot, g: Guild)
    requires bot.Valid()
    modifies bot.guilds
    ensures bot.Valid()
    ensures bot.guilds.customGuilds ==
              old(bot.guilds.customGuilds) + [CustomGuild(g, bot.guilds.requiredChannels, bot.guilds.requiredRoles)]
  {
    bot.guilds.AddGuild(g);
  }

  /** `on_ready`: every guild the client is in is registered, in the client's order. The
      periodic refresh it starts is `PassiveUpdate`, once per tick. */
  method OnReady(bot: Bot, clientGuilds: seq<Guild>)
    requires bot.Valid()
    modifies bot.guilds
    ensures bot.Valid()
    ensures |bot.guilds.customGuilds| == |old(bot.guilds.customGuilds)| + |clientGuilds|
    ensures bot.guilds.customGuilds[..|old(bot.guilds.customGuilds)|] == old(bot.guilds.customGuilds)
    ensures forall i :: 0 <= i < |clientGuilds| ==>
              bot.guilds.customGuilds[|old(bot.guilds.customGuilds)| + i] ==
                CustomGuild(clientGuilds[i], bot.guilds.requiredChannels, bot.guilds.requiredRoles)
  {
    bot.guilds.InitializeGuilds(clientGuilds);
  }

  /** One run of `passive_update_database`. */
  method PassiveUpdate(bot: Bot, fault: Option<nat>)
    requires bot.Valid()
    modifies bot, bot.store
    ensures bot.Valid()
    ensures SyncResult(bot.store.courses, bot.ready) == Sync(old(bot.store.courses), fault)
  {
    var _ := bot.UpdateDatabase(fault);
  }

  /** A bot that has just started answers every prefixed message from someone else with
      the not-ready reply. */
  method FreshBotNotReady(cfg: Config, persisted: map<int, Course>, selfId: int, msg: Message) returns (o: Outcome)
    requires KeysMatchIds(persisted)
    requires msg.authorId != selfId && !msg.hasAttachments && cfg.prefix <= msg.content
    ensures o == Delivered(Embedded(NotReadyReply(cfg, msg)), msg.guild, msg.channel)
  {
    var bot := new Bot(cfg, persisted);
    o := OnMessage(bot, selfId, msg, None);
  }

  /** After a refresh that raised nothing, the owner's `hello` is answered with the
      `hello` template, and a second refresh changes nothing. */
  method HelloAfterRefresh(cfg: Config, selfId: int, msg: Message) returns (o: Outcome, again: map<int, Course>)
    requires Plain(cfg.prefix)
    requires msg.content == cfg.prefix + "hello" && msg.authorId != selfId && !msg.hasAttachments
    ensures o == Delivered(Embedded(EmbedFor(cfg.messages, "hello", map["prefix" := cfg.prefix])), msg.guild, msg.channel)
    ensures again == Sync(map[], None).store
  {
    var bot := new Bot(cfg, map[]);
    PassiveUpdate(bot, None);
    SyncEstablishes(map[]);
    TriggerRoutes(cfg.prefix, cfg.owner, 0, msg.authorId);
    assert Items(cfg.prefix)[0].trigger == msg.content;
    o := OnMessage(bot, selfId, msg, None);
    PassiveUpdate(bot, None);
    SyncIdempotent(map[]);
    again := bot.store.courses;
  }
}
