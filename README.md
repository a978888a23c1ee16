# Course bot model

A Dafny model of the core of a small Discord course bot (cwhitti/Medium-Discord-Bot).

The bot keeps a table of courses keyed by id. A reconciliation pass, `update_database`, inserts six canonical courses, renames course 1001 when its name is stale, and sets a `ready` flag. A message that starts with the bot's prefix is handled in one of two ways:

- While the bot is not ready, it is answered with a "not ready" embed.
- Once the bot is ready, it is dispatched on its lowercased first word through a command table (`hello`, `help`, `update`).

Replies are embeds built from message templates. Each embed is sent either to the channel the message came from or to a channel the template names in the message's guild. The bot also keeps a list of guild wrappers that check for required channels and roles.

The model has one module per source file:

| module | file | source |
|---|---|---|
| `Common` | `common.dfy` | `Option`/`Result`, the Python exceptions that escape, `str.split()[0]`, `str.lower()` |
| `Sql` | `sql_handler.dfy` | `bot/classes/SQLHandler.py`: the class `SQLHandler` over a `map<int, Course>` |
| `Guilds` | `guild_handler.dfy` | `bot/classes/GuildHandler.py`: `CustomGuild` as a value, the class `GuildHandler` with its list |
| `Embeds` | `embed_handler.dfy` | `bot/classes/EmbedHandler.py`: the classes `CustomEmbed` and `EmbedHandler`, template and colour lookup, channel targeting |
| `BotCore` | `bot_class.dfy` | `bot/classes/Bot.py`: the command table, the router, the help listing, the sync pass, the class `Bot` |
| `Events` | `bot_events.dfy` | `bot/bot.py`: `on_message`, `send_embed`, `on_guild_join`, `on_ready`, one refresh tick |

Each stateful Python class is a Dafny `class`. Its methods are proved against pure specification functions, for example:

- `Sync` for `update_database`;
- `Handle` and `Route` for `handle_command`;
- `HelpText` for `help`;
- `Target` and `SendOutcome` for `send`;
- `OnMessageStep` for `on_message`.

Lemmas then state what the source promises about those functions. Exceptions are `Err` values of `Result`. A store call that raises inside `update_database` is chosen by a `fault: Option<nat>` parameter: `Some(k)` means the k-th store call of the pass raises.

Where the code does something its names or comments do not suggest, the model follows the code:

- Commands are gated on the owner. Admin-only commands run only for `owner`. `admin_list` is used only to filter the help listing.
- The required channel list is empty. `Bot.__init__` sets `required_channels = ["general"]`, but `GuildHandler.__init__(self)` resets it to `[]`. `EmbedHandler` builds its own separate `GuildHandler()`, which also starts with empty lists.
- Guild wrappers are never deduplicated. `add_guild` tests the bound method `validate_guild` without calling it. A bound method is always truthy, so every joined guild is appended, again on every join.
- Not every failure produces a reply:
  - `send` raises `ValueError` when no channel resolves.
  - A message in a guild-less context that needs a named channel raises `AttributeError`.
  - The `update` command's handler returns the ready flag rather than an embed, so `send_embed` raises `AttributeError` when it calls `send` on a bool.
- A trigger is `prefix + word` and is never lowercased. With an upper-case prefix, no command can match.

## Model

| member | source | states |
|---|---|---|
| Common.FirstToken | bot/classes/Bot.py:20-21 | `split()[0]`: None exactly when the message is all separators (where indexing raises); otherwise a non-empty separator-free word that follows only separators and ends at a separator or the end |
| Common.FirstTokenOfWord | bot/classes/Bot.py:20-21 | a word followed by nothing or by a separator is the message's first token |
| Common.LowerChar | bot/classes/Bot.py:21 | one character of `lower()`: never upper-case afterwards, unchanged unless it is a capital, and a capital becomes the small letter 32 code points above it |
| Common.Lower | bot/classes/Bot.py:21 | `lower()`: same length, no upper-case letter left, every other character unchanged, and each position is that character lowered |
| Common.LowerIdempotent | bot/classes/Bot.py:21 | lowering twice is lowering once |
| Common.LowerDropSpaces | bot/classes/Bot.py:20-21 | lowering and skipping the leading separators commute |
| Common.LowerTakeWord | bot/classes/Bot.py:20-21 | lowering and taking the first word commute |
| Common.LowerFirstToken | bot/classes/Bot.py:20-21 | `s.lower().split()[0]` fails exactly when `s.split()[0]` does and is otherwise `s.split()[0].lower()` |
| Common.LowerUnchanged | bot/classes/Bot.py:21 | lowering text without upper-case letters leaves it as it is |
| Sql.SQLHandler.constructor | bot/classes/SQLHandler.py:5-11 | in debug mode the table starts empty, otherwise it holds the persisted rows |
| Sql.SQLHandler.CheckExists | bot/classes/SQLHandler.py:13-32 | true iff some row satisfies every filter clause |
| Sql.SQLHandler.Insert | bot/classes/SQLHandler.py:34-51 | returns true iff the id was absent; the table becomes `Inserted(old, c)` and keys keep matching ids |
| Sql.InsertedAddsOnlyNew | bot/classes/SQLHandler.py:43-51 | an existing id leaves the whole table unchanged; a new id adds exactly that row; every old row is kept |
| Sql.SQLHandler.NeedsUpdate | bot/classes/SQLHandler.py:53-83 | true iff the row exists and some listed field differs from its stored value (false for an absent id) |
| Sql.EmptyUpdateNeverNeeded | bot/classes/SQLHandler.py:79-83 | an empty update map never needs applying |
| Sql.OutdatedIffUpdateChanges | bot/classes/SQLHandler.py:53-83 | `needs_update` holds exactly when `update` would change the table |
| Sql.UpdatedIsCurrent | bot/classes/SQLHandler.py:108-123 | after `update(id, u)`, `needs_update(id, u)` is false |
| Sql.SetField | bot/classes/SQLHandler.py:117-118 | one `setattr`: that field takes the value, the id and the other field are kept |
| Sql.ApplyUpdates | bot/classes/SQLHandler.py:115-118 | listed fields take the given values; unlisted fields and the id are unchanged |
| Sql.SQLHandler.Update | bot/classes/SQLHandler.py:108-123 | returns true iff the id is present; that row alone gets the listed fields, all other rows are unchanged; the loop over the update map is proved against `ApplyUpdates` |
| Sql.SQLHandler.Remove | bot/classes/SQLHandler.py:84-93 | returns true iff the id was present; exactly that row is deleted |
| Sql.SQLHandler.Summary | bot/classes/SQLHandler.py:95-106 | `course_count` equals the number of stored rows |
| Sql.Collect | bot/classes/SQLHandler.py:137-149 | the rows returned are stored rows matching every filter, each matching row is returned, and none twice |
| Sql.SQLHandler.Retrieve | bot/classes/SQLHandler.py:126-149 | exactly the rows matching all filters, each once |
| Sql.MatchingIdsWithoutFilters | bot/classes/SQLHandler.py:142-148 | with no filters every row matches |
| Sql.SQLHandler.ExistsIffRetrieved | bot/classes/SQLHandler.py:13-32 | `check_exists(f)` is computed as `CheckExists`, the rows are exactly the stored rows matching `f` (one per matching id), and the flag is true iff the rows are non-empty |
| Guilds.FirstIndex | bot/classes/GuildHandler.py:14-16 | position of the first element with the name, or the length when none has it |
| Guilds.FirstNamed | bot/classes/GuildHandler.py:14-20 | None iff no element has the name; otherwise the first element with exactly that name |
| Guilds.GetChannelObj | bot/classes/GuildHandler.py:14-16 | None iff no channel has the name; otherwise the first channel with that name |
| Guilds.GetRoleObj | bot/classes/GuildHandler.py:18-20 | None iff no role has the name; otherwise the first role with that name |
| Guilds.ValidateChannel | bot/classes/GuildHandler.py:22-24 | true iff some channel of the guild has the name |
| Guilds.ValidateRole | bot/classes/GuildHandler.py:42-44 | true iff some role of the guild has the name |
| Guilds.ValidateNames | bot/classes/GuildHandler.py:26-40 | the shared loop: the flag holds iff every name resolves, the diagnostic lists the unresolved names in order |
| Guilds.ValidateChannels | bot/classes/GuildHandler.py:26-40 | valid iff every given name (or, for None or `[]`, every required one) resolves to a channel |
| Guilds.ValidateRoles | bot/classes/GuildHandler.py:46-60 | the same rule over roles and the required roles |
| Guilds.MissingEmptyIffAllNamed | bot/classes/GuildHandler.py:26-40 | the list of unresolved names is empty iff all names resolve |
| Guilds.ValidateGuild | bot/classes/GuildHandler.py:62-66 | channels valid and roles valid against the required lists |
| Guilds.NothingRequiredAlwaysValid | bot/classes/GuildHandler.py:62-66 | with both required lists empty every guild is valid |
| Guilds.GuildValidIffNothingMissing | bot/classes/GuildHandler.py:62-66 | a guild is valid iff neither diagnostic lists a missing name |
| Guilds.GuildHandler.constructor | bot/classes/GuildHandler.py:69-72 | no wrappers; None and `[]` both give an empty requirement |
| Guilds.GuildHandler.NewGuild | bot/classes/GuildHandler.py:109-113 | wraps the guild with the handler's lists; valid iff it has every required channel and role |
| Guilds.GuildHandler.AddGuild | bot/classes/GuildHandler.py:75-82 | appends exactly one wrapper at the end, whatever its validity; the required lists are kept |
| Guilds.GuildHandler.InitializeGuilds | bot/classes/GuildHandler.py:98-107 | appends one wrapper per client guild, in client order, keeping the earlier ones |
| Guilds.GuildHandler.GetCustomGuild | bot/classes/GuildHandler.py:84-96 | as written: None for an empty list; otherwise the missing `id` attribute raises |
| Guilds.GuildHandler.FindCustomGuild | bot/classes/GuildHandler.py:84-96 | matching on the wrapped guild's id: None iff no wrapper has that id, otherwise the first that does |
| Guilds.JoinTwice | bot/classes/GuildHandler.py:75-82 | joining the same guild twice leaves two wrappers |
| Guilds.LookupAfterJoinAsWritten | bot/classes/GuildHandler.py:90 | looking up a guild just added raises `AttributeError` |
| Guilds.LookupAfterJoin | bot/classes/GuildHandler.py:84-96 | with the corrected lookup, a guild just added is found |
| Embeds.ColorOf | bot/classes/EmbedHandler.py:59-63 | succeeds iff the key is DEFAULT, SUCCESS or FAILURE, and then names that colour; any other key or a missing key is a `KeyError` |
| Embeds.ColorRoundTrip | bot/classes/EmbedHandler.py:59-63 | looking up a colour's own key gives that colour |
| Embeds.Lookup | bot/classes/EmbedHandler.py:76 | `dict.get`: a value iff the key is present, and then the stored one |
| Embeds.GetEmbedFormat | bot/classes/EmbedHandler.py:91-98 | the stored template iff the key is present and the template non-empty; otherwise `ValueError` naming the key |
| Embeds.EmbedFor | bot/classes/EmbedHandler.py:70-89 | built iff the template exists, has a title and a description and a known colour; errors are reported in evaluation order; the embed's channel name is the template's `channel` field |
| Embeds.WellFormedTemplateBuilds | bot/classes/EmbedHandler.py:76-83 | a template with title, description and a known colour builds, with that colour and its channel field |
| Embeds.Target | bot/classes/EmbedHandler.py:19-29 | an empty channel name with a message channel targets the message channel; otherwise a missing guild raises, and a present one yields only a channel of that guild with that name |
| Embeds.ReplyInPlace | bot/classes/EmbedHandler.py:22-25 | an empty channel name with a message channel always targets the message channel |
| Embeds.NamedTarget | bot/classes/EmbedHandler.py:27-29 | a non-empty name, or no message channel, targets the guild's named lookup |
| Embeds.SendOutcome | bot/classes/EmbedHandler.py:34-50 | sends iff a channel resolved; a resolution of None raises `ValueError` naming the title instead of dropping the reply |
| Embeds.MissingChannelRaises | bot/classes/EmbedHandler.py:42-50 | a named channel the guild lacks makes `send` raise |
| Embeds.CustomEmbed.constructor | bot/classes/EmbedHandler.py:12-17 | no channel object and no guild yet |
| Embeds.CustomEmbed.SetGuild | bot/classes/EmbedHandler.py:31-32 | the embed's guild becomes the handler's wrapper of the given guild |
| Embeds.CustomEmbed.SetChannelObj | bot/classes/EmbedHandler.py:19-29 | the channel object becomes `Target`, or the call raises and nothing changes |
| Embeds.CustomEmbed.Send | bot/classes/EmbedHandler.py:34-50 | the result is `SendOutcome` for the given guild and channel; the embed now holds the wrapped guild (or None) and, whenever a target resolves, that target as its channel |
| Embeds.EmbedHandler.constructor | bot/classes/EmbedHandler.py:53-68 | its own fresh guild handler with empty required lists, the given templates, no guild |
| Embeds.EmbedHandler.GetEmbed | bot/classes/EmbedHandler.py:70-89 | agrees with `EmbedFor` on success and on each error; a new embed sharing the handler's guild handler |
| Embeds.EmbedHandler.SetGuild | bot/classes/EmbedHandler.py:100-101 | records the guild |
| BotCore.ItemsDistinct | bot/classes/Bot.py:147-161 | the three triggers are pairwise different, so the dictionary keeps all three entries |
| BotCore.CommandTable | bot/classes/Bot.py:147-161 | every item's trigger is a key mapped to that item's command, and every key is some item's trigger |
| BotCore.Route | bot/classes/Bot.py:14-46 | no token iff the message is blank; invalid iff the lowercased first token is not a key; refused iff it is admin-only and the author is not the owner; otherwise that key's handler |
| BotCore.RouteIgnoresArguments | bot/classes/Bot.py:20-24 | words after the first do not change the routing |
| BotCore.RouteIgnoresCase | bot/classes/Bot.py:20-21 | lowering the whole message first does not change the routing |
| BotCore.ShoutedTriggerRoutes | bot/classes/Bot.py:20-27 | with a plain prefix, `prefix + "HELLO"` reaches the `hello` handler just as `prefix + "hello"` does |
| BotCore.TriggersShareUpper | bot/classes/Bot.py:147-161 | an upper-case letter at position k of the prefix is at position k of every trigger |
| BotCore.UppercasePrefixNeverMatches | bot/classes/Bot.py:147-161 | with an upper-case letter in the prefix no message reaches a handler or the refusal |
| BotCore.PlainKey | bot/classes/Bot.py:20-21 | a non-empty message with no separator and no upper-case letter is its own lookup key |
| BotCore.TriggerRoutes | bot/classes/Bot.py:24-38 | with a plain prefix each trigger reaches its own command, an admin-only one only for the owner |
| BotCore.ShownEntriesIff | bot/classes/Bot.py:69-77 | an entry is listed iff it is in the table and is not admin-only or the author is an admin |
| BotCore.HelpTextStep | bot/classes/Bot.py:69-77 | each further entry appends its line exactly when it is shown |
| BotCore.HelpShowsUpdateOnlyToAdmins | bot/classes/Bot.py:69-77 | admins see all three commands; everyone else sees `hello` and `help` only |
| BotCore.HelpListsTrigger | bot/classes/Bot.py:69-77 | a trigger is listed iff it is a table key that is shown to that author |
| BotCore.InsertAllKeeps | bot/classes/Bot.py:91-96 | the inserts add exactly the new ids and keep every existing row |
| BotCore.InsertAllPresent | bot/classes/Bot.py:91-96 | inserting rows whose ids are all present changes nothing |
| BotCore.SyncOutcome | bot/classes/Bot.py:83-114 | ready iff no store call that was reached raised; a ready table is the six inserts followed by the rename of 1001; a failed pass keeps exactly the inserts made before the failing call |
| BotCore.SyncEstablishes | bot/classes/Bot.py:91-105 | a pass without faults sets ready, leaves the six ids present, renames 1001 and keeps all other existing rows |
| BotCore.SyncIdempotent | bot/classes/Bot.py:89-114 | a second fault-free pass leaves table and flag as the first left them |
| BotCore.SyncFailureKeepsEarlierInserts | bot/classes/Bot.py:107-114 | an insert that raises leaves the flag false and keeps every earlier insert |
| BotCore.SyncFailureAfterInserts | bot/classes/Bot.py:102-114 | a failure in `needs_update` or `update` keeps all six inserts and clears the flag |
| BotCore.SyncFromEmpty | bot/classes/Bot.py:91-105 | on an empty table the pass leaves exactly the six courses, 1001 renamed |
| BotCore.Handle | bot/classes/Bot.py:14-46 | only the `update` route changes the table or the flag, and then as `Sync` does; every other successful reply is an embed |
| BotCore.AdminListedButRefused | bot/classes/Bot.py:30-35 | an admin who is not the owner sees `update` in the help listing but is refused it |
| BotCore.Bot.constructor | bot/classes/Bot.py:119-161 | not ready; empty table; no required channels or roles; the command table for the prefix |
| BotCore.Bot.Hello | bot/classes/Bot.py:48-54 | the `hello` embed with the prefix |
| BotCore.Bot.IsAdmin | bot/classes/Bot.py:162-163 | `_is_admin`: true iff the author's id is in the admin list, and exactly then the help listing shows all three entries instead of the first two |
| BotCore.Bot.Help | bot/classes/Bot.py:56-81 | the `help` embed whose text is the opening plus one line per shown entry in table order |
| BotCore.Bot.UpdateDatabase | bot/classes/Bot.py:83-114 | table and flag become `Sync(old table, fault)` and the flag is returned |
| BotCore.Bot.Invoke | bot/classes/Bot.py:38 | running a handler gives `Handle` of that route |
| BotCore.Bot.HandleCommand | bot/classes/Bot.py:14-46 | reply, table and flag are `Handle(Route(...))` of the old state |
| Events.Decide | bot/bot.py:52-74 | own or attachment messages and unprefixed ones are ignored; a prefixed one is refused as not ready iff the flag is false, otherwise dispatched |
| Events.Delivered | bot/bot.py:80-83 | a reply that raised is reported and nothing is sent; only an embed can be sent |
| Events.ReplyFor | bot/bot.py:63-70 | while not ready the reply is the not-ready embed and nothing changes |
| Events.OnMessageStep | bot/bot.py:52-74 | only dispatch changes table or flag; no send is attempted iff the guards ignore the message; a not-ready bot answers with the not-ready embed |
| Events.NotReadyIgnoresCommand | bot/bot.py:63-66 | while not ready the text after the prefix makes no difference |
| Events.PrefixedHasToken | bot/bot.py:60 | with a non-blank prefix a prefixed message always has a first token |
| Events.UpdateReplyNeverSent | bot/bot.py:69-72 | the owner's `update` runs the pass, and sending its bool reply raises |
| Events.UpdateRefusedToOthers | bot/bot.py:69-72 | anyone else's `update` gets the refusal and changes nothing |
| Events.SendEmbed | bot/bot.py:80-83 | nothing for None; otherwise exactly one send attempt, with the outcome `Delivered` gives |
| Events.BuildReply | bot/bot.py:63-70 | the reply and new state are `ReplyFor` of the old state |
| Events.OnMessage | bot/bot.py:52-74 | outcome, table and flag are `OnMessageStep` of the old state |
| Events.OnGuildJoin | bot/bot.py:29-31 | the joined guild's wrapper is appended |
| Events.OnReady | bot/bot.py:35-49 | every client guild is registered, in client order |
| Events.PassiveUpdate | bot/bot.py:24-26 | one refresh: table and flag become `Sync` of the old table |
| Events.FreshBotNotReady | bot/bot.py:63-66 | a newly built bot answers every prefixed message from someone else with the not-ready embed |
| Events.HelloAfterRefresh | bot/bot.py:24-26 | after a fault-free refresh `hello` is answered with its template, and a second refresh changes nothing |

## Left out

- The Discord client is not modelled: event registration, `client.run`, presence changes, `typing()` and the network write of `channel.send`. A send is modelled as the channel it targets, or the exception it raises.
- `async`/`await` suspension and the `tasks.loop` schedule are not modelled. `PassiveUpdate` is a single tick, and no interleaving of events is modelled.
- The SQLite engine, sessions and query building are not modelled: the store is a map. The `max_length` column limits are not modelled either, because the code never enforces them.
- `retrieve` returns rows in the order the database gives them. The model proves which rows come back and that none repeats, but not their order.
- The template text is not filled in: `str.format` is not modelled. An embed records its raw title and description and the arguments it was given.
- `get_embed` is also passed a `guild=` argument. It only feeds `str.format`, so it is dropped.
- Not modelled: the UTC timestamp, loading the template JSON file (the templates are a parameter), the hex colour values (a colour is one of three names), and the `print`ed and verbose diagnostics.
- `DatabaseHandler`, `secret` and `config` are not part of this model. The name, prefix, owner, admin list and templates are constructor parameters.
- The `_main` demo script (bot/classes/SQLHandler.py:157-178) is not modelled as a script. Its sequence of calls is the one `SyncFromEmpty` states.
- `Common.Lower`: lower-cases ASCII letters only. Python's `str.lower` also folds non-ASCII letters.
- `Common.FirstToken`: treats only the ASCII and Latin-1 separators as whitespace. Python's `str.split` also splits on other Unicode spaces.
- `Sql.SQLHandler.Update`: requires the update map to fit the column types (text for a name, text or None for a section). Python's `setattr` would accept any value and leave the error to the database.
- `Embeds.CustomEmbed.SetGuild`: wrapping a missing guild is represented by no guild at all. Both make a named-channel lookup raise `AttributeError`.
- The identity of embed objects and of the `CustomEmbed.guild` wrapper is not tracked beyond the one embed being sent.

## Findings

| source | as written | input that shows it | evidently intended | confidence | as-written member | corrected member |
|---|---|---|---|---|---|---|
| bot/classes/GuildHandler.py:90 | compares `guild.id` with `custom_guild.id`, but `CustomGuild` never sets `id` | any lookup after one guild has been added: `add_guild(g)` then `get_custom_guild(g)` raises `AttributeError` | compare with the wrapped guild's id, `custom_guild.guild.id`, and return the first match | not executed | Guilds.LookupAfterJoinAsWritten | Guilds.LookupAfterJoin |
