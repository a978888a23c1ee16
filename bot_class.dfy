/** The bot object (bot/classes/Bot.py): its command table, the dispatcher
    behind every prefixed message, the `help` listing, and the pass that
    brings the course table up to date and decides whether the bot is
    ready. The pure functions at the top specify what the `Bot` class
    methods at the bottom do. */
module BotCore {
  import opened Common
  import opened Sql
  import opened Guilds
  import opened Embeds

  // ---------------------------------------------------------------------
  // The command table
  // ---------------------------------------------------------------------

  /** The bound method a command runs. */
  datatype HandlerId = Hello | Help | UpdateDatabase

  /** A command tuple: handler, help text, admin-only flag. */
  datatype Command = Command(handler: HandlerId, helpText: string, adminOnly: bool)

  /** One `(trigger, tuple)` pair of the command table. */
  datatype Entry = Entry(trigger: string, command: Command)

  /** `self.commands.items()`: the table's pairs in insertion order. */
  function Items(prefix: string): seq<Entry> {
    [ Entry(prefix + "hello", Command(Hello, "Test me to say hello!", false)),
      Entry(prefix + "help", Command(Help, "List of commands", false)),
      Entry(prefix + "update", Command(UpdateDatabase, "Force-updates the database.", true)) ]
  }

  /** No two items share a trigger: the three words differ after the common prefix. */
  lemma ItemsDistinct(prefix: string)
    ensures forall i, j :: 0 <= i < j < |Items(prefix)| ==> Items(prefix)[i].trigger != Items(prefix)[j].trigger
  {
    var n := |prefix|;
    var items := Items(prefix);
    assert (prefix + "hello")[n + 3] == 'l' && (prefix + "help")[n + 3] == 'p';
    assert (prefix + "hello")[n + 1] == 'e' && (prefix + "update")[n + 1] == 'p';
    assert (prefix + "help")[n + 1] == 'e' && (prefix + "update")[n + 1] == 'p';
    assert items[0].trigger == prefix + "hello" && items[1].trigger == prefix + "help" && items[2].trigger == prefix + "update";
  }

  /** `self.commands`: each item's trigger maps to its command and nothing else is a key.
      The keys are the prefix followed by the command word, not lowercased. */
  function CommandTable(prefix: string): (r: map<string, Command>)
    ensures forall i :: 0 <= i < |Items(prefix)| ==>
              Items(prefix)[i].trigger in r && r[Items(prefix)[i].trigger] == Items(prefix)[i].command
    ensures forall t :: t in r ==> exists i :: 0 <= i < |Items(prefix)| && Items(prefix)[i].trigger == t
  {
    var items := Items(prefix);
    ItemsDistinct(prefix);
    map i | 0 <= i < |items| :: items[i].trigger := items[i].command
  }

  // ---------------------------------------------------------------------
  // Dispatch
  // ---------------------------------------------------------------------

  /** What `handle_command` decides before running anything. */
  datatype Routing =
    | NoToken                     // `argv[0]` on an all-blank message raises IndexError
    | InvalidCommand              // the token is not a trigger
    | Unauthorized                // an admin-only trigger from someone other than the owner
    | RunHandler(handler: HandlerId)

  /** The lookup key: the lowercased first whitespace-separated token. */
  function CommandKey(content: string): Option<string> {
    var token := FirstToken(content);
    if token.Some? then Some(Lower(token.value)) else None
  }

  /** `handle_command`'s decision. Permission is the owner check alone: membership of
      the admin list plays no part here. */
  function Route(commands: map<string, Command>, owner: int, content: string, authorId: int): (r: Routing)
    ensures r == NoToken <==> forall i :: 0 <= i < |content| ==> IsSpace(content[i])
    ensures r == InvalidCommand <==> CommandKey(content).Some? && CommandKey(content).value !in commands
    ensures r == Unauthorized <==> && CommandKey(content).Some? && CommandKey(content).value in commands
                                   && commands[CommandKey(content).value].adminOnly && authorId != owner
    ensures r.RunHandler? ==> && CommandKey(content).Some? && CommandKey(content).value in commands
                              && r.handler == commands[CommandKey(content).value].handler
                              && (authorId == owner || !commands[CommandKey(content).value].adminOnly)
  {
    var key := CommandKey(content);
    if key.None? then NoToken
    else if key.value !in commands then InvalidCommand
    else
      var selected := commands[key.value];
      if authorId != owner && selected.adminOnly then Unauthorized
      else RunHandler(selected.handler)
  }

  /** Only the first word counts: anything after it is ignored by the dispatcher. */
  lemma RouteIgnoresArguments(commands: map<string, Command>, owner: int, word: string, rest: string, authorId: int)
    requires word != [] && forall i :: 0 <= i < |word| ==> !IsSpace(word[i])
    requires rest == [] || IsSpace(rest[0])
    ensures Route(commands, owner, word + rest, authorId) == Route(commands, owner, word, authorId)
  {
    FirstTokenOfWord(word, rest);
    FirstTokenOfWord(word, []);
    assert word + [] == word;
  }

  /** The router lowercases the token itself, so lowering the whole message first
      changes nothing. */
  lemma RouteIgnoresCase(commands: map<string, Command>, owner: int, content: string, authorId: int)
    ensures Route(commands, owner, Lower(content), authorId) == Route(commands, owner, content, authorId)
  {
    LowerFirstToken(content);
    if FirstToken(content).Some? {
      LowerIdempotent(FirstToken(content).value);
    }
    assert CommandKey(Lower(content)) == CommandKey(content);
  }

  /** Every trigger contains an upper-case letter when the prefix does, and a lowercased
      token never does: with such a prefix no command can be reached. */
  lemma UppercasePrefixNeverMatches(prefix: string, owner: int, content: string, authorId: int, k: nat)
    requires k < |prefix| && IsUpper(prefix[k])
    ensures !Route(CommandTable(prefix), owner, content, authorId).RunHandler?
    ensures Route(CommandTable(prefix), owner, content, authorId) != Unauthorized
  {
    TriggersShareUpper(prefix, k);
    var key := CommandKey(content);
    if key.Some? && key.value in CommandTable(prefix) {
      assert false;
    }
  }

  /** With an upper-case letter at position `k` of the prefix, every trigger has one there. */
  lemma TriggersShareUpper(prefix: string, k: nat)
    requires k < |prefix| && IsUpper(prefix[k])
    ensures forall t :: t in CommandTable(prefix) ==> k < |t| && IsUpper(t[k])
  {
    var items := Items(prefix);
    forall t | t in CommandTable(prefix)
      ensures k < |t| && IsUpper(t[k])
    {
      var i :| 0 <= i < |items| && items[i].trigger == t;
      assert t[k] == prefix[k] by {
        if i == 0 {
          assert t == prefix + "hello";
        } else if i == 1 {
          assert t == prefix + "help";
        } else {
          assert t == prefix + "update";
        }
      }
    }
  }

  /** No separator and no upper-case letter. */
  predicate Plain(s: string) {
    forall i :: 0 <= i < |s| ==> !IsSpace(s[i]) && !IsUpper(s[i])
  }

  /** A non-empty plain message is its own lookup key. */
  lemma PlainKey(t: string)
    requires t != [] && Plain(t)
    ensures CommandKey(t) == Some(t)
  {
    assert forall i :: 0 <= i < |t| ==> !IsSpace(t[i]);
    assert t + [] == t;
    FirstTokenOfWord(t, []);
    LowerUnchanged(t);
  }

  lemma PlainConcat(a: string, b: string)
    requires Plain(a) && Plain(b)
    ensures Plain(a + b)
  {
    forall i | 0 <= i < |a + b|
      ensures !IsSpace((a + b)[i]) && !IsUpper((a + b)[i])
    {
      if i >= |a| {
        assert (a + b)[i] == b[i - |a|];
      }
    }
  }

  /** A message that is exactly a trigger, with a plain prefix, reaches that trigger's
      command; an admin-only one only when the owner sends it. */
  lemma TriggerRoutes(prefix: string, owner: int, i: nat, authorId: int)
    requires Plain(prefix) && i < |Items(prefix)|
    ensures Route(CommandTable(prefix), owner, Items(prefix)[i].trigger, authorId) ==
              var c := Items(prefix)[i].command;
              if c.adminOnly && authorId != owner then Unauthorized else RunHandler(c.handler)
  {
    var e := Items(prefix)[i];
    var word := if i == 0 then "hello" else if i == 1 then "help" else "update";
    assert e.trigger == prefix + word;
    assert Plain(word);
    PlainConcat(prefix, word);
    PlainKey(e.trigger);
    var table := CommandTable(prefix);
    assert e.trigger in table && table[e.trigger] == e.command;
  }

  /** A trigger word typed in capitals still reaches its command: `!HELLO` says hello. */
  lemma ShoutedTriggerRoutes(prefix: string, owner: int, authorId: int)
    requires Plain(prefix)
    ensures Route(CommandTable(prefix), owner, prefix + "HELLO", authorId) == RunHandler(Hello)
  {
    var shouted := prefix + "HELLO";
    var n := |prefix|;
    assert forall i :: 0 <= i < |shouted| ==> Lower(shouted)[i] == (prefix + "hello")[i] by {
      forall i | 0 <= i < |shouted|
        ensures Lower(shouted)[i] == (prefix + "hello")[i]
      {
        if i < n {
          assert shouted[i] == prefix[i] && (prefix + "hello")[i] == prefix[i];
        }
      }
    }
    assert Lower(shouted) == Items(prefix)[0].trigger;
    RouteIgnoresCase(CommandTable(prefix), owner, shouted, authorId);
    TriggerRoutes(prefix, owner, 0, authorId);
  }

  // ---------------------------------------------------------------------
  // The help listing
  // ---------------------------------------------------------------------

  /** The fixed opening of the help text. */
  function Intro(name: string): string {
    "Hi, thanks for using " + name + IntroRest
  }

  /** The opening after the bot's name, ending in two robot and speech-bubble emoji. */
  const IntroRest: string := "! \n        \n        This bot was created by Claire Whittington."
    + " Try out the list of commands below:\n        \n        \U{1F916}\U{1F4AC}\n        \n        "

  /** A trigger is listed for admins, and for everyone when it is not admin-only. */
  predicate Shown(c: Command, isAdmin: bool) {
    isAdmin || !c.adminOnly
  }

  /** The entries `help` lists, in table order. */
  function ShownEntries(items: seq<Entry>, isAdmin: bool): seq<Entry> {
    if items == [] then []
    else
      var last := items[|items| - 1];
      ShownEntries(items[..|items| - 1], isAdmin) + (if Shown(last.command, isAdmin) then [last] else [])
  }

  /** `help` lists an entry exactly when it is not admin-only or the author is an admin. */
  lemma {:induction false} ShownEntriesIff(items: seq<Entry>, isAdmin: bool, e: Entry)
    ensures e in ShownEntries(items, isAdmin) <==> e in items && Shown(e.command, isAdmin)
  {
    if items != [] {
      var init := items[..|items| - 1];
      assert items == init + [items[|items| - 1]];
      ShownEntriesIff(init, isAdmin, e);
    }
  }

  /** `f"**{trigger}**: {text}\n"`. */
  function HelpLine(e: Entry): string {
    "**" + e.trigger + "**: " + e.command.helpText + "\n"
  }

  function HelpLines(es: seq<Entry>): string {
    if es == [] then "" else HelpLines(es[..|es| - 1]) + HelpLine(es[|es| - 1])
  }

  /** The whole help text an author sees, after the given opening. */
  function HelpText(intro: string, items: seq<Entry>, isAdmin: bool): string {
    intro + HelpLines(ShownEntries(items, isAdmin))
  }

  /** One more entry adds its line exactly when it is shown. */
  lemma HelpTextStep(intro: string, items: seq<Entry>, isAdmin: bool, i: nat)
    requires i < |items|
    ensures HelpText(intro, items[..i + 1], isAdmin) ==
              HelpText(intro, items[..i], isAdmin) + (if Shown(items[i].command, isAdmin) then HelpLine(items[i]) else "")
  {
    assert items[..i + 1][..i] == items[..i];
    var before := ShownEntries(items[..i], isAdmin);
    var after := ShownEntries(items[..i + 1], isAdmin);
    if Shown(items[i].command, isAdmin) {
      assert after == before + [items[i]];
      assert after[..|before|] == before;
    } else {
      assert after == before;
    }
  }

  /** Admins see every command; everyone else sees `hello` and `help` but not `update`. */
  lemma HelpShowsUpdateOnlyToAdmins(prefix: string, isAdmin: bool)
    ensures ShownEntries(Items(prefix), isAdmin) == if isAdmin then Items(prefix) else Items(prefix)[..2]
  {
    var items := Items(prefix);
    assert items[..1][..0] == [] && items[..2][..1] == items[..1] && items[..3][..2] == items[..2] && items[..3] == items;
    assert ShownEntries(items[..1], isAdmin) == [items[0]];
    assert ShownEntries(items[..2], isAdmin) == [items[0], items[1]];
  }

  /** In terms of the table: a trigger is listed iff it is a key that is not admin-only,
      or any key when the author is an admin. */
  lemma HelpListsTrigger(prefix: string, isAdmin: bool, t: string)
    ensures (exists e :: e in ShownEntries(Items(prefix), isAdmin) && e.trigger == t) <==>
              t in CommandTable(prefix) && Shown(CommandTable(prefix)[t], isAdmin)
  {
    var items := Items(prefix);
    forall e | e in ShownEntries(items, isAdmin) && e.trigger == t
      ensures t in CommandTable(prefix) && Shown(CommandTable(prefix)[t], isAdmin)
    {
      ShownEntriesIff(items, isAdmin, e);
    }
    if t in CommandTable(prefix) && Shown(CommandTable(prefix)[t], isAdmin) {
      var i :| 0 <= i < |items| && items[i].trigger == t;
      ShownEntriesIff(items, isAdmin, items[i]);
    }
  }

  // ---------------------------------------------------------------------
  // The database sync pass
  // ---------------------------------------------------------------------

  /** The six rows `update_database` inserts, in order. */
  function Canonical(): seq<Course> {
    [ Course(1001, "CS126", None),
      Course(1002, "CS126L", Some("001")),
      Course(1003, "CS126L", Some("002")),
      Course(1004, "CS126L", Some("003")),
      Course(5005, "CS249", Some("001")),
      Course(5006, "CS249", Some("002")) ]
  }

  /** The update applied to course 1001. */
  function Rename(): map<Field, Value> {
    map[Name := Text("CS126 - Combo Class")]
  }

  /** The store after inserting `cs` one after the other. */
  function InsertAll(m: map<int, Course>, cs: seq<Course>): map<int, Course> {
    if cs == [] then m else Inserted(InsertAll(m, cs[..|cs| - 1]), cs[|cs| - 1])
  }

  /** The table and the ready flag after a pass. */
  datatype SyncResult = SyncResult(store: map<int, Course>, ready: bool)

  /** Store calls of the pass, counted from 0: the six inserts are calls 0 to 5,
      `needs_update` is call 6 and `update` call 7. `fault == Some(k)` says call `k`
      raises when it is reached; a raising call changes nothing. */
  function Sync(m: map<int, Course>, fault: Option<nat>): SyncResult {
    if fault.Some? && fault.value < 6 then SyncResult(InsertAll(m, Canonical()[..fault.value]), false)
    else
      var inserted := InsertAll(m, Canonical());
      if fault == Some(6) then SyncResult(inserted, false)
      else if !Outdated(inserted, 1001, Rename()) then SyncResult(inserted, true)
      else if fault == Some(7) then SyncResult(inserted, false)
      else SyncResult(Updated(inserted, 1001, Rename()), true)
  }

  /** The whole outcome of one sync: the bot is ready exactly when no store call that was
      reached raised, a ready store holds every canonical course with the rename applied,
      and a failed sync keeps the inserts made before the failing call and no later one. */
  lemma SyncOutcome(m: map<int, Course>, fault: Option<nat>)
    ensures var r := Sync(m, fault);
      && (r.ready <==> || fault.None? || fault.value > 7
                       || (fault.value == 7 && !Outdated(InsertAll(m, Canonical()), 1001, Rename())))
      && (r.ready ==> r.store == Updated(InsertAll(m, Canonical()), 1001, Rename()))
      && (!r.ready ==> r.store == InsertAll(m, Canonical()[..if fault.value < 6 then fault.value else 6]))
  {
    assert Canonical()[..6] == Canonical();
    OutdatedIffUpdateChanges(InsertAll(m, Canonical()), 1001, Rename());
  }

  /** The primary keys of a list of rows. */
  function Ids(cs: seq<Course>): set<int> {
    if cs == [] then {} else Ids(cs[..|cs| - 1]) + {cs[|cs| - 1].id}
  }

  /** Inserting a list of rows adds exactly the keys not yet present and overwrites nothing. */
  lemma {:induction false} InsertAllKeeps(m: map<int, Course>, cs: seq<Course>)
    requires KeysMatchIds(m)
    ensures KeysMatchIds(InsertAll(m, cs))
    ensures InsertAll(m, cs).Keys == m.Keys + Ids(cs)
    ensures forall id :: id in m ==> InsertAll(m, cs)[id] == m[id]
  {
    if cs != [] {
      InsertAllKeeps(m, cs[..|cs| - 1]);
      InsertedAddsOnlyNew(InsertAll(m, cs[..|cs| - 1]), cs[|cs| - 1]);
    }
  }

  /** Inserting rows already present changes nothing. */
  lemma {:induction false} InsertAllPresent(m: map<int, Course>, cs: seq<Course>)
    requires forall i :: 0 <= i < |cs| ==> cs[i].id in m
    ensures InsertAll(m, cs) == m
  {
    if cs != [] {
      InsertAllPresent(m, cs[..|cs| - 1]);
    }
  }

  const CanonicalIds: set<int> := {1001, 1002, 1003, 1004, 5005, 5006}

  lemma CanonicalIdSet()
    ensures Ids(Canonical()) == CanonicalIds
  {
    var cs := Canonical();
    assert cs[..1][..0] == [] && cs[..2][..1] == cs[..1] && cs[..3][..2] == cs[..2];
    assert cs[..4][..3] == cs[..3] && cs[..5][..4] == cs[..4] && cs[..6][..5] == cs[..5] && cs[..6] == cs;
    assert Ids(cs[..1]) == {1001};
    assert Ids(cs[..2]) == {1001, 1002};
    assert Ids(cs[..3]) == {1001, 1002, 1003};
    assert Ids(cs[..4]) == {1001, 1002, 1003, 1004};
    assert Ids(cs[..5]) == {1001, 1002, 1003, 1004, 5005};
  }

  lemma {:induction false} InIds(cs: seq<Course>, j: nat)
    requires j < |cs|
    ensures cs[j].id in Ids(cs)
  {
    if j < |cs| - 1 {
      InIds(cs[..|cs| - 1], j);
    }
  }

  /** A pass without faults makes the bot ready, adds the six courses that were
      missing, names course 1001 "CS126 - Combo Class", and leaves every other
      stored course as it was. */
  lemma SyncEstablishes(m: map<int, Course>)
    requires KeysMatchIds(m)
    ensures Sync(m, None).ready
    ensures KeysMatchIds(Sync(m, None).store)
    ensures Sync(m, None).store.Keys == m.Keys + CanonicalIds
    ensures Sync(m, None).store[1001].name == "CS126 - Combo Class"
    ensures forall id :: id in m && id != 1001 ==> Sync(m, None).store[id] == m[id]
  {
    InsertAllKeeps(m, Canonical());
    CanonicalIdSet();
    var inserted := InsertAll(m, Canonical());
    if Outdated(inserted, 1001, Rename()) {
      assert FieldValue(ApplyUpdates(inserted[1001], Rename()), Name) == Text("CS126 - Combo Class");
    } else {
      assert FieldValue(inserted[1001], Name) == Text("CS126 - Combo Class");
    }
  }

  /** Running the pass a second time changes nothing. */
  lemma SyncIdempotent(m: map<int, Course>)
    requires KeysMatchIds(m)
    ensures Sync(Sync(m, None).store, None) == Sync(m, None)
  {
    SyncEstablishes(m);
    var once := Sync(m, None).store;
    CanonicalIdSet();
    InsertAllPresent(once, Canonical());
    UpdatedIsCurrent(InsertAll(m, Canonical()), 1001, Rename());
  }

  /** A raising insert leaves the bot not ready, keeps the inserts made before it,
      and writes nothing after it. */
  lemma SyncFailureKeepsEarlierInserts(m: map<int, Course>, k: nat)
    requires KeysMatchIds(m)
    requires k < 6
    ensures !Sync(m, Some(k)).ready
    ensures Sync(m, Some(k)).store == InsertAll(m, Canonical()[..k])
    ensures forall j :: 0 <= j < k ==> Canonical()[j].id in Sync(m, Some(k)).store
  {
    InsertAllKeeps(m, Canonical()[..k]);
    forall j | 0 <= j < k
      ensures Canonical()[j].id in Sync(m, Some(k)).store
    {
      InIds(Canonical()[..k], j);
    }
  }

  /** A raising `needs_update`, or a raising `update`, leaves every insert in place
      and the bot not ready. */
  lemma SyncFailureAfterInserts(m: map<int, Course>, k: nat)
    requires k == 6 || (k == 7 && Outdated(InsertAll(m, Canonical()), 1001, Rename()))
    ensures Sync(m, Some(k)) == SyncResult(InsertAll(m, Canonical()), false)
  {
  }

  /** On an empty table the pass leaves exactly the six courses, 1001 renamed. */
  lemma SyncFromEmpty()
    ensures Sync(map[], None) == SyncResult(
              map[1001 := Course(1001, "CS126 - Combo Class", None),
                  1002 := Course(1002, "CS126L", Some("001")),
                  1003 := Course(1003, "CS126L", Some("002")),
                  1004 := Course(1004, "CS126L", Some("003")),
                  5005 := Course(5005, "CS249", Some("001")),
                  5006 := Course(5006, "CS249", Some("002"))],
              true)
  {
    var cs := Canonical();
    assert cs[..1][..0] == [] && cs[..2][..1] == cs[..1] && cs[..3][..2] == cs[..2];
    assert cs[..4][..3] == cs[..3] && cs[..5][..4] == cs[..4] && cs[..6][..5] == cs[..5] && cs[..6] == cs;
    assert InsertAll(map[], cs[..1]) == map[1001 := cs[0]];
    assert InsertAll(map[], cs[..2]) == map[1001 := cs[0], 1002 := cs[1]];
    assert InsertAll(map[], cs[..3]) == map[1001 := cs[0], 1002 := cs[1], 1003 := cs[2]];
    assert InsertAll(map[], cs[..4]) == map[1001 := cs[0], 1002 := cs[1], 1003 := cs[2], 1004 := cs[3]];
    assert InsertAll(map[], cs[..5]) == map[1001 := cs[0], 1002 := cs[1], 1003 := cs[2], 1004 := cs[3], 5005 := cs[4]];
    var inserted := InsertAll(map[], cs);
    assert inserted == map[1001 := cs[0], 1002 := cs[1], 1003 := cs[2], 1004 := cs[3], 5005 := cs[4], 5006 := cs[5]];
    assert FieldValue(inserted[1001], Name) != Rename()[Name];
    assert Outdated(inserted, 1001, Rename());
  }

  // ---------------------------------------------------------------------
  // Command replies
  // ---------------------------------------------------------------------

  /** The bot's settings, read from the configuration and the secrets file. */
  datatype Config = Config(
    name: string,
    prefix: string,
    owner: int,
    adminList: seq<int>,
    messages: map<string, Template>)

  /** A reply as a value: an embed, or the bare flag the `update` command returns. */
  datatype ReplyValue = EmbedValue(data: EmbedData) | FlagValue(flag: bool)

  function Embedded(e: Result<EmbedData>): Result<ReplyValue> {
    if e.Ok? then Ok(EmbedValue(e.value)) else Err(e.error)
  }

  /** What `handle_command` returns and leaves behind. */
  datatype Handled = Handled(reply: Result<ReplyValue>, store: map<int, Course>, ready: bool)

  /** `handle_command` once `route` is decided: the reply, the table and the ready flag.
      Only the `update` handler touches the table or the ready flag: an unknown or
      refused command runs no handler, and every other successful reply is an embed. */
  function Handle(cfg: Config, route: Routing, m: map<int, Course>, ready: bool, authorId: int, fault: Option<nat>): (h: Handled)
    ensures route != RunHandler(UpdateDatabase) ==> h.store == m && h.ready == ready
    ensures route != RunHandler(UpdateDatabase) && h.reply.Ok? ==> h.reply.value.EmbedValue?
    ensures route == RunHandler(UpdateDatabase) ==> h.reply == Ok(FlagValue(h.ready)) && SyncResult(h.store, h.ready) == Sync(m, fault)
  {
    match route
    case NoToken => Handled(Err(IndexError), m, ready)
    case InvalidCommand =>
      Handled(Embedded(EmbedFor(cfg.messages, "invalid-command", map["prefix" := cfg.prefix])), m, ready)
    case Unauthorized =>
      Handled(Embedded(EmbedFor(cfg.messages, "unauthorized-user", map[])), m, ready)
    case RunHandler(Hello) =>
      Handled(Embedded(EmbedFor(cfg.messages, "hello", map["prefix" := cfg.prefix])), m, ready)
    case RunHandler(Help) =>
      var desc := HelpText(Intro(cfg.name), Items(cfg.prefix), authorId in cfg.adminList);
      Handled(Embedded(EmbedFor(cfg.messages, "help", map["desc" := desc])), m, ready)
    case RunHandler(UpdateDatabase) =>
      var r := Sync(m, fault);
      Handled(Ok(FlagValue(r.ready)), r.store, r.ready)
  }

  /** An admin who is not the owner sees `update` in the help listing but is refused it. */
  lemma AdminListedButRefused(cfg: Config, authorId: int)
    requires authorId in cfg.adminList && authorId != cfg.owner
    requires Plain(cfg.prefix)
    ensures Items(cfg.prefix)[2] in ShownEntries(Items(cfg.prefix), true)
    ensures Items(cfg.prefix)[2].trigger == cfg.prefix + "update"
    ensures Route(CommandTable(cfg.prefix), cfg.owner, cfg.prefix + "update", authorId) == Unauthorized
  {
    HelpShowsUpdateOnlyToAdmins(cfg.prefix, true);
    TriggerRoutes(cfg.prefix, cfg.owner, 2, authorId);
  }

  // ---------------------------------------------------------------------
  // The bot object
  // ---------------------------------------------------------------------

  /** What a handler hands back: an embed object, or the flag `update_database` returns. */
  datatype Reply = EmbedReply(embed: CustomEmbed) | FlagReply(flag: bool)

  /** The descriptor an embed result carries. */
  function DataOf(r: Result<CustomEmbed>): Result<EmbedData> {
    if r.Ok? then Ok(r.value.data) else Err(r.error)
  }

  function AsReply(e: Result<CustomEmbed>): (r: Result<Reply>)
    ensures ValueOf(r) == Embedded(DataOf(e))
    ensures r.Ok? ==> r.value == EmbedReply(e.value)
  {
    if e.Ok? then Ok(EmbedReply(e.value)) else Err(e.error)
  }

  function ValueOf(r: Result<Reply>): Result<ReplyValue> {
    if r.Err? then Err(r.error)
    else if r.value.EmbedReply? then Ok(EmbedValue(r.value.embed.data))
    else Ok(FlagValue(r.value.flag))
  }

  class Bot {
    var ready: bool
    const config: Config
    const commands: map<string, Command>
    const store: SQLHandler
    const guilds: GuildHandler
    const embeds: EmbedHandler

    ghost predicate Valid()
      reads this, store, embeds
    {
      && store.Valid()
      && commands == CommandTable(config.prefix)
      && embeds.messages == config.messages
    }

    /** `Bot.__init__`: not ready; the course table starts empty because the store is
        opened in debug mode; the guild handler's own initialiser overwrites the
        required channel list set just before it, so nothing is required. */
    constructor (config: Config, persisted: map<int, Course>)
      requires KeysMatchIds(persisted)
      ensures Valid()
      ensures !ready
      ensures this.config == config
      ensures store.courses == map[]
      ensures guilds.customGuilds == [] && guilds.requiredChannels == [] && guilds.requiredRoles == []
      ensures fresh(store) && fresh(guilds) && fresh(embeds) && fresh(embeds.guildHandler)
    {
      ready := false;
      this.config := config;
      guilds := new GuildHandler(None, None);
      embeds := new EmbedHandler(config.messages);
      store := new SQLHandler(persisted, true);
      commands := CommandTable(config.prefix);
    }

    /** `_is_admin`. */
    function IsAdmin(authorId: int): (r: bool)
      ensures r <==> authorId in config.adminList
      ensures ShownEntries(Items(config.prefix), r) == if r then Items(config.prefix) else Items(config.prefix)[..2]
    {
      HelpShowsUpdateOnlyToAdmins(config.prefix, authorId in config.adminList);
      authorId in config.adminList
    }

    /** `hello`. */
    method Hello() returns (r: Result<CustomEmbed>)
      requires Valid()
      ensures DataOf(r) == EmbedFor(config.messages, "hello", map["prefix" := config.prefix])
      ensures r.Ok? ==> fresh(r.value)
    {
      r := embeds.GetEmbed("hello", map["prefix" := config.prefix]);
    }

    /** `help`: the listing text, built one line per shown trigger in table order. */
    method Help(authorId: int) returns (r: Result<CustomEmbed>)
      requires Valid()
      ensures DataOf(r) == EmbedFor(config.messages, "help",
                map["desc" := HelpText(Intro(config.name), Items(config.prefix), IsAdmin(authorId))])
      ensures r.Ok? ==> fresh(r.value)
    {
      var items := Items(config.prefix);
      var intro := Intro(config.name);
      var desc := intro;
      for i := 0 to |items|
        invariant desc == HelpText(intro, items[..i], IsAdmin(authorId))
      {
        var trigger, command := items[i].trigger, items[i].command;
        HelpTextStep(intro, items, IsAdmin(authorId), i);
        if IsAdmin(authorId) || !command.adminOnly {
          var line := "**" + trigger + "**: " + command.helpText + "\n";
          desc := desc + line;
        }
      }
      assert items[..|items|] == items;
      r := embeds.GetEmbed("help", map["desc" := desc]);
    }

    /** `update_database`, with `fault` naming the store call that raises (if any). */
    method UpdateDatabase(fault: Option<nat>) returns (r: bool)
      requires Valid()
      modifies this, store
      ensures Valid()
      ensures SyncResult(store.courses, ready) == Sync(old(store.courses), fault)
      ensures r == ready
    {
      var cs := Canonical();
      ghost var m := store.courses;
      for k := 0 to 6
        invariant Valid()
        invariant store.courses == InsertAll(m, cs[..k])
        invariant fault.Some? && fault.value < 6 ==> k <= fault.value
      {
        if fault == Some(k) {
          ready := false;
          return ready;
        }
        var inserted := store.Insert(cs[k]);
        assert cs[..k + 1][..k] == cs[..k];
      }
      assert cs[..6] == cs;
      if fault == Some(6) {
        ready := false;
        return ready;
      }
      var needed := store.NeedsUpdate(1001, Rename());
      if needed {
        if fault == Some(7) {
          ready := false;
          return ready;
        }
        var updated := store.Update(1001, Rename());
      }
      ready := true;
      return ready;
    }

    /** Runs a command's bound method. */
    method Invoke(handler: HandlerId, authorId: int, fault: Option<nat>) returns (r: Result<Reply>)
      requires Valid()
      modifies this, store
      ensures Valid()
      ensures Handled(ValueOf(r), store.courses, ready) ==
                Handle(config, RunHandler(handler), old(store.courses), old(ready), authorId, fault)
      ensures r.Ok? && r.value.EmbedReply? ==> fresh(r.value.embed)
    {
      match handler
      case Hello =>
        var embed := Hello();
        r := AsReply(embed);
      case Help =>
        var embed := Help(authorId);
        r := AsReply(embed);
      case UpdateDatabase =>
        var flag := UpdateDatabase(fault);
        r := Ok(FlagReply(flag));
    }

    /** `handle_command`. */
    method HandleCommand(content: string, authorId: int, fault: Option<nat>) returns (r: Result<Reply>)
      requires Valid()
      modifies this, store
      ensures Valid()
      ensures Handled(ValueOf(r), store.courses, ready) ==
                Handle(config, Route(commands, config.owner, content, authorId), old(store.courses), old(ready), authorId, fault)
      ensures r.Ok? && r.value.EmbedReply? ==> fresh(r.value.embed)
    {
      ghost var route := Route(commands, config.owner, content, authorId);
      var argv := FirstToken(content);
      if argv.None? {
        return Err(IndexError);
      }
      var command := Lower(argv.value);
      assert CommandKey(content) == Some(command);
      if command in commands {
        var selected := commands[command];
        if authorId != config.owner && selected.adminOnly {
          var embed := embeds.GetEmbed("unauthorized-user", map[]);
          return AsReply(embed);
        }
        assert route == RunHandler(selected.handler);
        r := Invoke(selected.handler, authorId, fault);
        return;
      }
      var embed := embeds.GetEmbed("invalid-command", map["prefix" := config.prefix]);
      return AsReply(embed);
    }
  }
}
