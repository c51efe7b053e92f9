/**
 * The chat command handler: the routing of an incoming message, the slash commands and
 * the per-user preference store they read and update. Replies are the abstract `Reply`
 * values below rather than formatted text; a reply that shows news names the scope (or
 * query) and the number of articles asked of a freshly created scraper.
 */
module Commands {
  import opened Wrappers
  import opened Text
  import Config
  import Helpers
  import Articles
  import Scraper

  /** `_safe_id(user_id)`: every "@" and then every ":" becomes "_". */
  function SafeId(userId: string): (r: string)
    ensures |r| == |userId|
    ensures forall i :: 0 <= i < |r| ==> r[i] == if userId[i] == '@' || userId[i] == ':' then '_' else userId[i]
    ensures '@' !in r && ':' !in r
  {
    var once := ReplaceAll(userId, "@", "_");
    ReplaceCharAt(userId, '@', '_');
    ReplaceCharAt(once, ':', '_');
    ReplaceAll(once, ":", "_")
  }

  /** The store keys users by their safe id, so two senders that differ only in "@" versus
      ":" share one record. */
  lemma SafeIdConflates()
    ensures "a@b" != "a:b" && SafeId("a@b") == SafeId("a:b") == "a_b"
  {
    assert SafeId("a@b")[1] == '_' && SafeId("a:b")[1] == '_';
  }

  /** `UserStore.get` on the store's records: the saved preferences, or the defaults. */
  function Load(records: map<string, Config.Preferences>, userId: string): (p: Config.Preferences)
    ensures SafeId(userId) in records ==> p == records[SafeId(userId)]
    ensures SafeId(userId) !in records ==> p == Config.DefaultPreferences
  {
    if SafeId(userId) in records then records[SafeId(userId)] else Config.DefaultPreferences
  }

  /** The preference store; `records` maps a safe id to the record saved under it. */
  class UserStore {
    var records: map<string, Config.Preferences>

    /** An empty store. */
    constructor()
      ensures records == map[]
    {
      records := map[];
    }

    /** `get(user_id)` */
    method Get(userId: string) returns (p: Config.Preferences)
      ensures p == Load(records, userId)
    {
      var key := SafeId(userId);
      if key in records {
        p := records[key];
      } else {
        p := Config.DefaultPreferences;
      }
    }

    /** `save(user_id, prefs)`: the record is replaced whole. */
    method Save(userId: string, prefs: Config.Preferences)
      modifies this
      ensures records == old(records)[SafeId(userId) := prefs]
    {
      records := records[SafeId(userId) := prefs];
    }
  }

  /** A saved record is loaded back, and saving for one user changes no other user whose
      safe id differs. */
  lemma LoadAfterSave(records: map<string, Config.Preferences>, user: string, prefs: Config.Preferences, other: string)
    ensures Load(records[SafeId(user) := prefs], user) == prefs
    ensures SafeId(other) != SafeId(user) ==> Load(records[SafeId(user) := prefs], other) == Load(records, other)
  {
  }

  /** What a message leads to. */
  datatype Route =
    | Ignore                          // empty after stripping: no reply at all
    | Command(name: string, args: string)
    | CountrySelection(code: string)
    | SearchQuery(query: string)
    | ShowHelp

  /** The message's first whitespace-free token. */
  function Token(s: string): (t: string)
    ensures StartsWith(s, t)
    ensures forall i :: 0 <= i < |t| ==> !IsSpace(t[i])
    ensures |t| < |s| ==> IsSpace(s[|t|])
    decreases |s|
  {
    if s == [] || IsSpace(s[0]) then [] else [s[0]] + Token(s[1..])
  }

  /** `s.split(maxsplit=1)` on a stripped, non-empty s: the first token and the rest after
      the blanks that follow it ("" when there is no second part). */
  function SplitCommand(s: string): (string, string) {
    var t := Token(s);
    (t, StripLeft(s[|t|..]))
  }

  /** Splitting recovers a command and its arguments joined by a blank. */
  lemma {:induction false} SplitCommandRoundTrip(cmd: string, args: string)
    requires cmd != [] && forall i :: 0 <= i < |cmd| ==> !IsSpace(cmd[i])
    requires args == [] || !IsSpace(args[0])
    ensures SplitCommand(cmd + " " + args) == (cmd, args)
    ensures SplitCommand(cmd) == (cmd, "")
  {
    TokenOfWord(cmd, " " + args);
    TokenOfWord(cmd, []);
    assert cmd + " " + args == cmd + (" " + args);
    assert (cmd + " " + args)[|cmd|..] == " " + args;
    assert (" " + args)[1..] == args;
    assert StripLeft(" " + args) == StripLeft(args) == args;
    assert cmd + [] == cmd;
    assert cmd[|cmd|..] == [];
  }

  lemma {:induction false} TokenOfWord(w: string, rest: string)
    requires forall i :: 0 <= i < |w| ==> !IsSpace(w[i])
    requires rest == [] || IsSpace(rest[0])
    ensures Token(w + rest) == w
    decreases |w|
  {
    if w != [] {
      assert (w + rest)[1..] == w[1..] + rest;
      TokenOfWord(w[1..], rest);
      assert w == [w[0]] + w[1..];
    } else {
      assert w + rest == rest;
    }
  }

  /**
   * `handle`'s decision, in priority order on the stripped content c: nothing when c is
   * empty; a slash command when c starts with "/"; a country selection when the
   * upper-cased c is a registry code; a search when c is longer than two characters;
   * the help message otherwise.
   */
  function RouteOf(content: string): (r: Route)
    ensures r.Ignore? <==> Strip(content) == []
    ensures r.Command? <==> Strip(content) != [] && StartsWith(Strip(content), "/")
    ensures r.CountrySelection? <==>
      Strip(content) != [] && !StartsWith(Strip(content), "/") && Config.IsScope(Upper(Strip(content)))
    ensures r.SearchQuery? <==>
      !StartsWith(Strip(content), "/") && !Config.IsScope(Upper(Strip(content))) && |Strip(content)| > 2
    ensures r.ShowHelp? <==>
      Strip(content) != [] && !StartsWith(Strip(content), "/") && !Config.IsScope(Upper(Strip(content))) &&
      |Strip(content)| <= 2
    ensures r.Command? ==> r.name == Lower(SplitCommand(Strip(content)).0) && r.args == SplitCommand(Strip(content)).1
    ensures r.CountrySelection? ==> r.code == Upper(Strip(content))
    ensures r.SearchQuery? ==> r.query == Strip(content)
  {
    var c := Strip(content);
    Config.RegistryCodes();
    if c == [] then Ignore
    else if StartsWith(c, "/") then
      var (token, args) := SplitCommand(c);
      Command(Lower(token), args)
    else if Config.IsScope(Upper(c)) then CountrySelection(Upper(c))
    else if |c| > 2 then SearchQuery(c)
    else ShowHelp
  }

  /** A message that is not a command selects a country exactly when the helper
      `is_valid_country_code` accepts its stripped text, so lower-case codes work too. */
  lemma CountrySelectionIsValidCode(content: string)
    requires !StartsWith(Strip(content), "/")
    ensures RouteOf(content).CountrySelection? <==> Helpers.IsValidCountryCode(Strip(content))
    ensures forall code :: code in Config.Codes() ==> RouteOf(Lower(code)).CountrySelection?
  {
    Config.CodesUpperAndDistinct();
    forall code | code in Config.Codes() ensures RouteOf(Lower(code)).CountrySelection? {
      Helpers.CaseInsensitiveCodes(code);
      LowerCodeIsStripped(code);
    }
  }

  /** A registry code in lower case is not blank at either end and does not start with "/". */
  lemma LowerCodeIsStripped(code: string)
    requires code in Config.Codes()
    ensures Strip(Lower(code)) == Lower(code) && !StartsWith(Lower(code), "/")
    ensures Upper(Lower(code)) == code
  {
    Config.CodesCapital();
    CapitalWordShape(code);
  }

  /** The replies, without their text. */
  datatype Reply =
    | Welcome
    | Help
    | CountryList
    | MissingCountry                       // `/set` without a code
    | UnknownCountry(code: string)
    | CountrySet(code: string)
    | NewsFor(scope: string, limit: int)   // the news of a scope, from a fresh scraper
    | MissingQuery                         // `/search` without a query
    | SearchFor(query: string, limit: int) // a search across all scopes, from a fresh scraper
    | Subscribed
    | Unsubscribed
    | UnknownCommand(command: string)

  /** What `handle` returns: None, a reply, or an exception (`prefs.countries[0]` on an
      empty country list). */
  datatype Response = NoResponse | Respond(reply: Reply) | Raises

  /** A reply, and the preferences to save when the command saves. */
  datatype Outcome = Outcome(response: Response, saved: Option<Config.Preferences>)

  /** `_cmd_set_country` with the caller's preferences. */
  function SetCountry(prefs: Config.Preferences, args: string): (o: Outcome)
    ensures o.saved.Some? <==> args != "" && Config.IsScope(Strip(Upper(args)))
    ensures o.saved.Some? ==>
      o.saved.value == prefs.(countries := [Strip(Upper(args))]) &&
      o.response == Respond(CountrySet(Strip(Upper(args))))
    ensures args == "" ==> o.response == Respond(MissingCountry)
    ensures args != "" && !Config.IsScope(Strip(Upper(args))) ==> o.response == Respond(UnknownCountry(Strip(Upper(args))))
  {
    if args == "" then Outcome(Respond(MissingCountry), None)
    else
      var country := Strip(Upper(args));
      if !Config.IsScope(country) then Outcome(Respond(UnknownCountry(country)), None)
      else Outcome(Respond(CountrySet(country)), Some(prefs.(countries := [country])))
  }

  /** `_cmd_news` with the caller's preferences: the named scope, else the first stored one;
      an unknown scope is an error and nothing is fetched. */
  function News(prefs: Config.Preferences, args: string): (r: Response)
    ensures args != "" && Config.IsScope(Strip(Upper(args))) ==> r == Respond(NewsFor(Strip(Upper(args)), prefs.newsCount))
    ensures args != "" && !Config.IsScope(Strip(Upper(args))) ==> r == Respond(UnknownCountry(Strip(Upper(args))))
    ensures args == "" && prefs.countries != [] ==>
      r == Respond(if Config.IsScope(prefs.countries[0]) then NewsFor(prefs.countries[0], prefs.newsCount)
                   else UnknownCountry(prefs.countries[0]))
    ensures r == Raises <==> args == "" && prefs.countries == []
  {
    if args == "" && prefs.countries == [] then Raises
    else
      var country := if args != "" then Strip(Upper(args)) else prefs.countries[0];
      if !Config.IsScope(country) then Respond(UnknownCountry(country))
      else Respond(NewsFor(country, prefs.newsCount))
  }

  /** `_cmd_subscribe` (on) and `_cmd_unsubscribe` (off): only the flag changes. */
  function SetNotify(prefs: Config.Preferences, on: bool): (o: Outcome)
    ensures o.saved == Some(prefs.(notifyEnabled := on))
    ensures o.response == Respond(if on then Subscribed else Unsubscribed)
  {
    Outcome(Respond(if on then Subscribed else Unsubscribed), Some(prefs.(notifyEnabled := on)))
  }

  /** `_handle_command`'s dispatch table, for the lower-cased command and its arguments. */
  function Dispatch(prefs: Config.Preferences, command: string, args: string): Outcome {
    match command
    case "/start" => Outcome(Respond(Welcome), None)
    case "/help" => Outcome(Respond(Help), None)
    case "/countries" => Outcome(Respond(CountryList), None)
    case "/set" => SetCountry(prefs, args)
    case "/news" => Outcome(News(prefs, args), None)
    case "/global" => Outcome(Respond(NewsFor("GLOBAL", 5)), None)
    case "/search" => Outcome(Respond(if args == "" then MissingQuery else SearchFor(args, 5)), None)
    case "/subscribe" => SetNotify(prefs, true)
    case "/unsubscribe" => SetNotify(prefs, false)
    case _ => Outcome(Respond(UnknownCommand(command)), None)
  }

  /** The nine commands of the table. */
  const KnownCommands: seq<string> :=
    ["/start", "/help", "/countries", "/set", "/news", "/global", "/search", "/subscribe", "/unsubscribe"]

  /** Only `/set`, `/subscribe` and `/unsubscribe` save, and a save changes one field of the
      caller's record; a command outside the table is answered as unknown and saves nothing. */
  lemma DispatchSaves(prefs: Config.Preferences, command: string, args: string)
    ensures Dispatch(prefs, command, args).saved.Some? ==> command in ["/set", "/subscribe", "/unsubscribe"]
    ensures var o := Dispatch(prefs, command, args);
      o.saved.Some? ==>
        o.saved.value.language == prefs.language && o.saved.value.newsCount == prefs.newsCount &&
        (command == "/set" ==> o.saved.value.notifyEnabled == prefs.notifyEnabled && |o.saved.value.countries| == 1) &&
        (command != "/set" ==> o.saved.value.countries == prefs.countries)
    ensures command !in KnownCommands ==> Dispatch(prefs, command, args) == Outcome(Respond(UnknownCommand(command)), None)
  {
  }

  /** The store after an outcome: the caller's record replaced when the command saves. */
  function Apply(records: map<string, Config.Preferences>, sender: string, o: Outcome): map<string, Config.Preferences> {
    match o.saved
    case Some(p) => records[SafeId(sender) := p]
    case None => records
  }

  /** `_handle_command` on the stripped content: its reply and the store afterwards. */
  function CommandSpec(records: map<string, Config.Preferences>, sender: string, content: string): (Response, map<string, Config.Preferences>) {
    var (token, args) := SplitCommand(Strip(content));
    var o := Dispatch(Load(records, sender), Lower(token), args);
    (o.response, Apply(records, sender, o))
  }

  /** `handle`: its reply and the store afterwards. Only commands can change the store. */
  function HandleSpec(records: map<string, Config.Preferences>, sender: string, content: string): (Response, map<string, Config.Preferences>) {
    match RouteOf(content)
    case Ignore => (NoResponse, records)
    case Command(_, _) => CommandSpec(records, sender, content)
    case CountrySelection(code) => (Respond(NewsFor(code, Load(records, sender).newsCount)), records)
    case SearchQuery(query) => (Respond(SearchFor(query, 5)), records)
    case ShowHelp => (Respond(Help), records)
  }

  /** Every stored record has a country: the store the handler itself fills. */
  predicate Wellformed(records: map<string, Config.Preferences>) {
    forall k :: k in records ==> records[k].countries != []
  }

  /**
   * The handler keeps the store well formed, and on a well-formed store it never raises:
   * `/news` without a code always has a stored country to fall back on.
   */
  lemma HandleKeepsStoreWellformed(records: map<string, Config.Preferences>, sender: string, content: string)
    requires Wellformed(records)
    ensures Wellformed(HandleSpec(records, sender, content).1)
    ensures HandleSpec(records, sender, content).0 != Raises
  {
    if RouteOf(content).Command? {
      CommandKeepsWellformed(records, sender, content);
    }
  }

  /** The command path of `HandleKeepsStoreWellformed`: the caller's record has a country,
      so `/news` does not raise, and a saved record has one too. */
  lemma CommandKeepsWellformed(records: map<string, Config.Preferences>, sender: string, content: string)
    requires Wellformed(records)
    ensures Wellformed(CommandSpec(records, sender, content).1)
    ensures CommandSpec(records, sender, content).0 != Raises
  {
    var (token, args) := SplitCommand(Strip(content));
    var prefs := Load(records, sender);
    assert prefs.countries != [] by {
      if SafeId(sender) !in records {
        Config.Defaults();
      }
    }
    DispatchSaves(prefs, Lower(token), args);
  }

  /** Starting from an empty store, a message never raises. */
  lemma EmptyStoreNeverRaises(sender: string, content: string)
    ensures HandleSpec(map[], sender, content).0 != Raises
  {
    HandleKeepsStoreWellformed(map[], sender, content);
  }

  /** "/news" alone is the command /news without arguments. */
  lemma BareNewsCommand()
    ensures SplitCommand("/news") == ("/news", "") && Lower("/news") == "/news"
  {
    var w := "/news";
    assert w == ['/', 'n', 'e', 'w', 's'];
    assert !IsSpace(w[0]) && !IsSpace(w[1]) && !IsSpace(w[2]) && !IsSpace(w[3]) && !IsSpace(w[4]);
    SplitCommandRoundTrip(w, "");
    assert Lower(w) == [LowerChar(w[0]), LowerChar(w[1]), LowerChar(w[2]), LowerChar(w[3]), LowerChar(w[4])];
  }

  /** A record saved with no country (possible only by editing the store's file) makes a bare
      `/news` raise. */
  lemma EmptyCountriesRaise(sender: string)
    ensures var records := map[SafeId(sender) := Config.DefaultPreferences.(countries := [])];
      HandleSpec(records, sender, "/news").0 == Raises
  {
    var records := map[SafeId(sender) := Config.DefaultPreferences.(countries := [])];
    assert Strip("/news") == "/news" && StartsWith("/news", "/");
    assert RouteOf("/news").Command?;
    assert HandleSpec(records, sender, "/news") == CommandSpec(records, sender, "/news");
    BareNewsCommand();
    var prefs := Load(records, sender);
    assert prefs.countries == [];
    assert Dispatch(prefs, "/news", "").response == News(prefs, "");
  }

  /**
   * Each news reply asks a newly created scraper, whose cache is empty: for a registered
   * scope the articles shown are always freshly fetched, the first `limit` of the
   * aggregate.
   */
  lemma NewsRepliesAlwaysFetch(scope: string, limit: int, ttl: int, fetch: Scraper.Fetcher, now: int, md5Hex: Articles.Digest)
    requires Config.IsScope(scope)
    ensures Scraper.GetNewsSpec(map[], ttl, scope, limit, true, Config.SourcesOf, fetch, now, md5Hex).0 ==
      Take(Scraper.Aggregate(Config.SourcesOf(scope), scope, fetch, now, md5Hex), limit)
  {
    var fetched := Scraper.Fetched(Config.SourcesOf, fetch, now, md5Hex);
    Scraper.GetNewsMiss(map[], ttl, scope, limit, true, now, fetched);
    assert fetched(scope) == Scraper.Aggregate(Config.SourcesOf(scope), scope, fetch, now, md5Hex);
  }

  /** The command handler; the store is the only state it changes. */
  class CommandHandler {
    const users: UserStore

    /** A handler with an empty store. */
    constructor()
      ensures fresh(users) && users.records == map[]
    {
      users := new UserStore();
    }

    /** `handle(message)` for a message from `sender` with text `content`. */
    method Handle(sender: string, content: string) returns (r: Response)
      modifies users
      ensures (r, users.records) == HandleSpec(old(users.records), sender, content)
    {
      var c := Strip(content);
      if c == [] {
        return NoResponse;
      }
      if StartsWith(c, "/") {
        r := HandleCommand(sender, content);
        return;
      }
      var upper := Upper(c);
      if Config.IsScope(upper) {
        var prefs := users.Get(sender);
        return Respond(NewsFor(upper, prefs.newsCount));
      }
      if |c| > 2 {
        return Respond(SearchFor(c, 5));
      }
      r := Respond(Help);
    }

    /** `_handle_command(message)` */
    method HandleCommand(sender: string, content: string) returns (r: Response)
      modifies users
      ensures (r, users.records) == CommandSpec(old(users.records), sender, content)
    {
      var (token, args) := SplitCommand(Strip(content));
      var command := Lower(token);
      if command == "/set" {
        r := CmdSetCountry(sender, args);
      } else if command == "/news" {
        r := CmdNews(sender, args);
      } else if command == "/subscribe" {
        r := CmdSubscribe(sender);
      } else if command == "/unsubscribe" {
        r := CmdUnsubscribe(sender);
      } else {
        var prefs := users.Get(sender);
        r := Dispatch(prefs, command, args).response;
      }
    }

    /** `_cmd_set_country(message, args)` */
    method CmdSetCountry(sender: string, args: string) returns (r: Response)
      modifies users
      ensures var o := SetCountry(Load(old(users.records), sender), args);
        r == o.response && users.records == Apply(old(users.records), sender, o)
    {
      if args == "" {
        return Respond(MissingCountry);
      }
      var country := Strip(Upper(args));
      if !Config.IsScope(country) {
        return Respond(UnknownCountry(country));
      }
      var prefs := users.Get(sender);
      prefs := prefs.(countries := [country]);
      users.Save(sender, prefs);
      r := Respond(CountrySet(country));
    }

    /** `_cmd_news(message, args)`: reads the caller's preferences, saves nothing. */
    method CmdNews(sender: string, args: string) returns (r: Response)
      ensures r == News(Load(users.records, sender), args)
    {
      var prefs := users.Get(sender);
      if args == "" && prefs.countries == [] {
        return Raises;
      }
      var country := if args != "" then Strip(Upper(args)) else prefs.countries[0];
      if !Config.IsScope(country) {
        return Respond(UnknownCountry(country));
      }
      r := Respond(NewsFor(country, prefs.newsCount));
    }

    /** `_cmd_subscribe(message, args)` */
    method CmdSubscribe(sender: string) returns (r: Response)
      modifies users
      ensures var o := SetNotify(Load(old(users.records), sender), true);
        r == o.response && users.records == Apply(old(users.records), sender, o)
    {
      var prefs := users.Get(sender);
      users.Save(sender, prefs.(notifyEnabled := true));
      r := Respond(Subscribed);
    }

    /** `_cmd_unsubscribe(message, args)` */
    method CmdUnsubscribe(sender: string) returns (r: Response)
      modifies users
      ensures var o := SetNotify(Load(old(users.records), sender), false);
        r == o.response && users.records == Apply(old(users.records), sender, o)
    {
      var prefs := users.Get(sender);
      users.Save(sender, prefs.(notifyEnabled := false));
      r := Respond(Unsubscribed);
    }
  }
}
