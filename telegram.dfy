/**
 * The Telegram channel: the inline keyboard of scope buttons, three to a row, the
 * handling of a button press, and the `/search` command. Every reply is produced by the
 * shared command handler; the bot only turns Telegram updates into message texts.
 */
module Telegram {
  import opened Wrappers
  import opened Text
  import Config
  import Commands

  /** `InlineKeyboardButton(text, callback_data=...)` */
  datatype Button = Button(text: string, callbackData: string)

  /** The callback-data prefix of a scope button. */
  const CallbackPrefix: string := "country_"

  /** The button of one registry scope: its flag and code, and the code behind the prefix. */
  function ButtonFor(e: Config.ScopeEntry): Button {
    Button(e.flag + " " + e.code, CallbackPrefix + e.code)
  }

  /** One button per entry, in order. */
  function Buttons(entries: seq<Config.ScopeEntry>): (r: seq<Button>)
    ensures |r| == |entries|
  {
    if entries == [] then [] else Buttons(entries[..|entries| - 1]) + [ButtonFor(entries[|entries| - 1])]
  }

  /** The i-th button is the button of the i-th entry. */
  lemma {:induction false} ButtonsAt(entries: seq<Config.ScopeEntry>, i: int)
    requires 0 <= i < |entries|
    ensures Buttons(entries)[i] == ButtonFor(entries[i])
    decreases |entries|
  {
    if i < |entries| - 1 {
      ButtonsAt(entries[..|entries| - 1], i);
    }
  }

  /** The buttons of the rows, row after row. */
  function Flatten(rows: seq<seq<Button>>): seq<Button> {
    if rows == [] then [] else Flatten(rows[..|rows| - 1]) + rows[|rows| - 1]
  }

  /** Rows of three buttons, except that the last row may be shorter; no row is empty. */
  predicate RowsOfThree(rows: seq<seq<Button>>) {
    forall i :: 0 <= i < |rows| ==> 1 <= |rows[i]| <= 3 && (i < |rows| - 1 ==> |rows[i]| == 3)
  }

  /** Flattening a longer list of rows appends the new row. */
  lemma FlattenSnoc(rows: seq<seq<Button>>, row: seq<Button>)
    ensures Flatten(rows + [row]) == Flatten(rows) + row
  {
    assert (rows + [row])[..|rows|] == rows;
  }

  /** The buttons of one more entry. */
  lemma ButtonsSnoc(entries: seq<Config.ScopeEntry>, i: int)
    requires 0 <= i < |entries|
    ensures Buttons(entries[..i + 1]) == Buttons(entries[..i]) + [ButtonFor(entries[i])]
  {
    assert entries[..i + 1][..i] == entries[..i];
  }

  /**
   * The loop of `_build_country_keyboard()` over the given entries: their buttons in
   * order, cut into rows of three, a shorter remainder making the last row.
   */
  method Keyboard(entries: seq<Config.ScopeEntry>) returns (rows: seq<seq<Button>>)
    ensures RowsOfThree(rows)
    ensures Flatten(rows) == Buttons(entries)
    ensures |rows| == (|entries| + 2) / 3
  {
    rows := [];
    var row: seq<Button> := [];
    for i := 0 to |entries|
      invariant Flatten(rows) + row == Buttons(entries[..i])
      invariant |row| < 3 && i == 3 * |rows| + |row|
      invariant forall j :: 0 <= j < |rows| ==> |rows[j]| == 3
    {
      ButtonsSnoc(entries, i);
      row := row + [ButtonFor(entries[i])];
      if |row| == 3 {
        FlattenSnoc(rows, row);
        rows := rows + [row];
        row := [];
      }
    }
    assert entries[..|entries|] == entries;
    CloseRows(rows, row, |entries|);
    if row != [] {
      rows := rows + [row];
    }
  }

  /** Closing the keyboard: the partial row, when there is one, becomes the last row. */
  lemma CloseRows(rows: seq<seq<Button>>, row: seq<Button>, n: int)
    requires forall j :: 0 <= j < |rows| ==> |rows[j]| == 3
    requires |row| < 3 && n == 3 * |rows| + |row|
    ensures row != [] ==>
      RowsOfThree(rows + [row]) && |rows + [row]| == (n + 2) / 3 && Flatten(rows + [row]) == Flatten(rows) + row
    ensures row == [] ==> RowsOfThree(rows) && |rows| == (n + 2) / 3 && Flatten(rows) + row == Flatten(rows)
  {
    FlattenSnoc(rows, row);
    assert Flatten(rows) + [] == Flatten(rows);
  }

  /** `_build_country_keyboard()`: the keyboard of every registered scope. */
  method BuildCountryKeyboard() returns (rows: seq<seq<Button>>)
    ensures RowsOfThree(rows)
    ensures Flatten(rows) == Buttons(Config.Registry)
    ensures |rows| == (|Config.Registry| + 2) / 3
  {
    rows := Keyboard(Config.Registry);
  }

  /** Rows of exactly three buttons hold three buttons per row. */
  lemma {:induction false} FullRowsLength(rows: seq<seq<Button>>)
    requires forall j :: 0 <= j < |rows| ==> |rows[j]| == 3
    ensures |Flatten(rows)| == 3 * |rows|
  {
    if rows != [] {
      FullRowsLength(rows[..|rows| - 1]);
    }
  }

  /** With the eleven registered scopes the keyboard has four rows, the last holding the
      two buttons of Australia and GLOBAL. */
  lemma KeyboardShape(rows: seq<seq<Button>>)
    requires RowsOfThree(rows) && Flatten(rows) == Buttons(Config.Registry)
    requires |rows| == (|Config.Registry| + 2) / 3
    ensures |rows| == 4 && |rows[3]| == 2
    ensures rows[3] == [ButtonFor(Config.ScopeAu), ButtonFor(Config.ScopeGlobal)]
  {
    assert |Config.Registry| == 11 && Config.Registry[9] == Config.ScopeAu && Config.Registry[10] == Config.ScopeGlobal;
    var all := Buttons(Config.Registry);
    var front := rows[..3];
    assert rows == front + [rows[3]];
    FlattenSnoc(front, rows[3]);
    FullRowsLength(front);
    assert all == Flatten(front) + rows[3];
    ButtonsAt(Config.Registry, 9);
    ButtonsAt(Config.Registry, 10);
    assert rows[3] == all[9..];
  }

  /**
   * The scope a button press asks for (`_handle_callback`): data that starts with
   * "country_" with every "country_" removed from it; other data is ignored.
   */
  function CallbackScope(data: string): (r: Option<string>)
    ensures r.Some? <==> StartsWith(data, CallbackPrefix)
  {
    if StartsWith(data, CallbackPrefix) then Some(ReplaceAll(data, CallbackPrefix, "")) else None
  }

  /** The callback data of a code without a lower-case 'c' gives back that code. */
  lemma CallbackOfCode(code: string)
    requires 'c' !in code
    ensures CallbackScope(CallbackPrefix + code) == Some(code)
  {
    MissingCharMeansAbsent(code, CallbackPrefix);
    ReplaceAbsent(code, CallbackPrefix, "");
    ReplaceLeading(CallbackPrefix, code, "");
    assert (CallbackPrefix + code)[..|CallbackPrefix|] == CallbackPrefix;
    assert "" + code == code;
  }

  /** Every removal of the prefix counts: data naming the prefix twice gives the bare code. */
  lemma CallbackRemovesEveryPrefix()
    ensures CallbackScope(CallbackPrefix + CallbackPrefix + "US") == Some("US")
    ensures CallbackScope("US") == None
  {
    var data := CallbackPrefix + CallbackPrefix + "US";
    assert data == CallbackPrefix + (CallbackPrefix + "US");
    assert data[..|CallbackPrefix|] == CallbackPrefix;
    ReplaceLeading(CallbackPrefix, CallbackPrefix + "US", "");
    CallbackOfCode("US");
  }

  /** A registered code is upper-case letters: no blanks around it, no leading slash. */
  lemma CodeShape(code: string)
    requires Config.IsScope(code)
    ensures code != [] && forall k :: 0 <= k < |code| ==> 'A' <= code[k] <= 'Z'
    ensures Strip(code) == code && !StartsWith(code, "/") && Upper(code) == code
  {
    Config.CodesCapital();
    CapitalWordShape(code);
  }

  /** A registered code, sent as a message, selects that scope. */
  lemma CodeSelectsScope(code: string)
    requires Config.IsScope(code)
    ensures Commands.RouteOf(code) == Commands.CountrySelection(code)
  {
    CodeShape(code);
  }

  /**
   * The callback data of a registry entry's button gives back the entry's code, and that
   * code sent as a message is a scope selection for that scope.
   */
  lemma ButtonRoundTrip(e: Config.ScopeEntry)
    requires e in Config.Registry
    ensures CallbackScope(ButtonFor(e).callbackData) == Some(e.code)
    ensures Commands.RouteOf(e.code) == Commands.CountrySelection(e.code)
  {
    var i :| 0 <= i < |Config.Registry| && Config.Registry[i] == e;
    Config.ScopeIndex(e.code);
    CodeShape(e.code);
    assert 'c' !in e.code;
    CallbackOfCode(e.code);
    CodeSelectsScope(e.code);
  }

  /** What the bot sends back for `/search`. */
  datatype SearchReply =
    | SearchPrompt                           // no words: a prompt, the handler is not asked
    | Handled(response: Commands.Response)   // the handler's response to "/search <words>"

  /** `" ".join(words)`: the words in order, one blank between neighbours. */
  function JoinWords(words: seq<string>): (r: string)
    ensures words != [] ==> StartsWith(r, words[0])
    ensures |r| == TotalLength(words) + (if words == [] then 0 else |words| - 1)
  {
    if words == [] then ""
    else if |words| == 1 then words[0]
    else words[0] + " " + JoinWords(words[1..])
  }

  /** The number of characters in all the words together. */
  function TotalLength(words: seq<string>): nat {
    if words == [] then 0 else |words[0]| + TotalLength(words[1..])
  }

  /** Joining two non-empty lists of words is joining each and putting one blank between:
      every word appears in order, separated from the next by exactly one blank. */
  lemma {:induction false} JoinWordsAppend(a: seq<string>, b: seq<string>)
    requires a != [] && b != []
    ensures JoinWords(a + b) == JoinWords(a) + " " + JoinWords(b)
    decreases |a|
  {
    if |a| == 1 {
      assert (a + b)[1..] == b;
    } else {
      assert (a + b)[0] == a[0] && (a + b)[1..] == a[1..] + b;
      JoinWordsAppend(a[1..], b);
    }
  }

  /** The bot; `newsHandler` is the shared command handler with its preference store. */
  class TelegramBot {
    const newsHandler: Commands.CommandHandler

    /** A bot over a handler whose store is empty. */
    constructor()
      ensures fresh(newsHandler) && fresh(newsHandler.users) && newsHandler.users.records == map[]
    {
      newsHandler := new Commands.CommandHandler();
    }

    /**
     * `_handle_callback`: a press on a scope button is answered like the message holding
     * the scope code from `sender`; any other callback is answered with nothing and changes
     * nothing.
     */
    method HandleCallback(sender: string, data: string) returns (r: Option<Commands.Response>)
      modifies newsHandler.users
      ensures CallbackScope(data).None? ==> r.None? && newsHandler.users.records == old(newsHandler.users.records)
      ensures CallbackScope(data).Some? ==>
        r.Some? &&
        (r.value, newsHandler.users.records) ==
          Commands.HandleSpec(old(newsHandler.users.records), sender, CallbackScope(data).value)
    {
      if StartsWith(data, CallbackPrefix) {
        var response := newsHandler.Handle(sender, ReplaceAll(data, CallbackPrefix, ""));
        return Some(response);
      }
      r := None;
    }

    /**
     * `_cmd_search` with the words after the command: none gives the prompt without asking
     * the handler; otherwise the handler answers "/search " followed by the words joined
     * with single spaces.
     */
    method CmdSearch(sender: string, words: seq<string>) returns (r: SearchReply)
      modifies newsHandler.users
      ensures words == [] ==> r == SearchPrompt && newsHandler.users.records == old(newsHandler.users.records)
      ensures words != [] ==>
        r.Handled? &&
        (r.response, newsHandler.users.records) ==
          Commands.HandleSpec(old(newsHandler.users.records), sender, "/search " + JoinWords(words))
    {
      if words == [] {
        return SearchPrompt;
      }
      var response := newsHandler.Handle(sender, "/search " + JoinWords(words));
      r := Handled(response);
    }
  }
}
