/** The chat side of the bot (bot.py): one metered chat turn
    (`handle_message` with `generate_ai_response` and `count_tokens`), the
    admin delete cascade, the button callbacks (model selection, deletion,
    purchase shortcut) and the `/start` handler with its deep-link
    dispatch. The completion service and the tokenizer are parameters. */
module Bot {
  import opened Wrappers
  import Text
  import Database
  import Payments
  import PaymentIntegration

  const CREDITS_PER_MESSAGE: int := 1
  const HISTORY_WINDOW: nat := 10
  const DEFAULT_MODEL_KEY := "assistant"
  const MODEL_PREFERENCE := "model"
  const DEFAULT_SYSTEM_PROMPT := "You are a helpful assistant."
  const DEFAULT_PARSE_MODE := "html"
  const APOLOGY := "Lo siento, tuve un problema al procesar tu solicitud. Por favor, intenta de nuevo más tarde."
  const DEBIT_DESCRIPTION := "AI response"

  // ---------------------------------------------------------------------------
  // Models
  // ---------------------------------------------------------------------------

  /** One entry of `modelos.json`; every key is optional. */
  datatype ModelConfig = ModelConfig(name: Option<string>, promptStart: Option<string>, parseMode: Option<string>)

  /** The configuration of a model key: its own entry, else the `"assistant"`
      entry, else an empty configuration. */
  function ResolveModel(models: map<string, ModelConfig>, key: string): (m: ModelConfig)
    ensures key in models ==> m == models[key]
    ensures m in models.Values || m == ModelConfig(None, None, None)
  {
    if key in models then models[key]
    else if DEFAULT_MODEL_KEY in models then models[DEFAULT_MODEL_KEY]
    else ModelConfig(None, None, None)
  }

  function SystemPrompt(m: ModelConfig): string
  {
    m.promptStart.GetOr(DEFAULT_SYSTEM_PROMPT)
  }

  function ParseMode(m: ModelConfig): string
  {
    m.parseMode.GetOr(DEFAULT_PARSE_MODE)
  }

  /** The `model` preference of `u`, `"assistant"` when there is none. */
  function SelectedModel(preferences: map<(int, string), string>, u: int): (key: string)
    ensures key == DEFAULT_MODEL_KEY || key in preferences.Values
  {
    if (u, MODEL_PREFERENCE) in preferences then preferences[(u, MODEL_PREFERENCE)] else DEFAULT_MODEL_KEY
  }

  /** An unknown model key behaves exactly like `"assistant"`; with no
      `"assistant"` entry either, the default prompt and `html` are used; and
      a user who never chose a model gets `"assistant"`. */
  lemma UnknownModelFallsBack(models: map<string, ModelConfig>, preferences: map<(int, string), string>,
                              key: string, u: int)
    ensures key !in models ==> ResolveModel(models, key) == ResolveModel(models, DEFAULT_MODEL_KEY)
    ensures key !in models && DEFAULT_MODEL_KEY !in models ==>
      SystemPrompt(ResolveModel(models, key)) == DEFAULT_SYSTEM_PROMPT
      && ParseMode(ResolveModel(models, key)) == DEFAULT_PARSE_MODE
    ensures (u, MODEL_PREFERENCE) !in preferences ==> SelectedModel(preferences, u) == DEFAULT_MODEL_KEY
  {
  }

  // ---------------------------------------------------------------------------
  // Prompt and token count
  // ---------------------------------------------------------------------------

  /** `conversation[-10:]`: the last ten stored turns, or all of them when
      there are fewer. */
  function Recent(history: seq<Database.Message>): (r: seq<Database.Message>)
    ensures |r| == if |history| <= HISTORY_WINDOW then |history| else HISTORY_WINDOW
    ensures r == history[|history| - |r|..]
  {
    if |history| <= HISTORY_WINDOW then history else history[|history| - HISTORY_WINDOW..]
  }

  /** The messages sent to the completion service: the system prompt, the
      recent history, and the new user text. */
  function Prompt(system: string, history: seq<Database.Message>, text: string): (p: seq<Database.Message>)
    ensures |p| == 2 + (if |history| <= HISTORY_WINDOW then |history| else HISTORY_WINDOW)
    ensures p[0] == Database.Message(Database.SystemRole, system)
    ensures p[|p| - 1] == Database.Message(Database.UserRole, text)
    ensures |p| - 2 <= |history| && p[1..|p| - 1] == history[|history| - (|p| - 2)..]
  {
    var recent := Recent(history);
    var p := [Database.Message(Database.SystemRole, system)] + recent + [Database.Message(Database.UserRole, text)];
    assert p[1..|p| - 1] == recent;
    p
  }

  /** The loop of `generate_ai_response` that builds `messages`. */
  method BuildPrompt(system: string, history: seq<Database.Message>, text: string)
    returns (messages: seq<Database.Message>)
    ensures messages == Prompt(system, history, text)
  {
    var recent := Recent(history);
    messages := [Database.Message(Database.SystemRole, system)];
    var i := 0;
    while i < |recent|
      invariant 0 <= i <= |recent|
      invariant messages == [Database.Message(Database.SystemRole, system)] + recent[..i]
    {
      messages := messages + [recent[i]];
      i := i + 1;
    }
    assert recent[..i] == recent;
    messages := messages + [Database.Message(Database.UserRole, text)];
  }

  /** `count_tokens`: the tokenizer's count, or `len(text) // 4` when the
      tokenizer cannot be loaded (`None`). */
  function CountTokens(text: string, encoder: Option<string -> nat>): (n: nat)
    ensures encoder.Some? ==> n == encoder.value(text)
    ensures encoder.None? ==> 4 * n <= |text| < 4 * n + 4
  {
    match encoder
    case Some(encode) => encode(text)
    case None => |text| / 4
  }

  /** What `generate_ai_response` returns for a completion result: the
      stripped content with the model's parse mode, or the apology in `html`
      when the call failed. */
  function AiAnswer(m: ModelConfig, result: Option<string>): (answer: (string, string))
    ensures result.Some? ==> answer.0 == Text.Strip(result.value) && answer.1 == ParseMode(m)
    ensures result.None? ==> answer == (APOLOGY, DEFAULT_PARSE_MODE)
  {
    match result
    case Some(content) => (Text.Strip(content), ParseMode(m))
    case None => (APOLOGY, DEFAULT_PARSE_MODE)
  }

  /** The chat completion's answer to the prompt of a turn. */
  function Completion(complete: seq<Database.Message> -> Option<string>, m: ModelConfig,
                      history: seq<Database.Message>, text: string): Option<string>
  {
    complete(Prompt(SystemPrompt(m), history, text))
  }

  /** `generate_ai_response`: the prompt is built from the stored history;
      a successful completion appends the user and assistant turns to the
      whole stored history (the ten-turn window only limits the prompt); a
      failed one leaves the conversation alone. */
  method GenerateAiResponse(db: Database.Store, models: map<string, ModelConfig>, u: int, text: string,
                            key: string, complete: seq<Database.Message> -> Option<string>, now: int)
    returns (response: string, parseMode: string)
    requires db.Valid()
    modifies db
    ensures db.Valid()
    ensures db.users == old(db.users) && db.usage == old(db.usage) && db.preferences == old(db.preferences)
    ensures var m := ResolveModel(models, key);
      var history := Database.History(old(db.conversations), u);
      var result := Completion(complete, m, history, text);
      && (response, parseMode) == AiAnswer(m, result)
      && (result.Some? ==>
            db.conversations == old(db.conversations)[u := Database.Context(
              history + [Database.Message(Database.UserRole, text), Database.Message(Database.AssistantRole, response)],
              now)])
      && (result.None? ==> db.conversations == old(db.conversations))
  {
    var m := ResolveModel(models, key);
    var history := db.GetConversationContext(u);
    var messages := BuildPrompt(SystemPrompt(m), history, text);
    var result := complete(messages);
    match result {
      case None =>
        response, parseMode := APOLOGY, DEFAULT_PARSE_MODE;
      case Some(content) =>
        response := Text.Strip(content);
        parseMode := ParseMode(m);
        db.SaveConversationContext(u, history + [Database.Message(Database.UserRole, text),
                                                 Database.Message(Database.AssistantRole, response)], now);
    }
  }

  // ---------------------------------------------------------------------------
  // One chat turn
  // ---------------------------------------------------------------------------

  datatype Rendering = MarkdownText | HtmlText

  /** `c.lower() == t` for a lower-case ASCII letter `t`: `t` itself, its
      upper-case form, or, for `k`, KELVIN SIGN. */
  predicate LowersTo(c: char, t: char)
  {
    c == t || (c as int) + 32 == t as int || (t == 'k' && c == 'K')
  }

  /** `parse_mode.lower() == "markdown"`. */
  predicate IsMarkdownMode(mode: string)
  {
    && |mode| == 8
    && LowersTo(mode[0], 'm') && LowersTo(mode[1], 'a') && LowersTo(mode[2], 'r') && LowersTo(mode[3], 'k')
    && LowersTo(mode[4], 'd') && LowersTo(mode[5], 'o') && LowersTo(mode[6], 'w') && LowersTo(mode[7], 'n')
  }

  function RenderingFor(mode: string): Rendering
  {
    if IsMarkdownMode(mode) then MarkdownText else HtmlText
  }

  datatype Reply = NoCredits | Answered(text: string, rendering: Rendering, remaining: int)

  /** The two rows a charged turn appends to the usage log: the debit written
      by `update_user_credits`, then the exchange written by `record_usage`. */
  function TurnRows(u: int, text: string, response: string, encoder: Option<string -> nat>, now: int)
    : (rows: seq<Database.UsageRow>)
    ensures |rows| == 2 && rows[0].creditsUsed == rows[1].creditsUsed == CREDITS_PER_MESSAGE
    ensures rows[0].tokensUsed == 0 && rows[1].messageText == text
  {
    [Database.CreditRow(u, -CREDITS_PER_MESSAGE, DEBIT_DESCRIPTION, now),
     Database.UsageRow(u, text, CountTokens(text, encoder) + CountTokens(response, encoder), CREDITS_PER_MESSAGE, now)]
  }

  /** The effect of a turn that passed the credit check, from the state
      `users`, `usage`, `conversations`, `preferences` before it to the reply
      and the state after it: the answer is produced from the recent history,
      one credit is taken and two usage rows are logged (whether or not the
      completion succeeded), and only a successful completion extends the
      stored conversation. */
  ghost predicate ChargedTurnEffect(
    models: map<string, ModelConfig>, u: int, text: string,
    complete: seq<Database.Message> -> Option<string>, encoder: Option<string -> nat>, now: int,
    users: map<int, Database.Account>, usage: seq<Database.UsageRow>, conversations: map<int, Database.Context>,
    preferences: map<(int, string), string>,
    reply: Reply, users': map<int, Database.Account>, usage': seq<Database.UsageRow>,
    conversations': map<int, Database.Context>)
    requires u in users
  {
    var m := ResolveModel(models, SelectedModel(preferences, u));
    var history := Database.History(conversations, u);
    var result := Completion(complete, m, history, text);
    var answer := AiAnswer(m, result);
    && reply.Answered? && reply.text == answer.0 && reply.rendering == RenderingFor(answer.1)
    && reply.remaining == users[u].credits - CREDITS_PER_MESSAGE
    && users' == Database.Credited(users, u, -CREDITS_PER_MESSAGE)
    && usage' == usage + TurnRows(u, text, answer.0, encoder, now)
    && (result.Some? ==>
          conversations' == conversations[u := Database.Context(
            history + [Database.Message(Database.UserRole, text), Database.Message(Database.AssistantRole, answer.0)],
            now)])
    && (result.None? ==> conversations' == conversations)
  }

  /** The part of `handle_message` after the credit check. */
  method ChargedTurn(db: Database.Store, models: map<string, ModelConfig>, u: int, text: string,
                     complete: seq<Database.Message> -> Option<string>, encoder: Option<string -> nat>, now: int)
    returns (reply: Reply)
    requires db.Valid() && u in db.users && db.users[u].credits >= CREDITS_PER_MESSAGE
    modifies db
    ensures db.Valid()
    ensures db.preferences == old(db.preferences)
    ensures ChargedTurnEffect(models, u, text, complete, encoder, now,
                              old(db.users), old(db.usage), old(db.conversations), old(db.preferences),
                              reply, db.users, db.usage, db.conversations)
  {
    var key := SelectedModel(db.preferences, u);
    var response, parseMode := GenerateAiResponse(db, models, u, text, key, complete, now);
    var remaining := Charge(db, u, text, response, encoder, now);
    reply := Answered(response, RenderingFor(parseMode), remaining);
  }

  /** `handle_message`: the sender is registered first; with less than one
      credit the turn stops there, otherwise it is a charged turn from the
      registered state. */
  method HandleMessage(db: Database.Store, models: map<string, ModelConfig>, u: int, username: Option<string>,
                       firstName: Option<string>, lastName: Option<string>, text: string,
                       complete: seq<Database.Message> -> Option<string>, encoder: Option<string -> nat>, now: int)
    returns (reply: Reply)
    requires db.Valid()
    modifies db
    ensures db.Valid()
    ensures db.preferences == old(db.preferences)
    ensures var registered := Database.Registered(old(db.users), u, username, firstName, lastName, now);
      registered[u].credits < CREDITS_PER_MESSAGE ==>
        reply == NoCredits && db.users == registered
        && db.usage == old(db.usage) && db.conversations == old(db.conversations)
    ensures var registered := Database.Registered(old(db.users), u, username, firstName, lastName, now);
      registered[u].credits >= CREDITS_PER_MESSAGE ==>
        ChargedTurnEffect(models, u, text, complete, encoder, now,
                             registered, old(db.usage), old(db.conversations), old(db.preferences),
                             reply, db.users, db.usage, db.conversations)
    ensures var registered := Database.Registered(old(db.users), u, username, firstName, lastName, now);
      db.users == Turns(registered, u, 1).0 && (reply.Answered? <==> Turns(registered, u, 1).1 == 1)
  {
    OneTurn(Database.Registered(db.users, u, username, firstName, lastName, now), u);
    db.RegisterUser(u, username, firstName, lastName, now);
    var credits := db.GetUserCredits(u);
    if credits < CREDITS_PER_MESSAGE {
      return NoCredits;
    }
    reply := ChargedTurn(db, models, u, text, complete, encoder, now);
  }

  /** The metering of an answered turn: one credit taken (through
      `update_user_credits`) and the exchange logged (through `record_usage`). */
  method Charge(db: Database.Store, u: int, text: string, response: string, encoder: Option<string -> nat>, now: int)
    returns (remaining: int)
    requires db.Valid() && u in db.users && db.users[u].credits >= CREDITS_PER_MESSAGE
    modifies db
    ensures db.Valid()
    ensures db.users == Database.Credited(old(db.users), u, -CREDITS_PER_MESSAGE)
    ensures remaining == db.users[u].credits == old(db.users)[u].credits - CREDITS_PER_MESSAGE
    ensures db.usage == old(db.usage) + TurnRows(u, text, response, encoder, now)
    ensures db.conversations == old(db.conversations) && db.preferences == old(db.preferences)
  {
    var tokens := CountTokens(text, encoder) + CountTokens(response, encoder);
    db.UpdateUserCredits(u, -CREDITS_PER_MESSAGE, DEBIT_DESCRIPTION, now);
    db.RecordUsage(u, text, tokens, CREDITS_PER_MESSAGE, now);
    remaining := db.GetUserCredits(u);
  }

  /** The balances after `n` consecutive chat turns of `u` with no purchase in
      between, and how many of them were answered: each turn is the gate and
      the one-credit debit of `HandleMessage`. */
  function Turns(users: map<int, Database.Account>, u: int, n: nat): (r: (map<int, Database.Account>, nat))
    requires u in users
    ensures r.0.Keys == users.Keys && r.1 <= n
    decreases n
  {
    if n == 0 || users[u].credits < CREDITS_PER_MESSAGE then (users, 0)
    else
      var next := Turns(Database.Credited(users, u, -CREDITS_PER_MESSAGE), u, n - 1);
      (next.0, next.1 + 1)
  }

  /** One step of `Turns` is one `HandleMessage` from the registered state:
      below one credit nothing is answered and the balances stay; otherwise
      one answer is paid with the one-credit debit. */
  lemma {:induction false} OneTurn(users: map<int, Database.Account>, u: int)
    requires u in users
    ensures users[u].credits < CREDITS_PER_MESSAGE ==> Turns(users, u, 1) == (users, 0)
    ensures users[u].credits >= CREDITS_PER_MESSAGE ==>
      Turns(users, u, 1) == (Database.Credited(users, u, -CREDITS_PER_MESSAGE), 1)
  {
    if users[u].credits >= CREDITS_PER_MESSAGE {
      var next := Database.Credited(users, u, -CREDITS_PER_MESSAGE);
      assert Turns(next, u, 0) == (next, 0);
    }
  }

  /** A balance of `b` pays for exactly `b` answers: of `n` turns, `min(n, b)`
      are answered, and the balance drops by exactly that much. */
  lemma {:induction false} TurnsSpendBalance(users: map<int, Database.Account>, u: int, n: nat)
    requires u in users && users[u].credits >= 0
    ensures var b := users[u].credits;
      Turns(users, u, n).1 == (if n <= b then n else b)
      && Turns(users, u, n).0[u].credits == b - Turns(users, u, n).1
    decreases n
  {
    if n > 0 && users[u].credits >= CREDITS_PER_MESSAGE {
      TurnsSpendBalance(Database.Credited(users, u, -CREDITS_PER_MESSAGE), u, n - 1);
    }
  }

  /** A user who was never seen before gets exactly five answered messages. */
  lemma {:induction false} NewUserGetsFiveMessages(users: map<int, Database.Account>, u: int, username: Option<string>,
                                                   firstName: Option<string>, lastName: Option<string>, now: int, n: nat)
    requires u !in users
    ensures var registered := Database.Registered(users, u, username, firstName, lastName, now);
      Turns(registered, u, n).1 == (if n <= Database.DEFAULT_CREDITS then n else Database.DEFAULT_CREDITS)
  {
    var registered := Database.Registered(users, u, username, firstName, lastName, now);
    TurnsSpendBalance(registered, u, n);
  }

  // ---------------------------------------------------------------------------
  // Deleting a user
  // ---------------------------------------------------------------------------

  /** `usage_history` without the rows of `t`, in the original order. */
  function WithoutUserRows(usage: seq<Database.UsageRow>, t: int): (r: seq<Database.UsageRow>)
    ensures |r| <= |usage|
    ensures forall i :: 0 <= i < |r| ==> r[i].userId != t && r[i] in usage
    ensures forall row :: row in usage && row.userId != t ==> row in r
    decreases |usage|
  {
    if usage == [] then []
    else if usage[0].userId == t then WithoutUserRows(usage[1..], t)
    else [usage[0]] + WithoutUserRows(usage[1..], t)
  }

  /** The rows of user `v`, in order. */
  function RowsOf(usage: seq<Database.UsageRow>, v: int): (r: seq<Database.UsageRow>)
    ensures forall i :: 0 <= i < |r| ==> r[i].userId == v
    decreases |usage|
  {
    if usage == [] then []
    else if usage[0].userId == v then [usage[0]] + RowsOf(usage[1..], v)
    else RowsOf(usage[1..], v)
  }

  /** Deleting `t` leaves every other user's usage history exactly as it was,
      order included, and leaves `t` with none. */
  lemma {:induction false} DeletionKeepsOtherHistories(usage: seq<Database.UsageRow>, t: int, v: int)
    ensures v != t ==> RowsOf(WithoutUserRows(usage, t), v) == RowsOf(usage, v)
    ensures RowsOf(WithoutUserRows(usage, t), t) == []
    decreases |usage|
  {
    if usage != [] {
      DeletionKeepsOtherHistories(usage[1..], t, v);
      var rest := WithoutUserRows(usage[1..], t);
      if usage[0].userId != t {
        assert ([usage[0]] + rest)[1..] == rest;
      }
    }
  }

  /** `user_preferences` without the rows of `t`. */
  function WithoutUserPreferences(preferences: map<(int, string), string>, t: int): (r: map<(int, string), string>)
    ensures forall k :: k in r <==> k in preferences && k.0 != t
    ensures forall k :: k in r ==> r[k] == preferences[k]
  {
    map k | k in preferences && k.0 != t :: preferences[k]
  }

  /** The four sequential deletes: conversation, preferences, usage history,
      and finally the user row. The payments table is not touched. */
  method DeleteUserRecords(db: Database.Store, t: int)
    requires db.Valid()
    modifies db
    ensures db.Valid()
    ensures db.conversations == old(db.conversations) - {t}
    ensures db.preferences == WithoutUserPreferences(old(db.preferences), t)
    ensures db.usage == WithoutUserRows(old(db.usage), t)
    ensures db.users == old(db.users) - {t}
  {
    db.conversations := db.conversations - {t};
    db.preferences := WithoutUserPreferences(db.preferences, t);
    db.usage := WithoutUserRows(db.usage, t);
    db.users := db.users - {t};
  }

  /** What `/eliminar` answers. */
  datatype EliminarReply =
    | EliminarRefused          // the caller is not an admin
    | UserList(ids: set<int>)  // no argument: one delete button per user
    | NotAnInteger
    | NoSuchUser(id: int)
    | UserRemoved(id: int)

  /** `eliminar_command`: only an admin may use it; without an argument it
      lists the users; an argument that is not an integer, or an id with no
      user row, deletes nothing; otherwise the cascade runs. */
  method EliminarCommand(db: Database.Store, caller: int, args: seq<string>) returns (reply: EliminarReply)
    requires db.Valid()
    modifies db
    ensures db.Valid()
    ensures !old(db.IsAdmin(caller)) ==> reply == EliminarRefused && unchanged(db)
    ensures old(db.IsAdmin(caller)) && |args| == 0 ==> reply == UserList(old(db.users).Keys) && unchanged(db)
    ensures old(db.IsAdmin(caller)) && |args| > 0 && Text.ParseInt(args[0]).None? ==>
      reply == NotAnInteger && unchanged(db)
    ensures old(db.IsAdmin(caller)) && |args| > 0 && Text.ParseInt(args[0]).Some? ==>
      var t := Text.ParseInt(args[0]).value;
      if t !in old(db.users) then reply == NoSuchUser(t) && unchanged(db)
      else
        reply == UserRemoved(t)
        && db.conversations == old(db.conversations) - {t}
        && db.preferences == WithoutUserPreferences(old(db.preferences), t)
        && db.usage == WithoutUserRows(old(db.usage), t)
        && db.users == old(db.users) - {t}
  {
    if !db.IsAdmin(caller) {
      return EliminarRefused;
    }
    if |args| == 0 {
      return UserList(db.users.Keys);
    }
    var parsed := Text.ParseInt(args[0]);
    if parsed.None? {
      return NotAnInteger;
    }
    var t := parsed.value;
    if t !in db.users {
      return NoSuchUser(t);
    }
    DeleteUserRecords(db, t);
    reply := UserRemoved(t);
  }

  // ---------------------------------------------------------------------------
  // Button callbacks
  // ---------------------------------------------------------------------------

  const SELECT_MODEL := "select_model"
  const SELECT_MODEL_PREFIX := "select_model_"
  const DELETE_USER_PREFIX := "delete_user_"
  const CONFIRM_DELETE_PREFIX := "confirm_delete_"
  const CANCEL_DELETE := "cancel_delete"
  const BUY_CREDITS := "buy_credits"

  datatype ButtonAction =
    | OpenModels
    | SelectModel(key: string)
    | DeleteUser(arg: string)
    | ConfirmDelete(arg: string)
    | CancelDelete
    | BuyCredits
    | OtherButton

  /** The `if`/`elif` chain of `handle_button_callback`, in its order; the
      argument of a prefixed button is what `replace` leaves. */
  function ParseButtonData(data: string): (a: ButtonAction)
    ensures a == OpenModels <==> data == SELECT_MODEL
    ensures a.SelectModel? <==> Text.StartsWith(data, SELECT_MODEL_PREFIX)
  {
    if data == SELECT_MODEL then OpenModels
    else if Text.StartsWith(data, SELECT_MODEL_PREFIX) then SelectModel(Text.RemoveAll(data, SELECT_MODEL_PREFIX))
    else if Text.StartsWith(data, DELETE_USER_PREFIX) then DeleteUser(Text.RemoveAll(data, DELETE_USER_PREFIX))
    else if Text.StartsWith(data, CONFIRM_DELETE_PREFIX) then ConfirmDelete(Text.RemoveAll(data, CONFIRM_DELETE_PREFIX))
    else if data == CANCEL_DELETE then CancelDelete
    else if data == BUY_CREDITS then BuyCredits
    else OtherButton
  }

  /** A model button selects its own model exactly when the key does not
      itself contain `select_model_`. */
  lemma {:induction false} SelectModelRoundTrip(key: string)
    ensures ParseButtonData(SELECT_MODEL_PREFIX + key) == SelectModel(key) <==> !Text.Contains(key, SELECT_MODEL_PREFIX)
  {
    Text.RemoveTag(SELECT_MODEL_PREFIX, key);
  }

  /** A user id written after a prefix containing `_` is what `replace`
      leaves, and `int()` reads it back. */
  lemma {:induction false} IdArgRoundTrip(prefix: string, t: int)
    requires '_' in prefix
    ensures Text.StartsWith(prefix + Text.IntToString(t), prefix)
    ensures Text.ParseInt(Text.RemoveAll(prefix + Text.IntToString(t), prefix)) == Some(t)
  {
    var s := Text.IntToString(t);
    assert '_' !in s;
    Text.NotContainsByMissingChar(s, prefix, '_');
    Text.RemoveTag(prefix, s);
    Text.ParseIntToString(t);
  }

  /** The delete and confirm buttons built for a user id come back as that id. */
  lemma {:induction false} DeleteButtonsRoundTrip(t: int)
    ensures var d := ParseButtonData(DELETE_USER_PREFIX + Text.IntToString(t));
      d.DeleteUser? && Text.ParseInt(d.arg) == Some(t)
    ensures var c := ParseButtonData(CONFIRM_DELETE_PREFIX + Text.IntToString(t));
      c.ConfirmDelete? && Text.ParseInt(c.arg) == Some(t)
  {
    var d := DELETE_USER_PREFIX + Text.IntToString(t);
    var c := CONFIRM_DELETE_PREFIX + Text.IntToString(t);
    assert DELETE_USER_PREFIX[6] == '_' && CONFIRM_DELETE_PREFIX[7] == '_';
    IdArgRoundTrip(DELETE_USER_PREFIX, t);
    IdArgRoundTrip(CONFIRM_DELETE_PREFIX, t);
    assert d[0] == 'd' && c[0] == 'c';
    Text.FirstCharDiffers(d, SELECT_MODEL);
    Text.FirstCharDiffers(d, SELECT_MODEL_PREFIX);
    Text.FirstCharDiffers(c, SELECT_MODEL);
    Text.FirstCharDiffers(c, SELECT_MODEL_PREFIX);
    Text.FirstCharDiffers(c, DELETE_USER_PREFIX);
  }

  datatype ButtonReply =
    | ShowModels
    | ModelSelected(key: string)
    | ModelNotFound
    | ButtonRefused                                     // the caller is not an admin
    | ConfirmDeletion(confirmData: string, cancelData: string)
    | DeletionDone(id: int)
    | DeletionCancelled
    | ShowPackages(balance: int, buttons: seq<string>)  // the `/comprar` keyboard
    | ButtonFailed                                      // `int()` raised: the handler stops
    | NoAction

  /** `handle_button_callback` for the user `u`. Only a known model key is
      stored as the `model` preference. The confirm button runs the cascade
      without first checking that the user exists. */
  method HandleButtonCallback(db: Database.Store, models: map<string, ModelConfig>, u: int, data: string)
    returns (reply: ButtonReply)
    requires db.Valid()
    modifies db
    ensures db.Valid()
    ensures !ParseButtonData(data).SelectModel? && !ParseButtonData(data).ConfirmDelete? ==> unchanged(db)
    ensures ParseButtonData(data) == OpenModels ==> reply == ShowModels
    ensures ParseButtonData(data).SelectModel? ==>
      var key := ParseButtonData(data).key;
      && db.users == old(db.users) && db.usage == old(db.usage) && db.conversations == old(db.conversations)
      && (key in models ==>
            reply == ModelSelected(key) && db.preferences == old(db.preferences)[(u, MODEL_PREFERENCE) := key])
      && (key !in models ==> reply == ModelNotFound && db.preferences == old(db.preferences))
    ensures ParseButtonData(data).DeleteUser? ==>
      var parsed := Text.ParseInt(ParseButtonData(data).arg);
      if !old(db.IsAdmin(u)) then reply == ButtonRefused
      else if parsed.None? then reply == ButtonFailed
      else reply == ConfirmDeletion(CONFIRM_DELETE_PREFIX + Text.IntToString(parsed.value), CANCEL_DELETE)
    ensures ParseButtonData(data).ConfirmDelete? ==>
      var parsed := Text.ParseInt(ParseButtonData(data).arg);
      if !old(db.IsAdmin(u)) then reply == ButtonRefused && unchanged(db)
      else if parsed.None? then reply == ButtonFailed && unchanged(db)
      else
        var t := parsed.value;
        reply == DeletionDone(t)
        && db.conversations == old(db.conversations) - {t}
        && db.preferences == WithoutUserPreferences(old(db.preferences), t)
        && db.usage == WithoutUserRows(old(db.usage), t)
        && db.users == old(db.users) - {t}
    ensures ParseButtonData(data) == CancelDelete ==> reply == DeletionCancelled
    ensures ParseButtonData(data) == BuyCredits ==>
      reply.ShowPackages? && reply.balance == old(db.GetUserCredits(u))
      && |reply.buttons| == |Payments.PACKAGE_ORDER|
      && forall i :: 0 <= i < |reply.buttons| ==> reply.buttons[i] == PaymentIntegration.BuyData(Payments.PACKAGE_ORDER[i])
    ensures ParseButtonData(data) == OtherButton ==> reply == NoAction
  {
    var action := ParseButtonData(data);
    match action {
      case OpenModels =>
        reply := ShowModels;
      case SelectModel(key) =>
        if key in models {
          db.preferences := db.preferences[(u, MODEL_PREFERENCE) := key];
          reply := ModelSelected(key);
        } else {
          reply := ModelNotFound;
        }
      case DeleteUser(arg) =>
        if !db.IsAdmin(u) {
          return ButtonRefused;
        }
        var parsed := Text.ParseInt(arg);
        if parsed.None? {
          return ButtonFailed;
        }
        reply := ConfirmDeletion(CONFIRM_DELETE_PREFIX + Text.IntToString(parsed.value), CANCEL_DELETE);
      case ConfirmDelete(arg) =>
        if !db.IsAdmin(u) {
          return ButtonRefused;
        }
        var parsed := Text.ParseInt(arg);
        if parsed.None? {
          return ButtonFailed;
        }
        DeleteUserRecords(db, parsed.value);
        reply := DeletionDone(parsed.value);
      case CancelDelete =>
        reply := DeletionCancelled;
      case BuyCredits =>
        var balance, buttons := PaymentIntegration.ComprarCommand(db, u);
        reply := ShowPackages(balance, buttons);
      case OtherButton =>
        reply := NoAction;
    }
  }

  // ---------------------------------------------------------------------------
  // /start
  // ---------------------------------------------------------------------------

  /** `start`: registers the user, clears the conversation, and reports
      whether the user is new (which triggers the admin notification) and the
      balance shown in the welcome text. */
  method Start(db: Database.Store, u: int, username: Option<string>, firstName: Option<string>,
               lastName: Option<string>, now: int) returns (isNew: bool, balance: int)
    requires db.Valid()
    modifies db
    ensures db.Valid()
    ensures isNew <==> u !in old(db.users)
    ensures db.users == Database.Registered(old(db.users), u, username, firstName, lastName, now)
    ensures db.conversations == old(db.conversations) - {u}
    ensures db.usage == old(db.usage) && db.preferences == old(db.preferences)
    ensures balance == db.users[u].credits
  {
    isNew := u !in db.users;
    db.RegisterUser(u, username, firstName, lastName, now);
    db.ClearConversationContext(u);
    balance := db.GetUserCredits(u);
  }

  /** Whether the `/start` handler `handle_deep_link_start(...) or start(...)`
      runs `start`, as written: the left operand is always `None`, so `start`
      runs after every deep link too, re-registering the user and wiping the
      conversation right after a payment was confirmed or cancelled. */
  function RunsStartAsWritten(args: seq<string>): (runs: bool)
    ensures runs
  {
    !PaymentIntegration.DeepLinkHandledAsWritten(args)
  }

  /** The PayPal return link for payment `abc` is answered by the deep-link
      handler and then handled a second time by `start`. */
  lemma ReturnLinkAlsoRunsStart()
    ensures PaymentIntegration.ParseStartArgs([Payments.RETURN_PREFIX + "abc"]) == PaymentIntegration.PaymentArg("abc")
    ensures RunsStartAsWritten([Payments.RETURN_PREFIX + "abc"])
  {
    Text.NotContainsByMissingChar("abc", Payments.RETURN_PREFIX, '_');
    PaymentIntegration.ReturnArgRoundTrip("abc");
  }

  /** The dispatch the comment on the last branch describes: `start` runs only
      when no deep link was answered. */
  function RunsStart(args: seq<string>): (runs: bool)
    ensures runs <==> PaymentIntegration.ParseStartArgs(args).PlainStart?
  {
    !PaymentIntegration.DeepLinkHandled(args)
  }

  /** With that dispatch, a payment or cancel link built for any uuid is
      answered once and does not reset the conversation. */
  lemma {:induction false} ReturnLinksSkipStart(paymentId: string)
    requires Payments.UuidText(paymentId)
    ensures !RunsStart([Payments.RETURN_PREFIX + paymentId])
    ensures !RunsStart([Payments.CANCEL_PREFIX + paymentId])
    ensures RunsStart([])
  {
    assert '_' !in paymentId;
    Text.NotContainsByMissingChar(paymentId, Payments.RETURN_PREFIX, '_');
    PaymentIntegration.ReturnArgRoundTrip(paymentId);
    Text.NotContainsByMissingChar(paymentId, Payments.CANCEL_PREFIX, '_');
    PaymentIntegration.CancelArgRoundTrip(paymentId);
  }

  /** The `/start` handler with the corrected dispatch: the deep link is
      tried first, and `start` runs only for a plain start. */
  method StartCommand(table: Payments.PaymentTable, db: Database.Store, u: int, username: Option<string>,
                      firstName: Option<string>, lastName: Option<string>, args: seq<string>, token: bool,
                      getOrder: string -> Payments.OrderLookup, captureOrder: string -> Payments.CaptureResponse,
                      now: int)
    returns (deepLink: PaymentIntegration.StartReply, started: bool)
    requires table.Valid() && db.Valid()
    modifies table, db
    ensures table.Valid() && db.Valid()
    ensures started <==> RunsStart(args)
    ensures started ==>
      deepLink == PaymentIntegration.NotDeepLink && table.records == old(table.records)
      && db.users == Database.Registered(old(db.users), u, username, firstName, lastName, now)
      && db.conversations == old(db.conversations) - {u}
      && db.usage == old(db.usage) && db.preferences == old(db.preferences)
    ensures !started ==> db.conversations == old(db.conversations) && db.preferences == old(db.preferences)
    ensures PaymentIntegration.ParseStartArgs(args).CancelArg? ==>
      deepLink == PaymentIntegration.StartCancelled && table.records == old(table.records)
      && db.users == old(db.users) && db.usage == old(db.usage)
  {
    var handled;
    deepLink, handled := PaymentIntegration.HandleDeepLinkStart(table, db, u, args, token, getOrder, captureOrder, now);
    started := false;
    if !PaymentIntegration.DeepLinkHandled(args) {
      var isNew, balance := Start(db, u, username, firstName, lastName, now);
      started := true;
    }
  }

  /** The `/start` handler as registered: the deep link is tried first and,
      its result being `None`, `start` follows every time, so even after a
      confirmed payment the user's conversation is gone. */
  method StartCommandAsWritten(table: Payments.PaymentTable, db: Database.Store, u: int, username: Option<string>,
                               firstName: Option<string>, lastName: Option<string>, args: seq<string>, token: bool,
                               getOrder: string -> Payments.OrderLookup, captureOrder: string -> Payments.CaptureResponse,
                               now: int)
    returns (deepLink: PaymentIntegration.StartReply, started: bool)
    requires table.Valid() && db.Valid()
    modifies table, db
    ensures table.Valid() && db.Valid()
    ensures started == RunsStartAsWritten(args)
    ensures u in db.users && u !in db.conversations
    ensures PaymentIntegration.ParseStartArgs(args).CancelArg? ==>
      deepLink == PaymentIntegration.StartCancelled && table.records == old(table.records)
      && db.users == Database.Registered(old(db.users), u, username, firstName, lastName, now)
      && db.conversations == old(db.conversations) - {u}
  {
    var handled;
    deepLink, handled := PaymentIntegration.HandleDeepLinkStart(table, db, u, args, token, getOrder, captureOrder, now);
    started := false;
    if !handled {
      var isNew, balance := Start(db, u, username, firstName, lastName, now);
      started := true;
    }
  }
}
