/** The bot's SQLite database (users, usage_history, conversation_context and
    user_preferences), held in memory as maps and an append-only log. Every
    operation of database.py is a method of `Store` that says exactly what
    each table looks like afterwards; the table transitions themselves are
    pure functions, so that other modules can state their effects. */
module Database {
  import opened Wrappers

  /** Credits a newly registered user starts with, and what an unknown user reads as. */
  const DEFAULT_CREDITS: int := 5

  /** A row of `users`. Name fields are `None` where the chat transport gave none. */
  datatype Account = Account(
    username: Option<string>,
    firstName: Option<string>,
    lastName: Option<string>,
    credits: int,
    isAdmin: bool,
    registeredAt: int)

  /** A row of `usage_history`. */
  datatype UsageRow = UsageRow(
    userId: int,
    messageText: string,
    tokensUsed: int,
    creditsUsed: int,
    timestamp: int)

  datatype Role = SystemRole | UserRole | AssistantRole

  /** One `{"role": ..., "content": ...}` entry of a chat transcript. */
  datatype Message = Message(role: Role, content: string)

  /** A row of `conversation_context`: the stored transcript and when it was last written. */
  datatype Context = Context(messages: seq<Message>, lastInteraction: int)

  function Abs(x: int): (r: nat)
    ensures r == x || r == -x
  {
    if x < 0 then -x else x
  }

  /** Every balance in the users table is non-negative. */
  ghost predicate NonNegativeBalances(users: map<int, Account>)
  {
    forall u :: u in users ==> users[u].credits >= 0
  }

  // ---------------------------------------------------------------------------
  // Table transitions
  // ---------------------------------------------------------------------------

  /** The users table after `register_user`: an unknown user is inserted with
      five credits and no admin flag; a known user gets the three name fields
      replaced and keeps balance, admin flag and registration date. */
  function Registered(users: map<int, Account>, u: int, username: Option<string>,
                      firstName: Option<string>, lastName: Option<string>, now: int): (r: map<int, Account>)
    ensures r.Keys == users.Keys + {u}
    ensures forall v :: v in users && v != u ==> r[v] == users[v]
    ensures u !in users ==> r[u].credits == DEFAULT_CREDITS && !r[u].isAdmin && r[u].registeredAt == now
    ensures u in users ==> r[u].credits == users[u].credits && r[u].isAdmin == users[u].isAdmin
                           && r[u].registeredAt == users[u].registeredAt
    ensures r[u].username == username && r[u].firstName == firstName && r[u].lastName == lastName
    ensures NonNegativeBalances(users) ==> NonNegativeBalances(r)
  {
    if u in users then
      users[u := users[u].(username := username, firstName := firstName, lastName := lastName)]
    else
      users[u := Account(username, firstName, lastName, DEFAULT_CREDITS, false, now)]
  }

  /** The users table after `update_user_credits(u, delta)`: an existing
      balance becomes `max(0, balance + delta)`; an unknown user is not added. */
  function Credited(users: map<int, Account>, u: int, delta: int): (r: map<int, Account>)
    ensures r.Keys == users.Keys
    ensures forall v :: v in users && v != u ==> r[v] == users[v]
    ensures u in users ==> r[u] == users[u].(credits := r[u].credits)
    ensures u in users ==> r[u].credits >= 0 && r[u].credits >= users[u].credits + delta
                           && (r[u].credits == 0 || r[u].credits == users[u].credits + delta)
    ensures NonNegativeBalances(users) ==> NonNegativeBalances(r)
  {
    if u in users then
      var b := users[u].credits + delta;
      users[u := users[u].(credits := if b < 0 then 0 else b)]
    else users
  }

  /** The row `update_user_credits` logs: no tokens, `|delta|` credits. */
  function CreditRow(u: int, delta: int, description: string, now: int): (row: UsageRow)
    ensures row.userId == u && row.tokensUsed == 0 && row.creditsUsed >= 0
    ensures row.creditsUsed == delta || row.creditsUsed == -delta
  {
    UsageRow(u, description, 0, Abs(delta), now)
  }

  /** The users table after `set_admin_status`: the flag of a known user is
      replaced; an unknown user is inserted with five credits and no names. */
  function AdminSet(users: map<int, Account>, u: int, flag: bool, now: int): (r: map<int, Account>)
    ensures r.Keys == users.Keys + {u}
    ensures forall v :: v in users && v != u ==> r[v] == users[v]
    ensures r[u].isAdmin == flag
    ensures u in users ==> r[u] == users[u].(isAdmin := flag)
    ensures u !in users ==> r[u] == Account(None, None, None, DEFAULT_CREDITS, flag, now)
    ensures NonNegativeBalances(users) ==> NonNegativeBalances(r)
  {
    if u in users then users[u := users[u].(isAdmin := flag)]
    else users[u := Account(None, None, None, DEFAULT_CREDITS, flag, now)]
  }

  /** The transcript stored for `u`, or the empty list when there is none. */
  function History(conversations: map<int, Context>, u: int): seq<Message>
  {
    if u in conversations then conversations[u].messages else []
  }

  /** The users whose conversation was last written strictly before `cutoff`. */
  function Expired(conversations: map<int, Context>, cutoff: int): (gone: set<int>)
    ensures forall u :: u in gone <==> u in conversations && conversations[u].lastInteraction < cutoff
  {
    set u | u in conversations && conversations[u].lastInteraction < cutoff
  }

  /** The conversations that a sweep with `cutoff` leaves in place. */
  function Surviving(conversations: map<int, Context>, cutoff: int): (kept: map<int, Context>)
    ensures forall u :: u in kept <==> u in conversations && conversations[u].lastInteraction >= cutoff
    ensures forall u :: u in kept ==> kept[u] == conversations[u]
  {
    map u | u in conversations && conversations[u].lastInteraction >= cutoff :: conversations[u]
  }

  /** A sweep splits the stored conversations in two: those it reports and
      deletes, and those it keeps untouched. */
  lemma SweepPartitions(conversations: map<int, Context>, cutoff: int)
    ensures Expired(conversations, cutoff) + Surviving(conversations, cutoff).Keys == conversations.Keys
    ensures Expired(conversations, cutoff) !! Surviving(conversations, cutoff).Keys
    ensures forall u :: u in Surviving(conversations, cutoff) ==>
              Surviving(conversations, cutoff)[u] == conversations[u]
  {
  }

  /** Sweeping again with the same cutoff finds nothing more to delete. */
  lemma SweepIdempotent(conversations: map<int, Context>, cutoff: int)
    ensures Expired(Surviving(conversations, cutoff), cutoff) == {}
    ensures Surviving(Surviving(conversations, cutoff), cutoff) == Surviving(conversations, cutoff)
  {
  }

  /** A later cutoff never expires fewer conversations. */
  lemma SweepMonotone(conversations: map<int, Context>, early: int, late: int)
    requires early <= late
    ensures Expired(conversations, early) <= Expired(conversations, late)
  {
  }

  /** A conversation written at `now` survives every sweep whose timeout is not
      negative, since the comparison with the cutoff is strict. */
  lemma FreshContextSurvives(conversations: map<int, Context>, u: int, messages: seq<Message>,
                             now: int, timeoutMinutes: int)
    requires timeoutMinutes >= 0
    ensures var c := conversations[u := Context(messages, now)];
      u !in Expired(c, now - timeoutMinutes * 60) && u in Surviving(c, now - timeoutMinutes * 60)
  {
  }

  // ---------------------------------------------------------------------------
  // The database
  // ---------------------------------------------------------------------------

  class Store {
    var users: map<int, Account>
    var usage: seq<UsageRow>
    var conversations: map<int, Context>
    /** `user_preferences`, keyed by (user, preference key). */
    var preferences: map<(int, string), string>

    ghost predicate Valid()
      reads this
    {
      NonNegativeBalances(users)
    }

    /** An empty database (`init_database` on a fresh file). */
    constructor ()
      ensures Valid()
      ensures users == map[] && usage == [] && conversations == map[] && preferences == map[]
    {
      users, usage, conversations, preferences := map[], [], map[], map[];
    }

    /** `register_user`: insert an unknown user with five credits, or refresh a
        known user's names only. */
    method RegisterUser(u: int, username: Option<string>, firstName: Option<string>,
                        lastName: Option<string>, now: int)
      requires Valid()
      modifies this
      ensures Valid()
      ensures users == Registered(old(users), u, username, firstName, lastName, now)
      ensures usage == old(usage) && conversations == old(conversations) && preferences == old(preferences)
    {
      users := Registered(users, u, username, firstName, lastName, now);
    }

    /** `get_user_credits`: the stored balance, or five for a user with no row. */
    function GetUserCredits(u: int): (c: int)
      reads this
      ensures u in users ==> c == users[u].credits
      ensures u !in users ==> c == DEFAULT_CREDITS
      ensures Valid() ==> c >= 0
    {
      if u in users then users[u].credits else DEFAULT_CREDITS
    }

    /** `update_user_credits`: clamp the new balance at zero (an unknown user's
        balance is not created) and always log one row. */
    method UpdateUserCredits(u: int, delta: int, description: string, now: int)
      requires Valid()
      modifies this
      ensures Valid()
      ensures users == Credited(old(users), u, delta)
      ensures usage == old(usage) + [CreditRow(u, delta, description, now)]
      ensures conversations == old(conversations) && preferences == old(preferences)
    {
      users := Credited(users, u, delta);
      usage := usage + [CreditRow(u, delta, description, now)];
    }

    /** `record_usage`: append exactly one row with the given fields. */
    method RecordUsage(u: int, messageText: string, tokensUsed: int, creditsUsed: int, now: int)
      requires Valid()
      modifies this
      ensures Valid()
      ensures usage == old(usage) + [UsageRow(u, messageText, tokensUsed, creditsUsed, now)]
      ensures users == old(users) && conversations == old(conversations) && preferences == old(preferences)
    {
      usage := usage + [UsageRow(u, messageText, tokensUsed, creditsUsed, now)];
    }

    /** `set_admin_status`. */
    method SetAdminStatus(u: int, flag: bool, now: int)
      requires Valid()
      modifies this
      ensures Valid()
      ensures users == AdminSet(old(users), u, flag, now)
      ensures usage == old(usage) && conversations == old(conversations) && preferences == old(preferences)
    {
      users := AdminSet(users, u, flag, now);
    }

    /** `is_admin`: true exactly for a known user whose flag is set. */
    function IsAdmin(u: int): (b: bool)
      reads this
      ensures b <==> u in users && users[u].isAdmin
    {
      u in users && users[u].isAdmin
    }

    /** `save_conversation_context`: an upsert that also refreshes the timestamp. */
    method SaveConversationContext(u: int, messages: seq<Message>, now: int)
      requires Valid()
      modifies this
      ensures Valid()
      ensures conversations == old(conversations)[u := Context(messages, now)]
      ensures GetConversationContext(u) == messages
      ensures users == old(users) && usage == old(usage) && preferences == old(preferences)
    {
      conversations := conversations[u := Context(messages, now)];
    }

    /** `get_conversation_context`: the stored transcript, or the empty list. */
    function GetConversationContext(u: int): (messages: seq<Message>)
      reads this
      ensures u in conversations ==> messages == conversations[u].messages
      ensures u !in conversations ==> messages == []
    {
      History(conversations, u)
    }

    /** `clear_conversation_context`: delete this user's transcript, if any. */
    method ClearConversationContext(u: int)
      requires Valid()
      modifies this
      ensures Valid()
      ensures conversations == old(conversations) - {u}
      ensures GetConversationContext(u) == []
      ensures users == old(users) && usage == old(usage) && preferences == old(preferences)
    {
      conversations := conversations - {u};
    }

    /** `clear_inactive_conversations`: one cutoff, `now - timeout`, decides
        both which users are reported and which transcripts are deleted. */
    method ClearInactiveConversations(timeoutMinutes: int, now: int) returns (cleared: set<int>)
      requires Valid()
      modifies this
      ensures Valid()
      ensures cleared == Expired(old(conversations), now - timeoutMinutes * 60)
      ensures conversations == Surviving(old(conversations), now - timeoutMinutes * 60)
      ensures users == old(users) && usage == old(usage) && preferences == old(preferences)
    {
      var cutoff := now - timeoutMinutes * 60;
      cleared := set u | u in conversations && conversations[u].lastInteraction < cutoff;
      conversations := map u | u in conversations && conversations[u].lastInteraction >= cutoff
                              :: conversations[u];
    }
  }

  /** Clearing a conversation twice is the same as clearing it once, and
      leaves every other user's transcript as it was. */
  lemma ClearIdempotent(conversations: map<int, Context>, u: int)
    ensures (conversations - {u}) - {u} == conversations - {u}
    ensures forall v :: v in conversations && v != u ==>
              v in conversations - {u} && (conversations - {u})[v] == conversations[v]
  {
  }

  /** Crediting twice with non-negative amounts is crediting once with the sum:
      nothing in the ledger itself keeps a payment from being applied twice. */
  lemma CreditedTwice(users: map<int, Account>, u: int, a: int, b: int)
    requires NonNegativeBalances(users) && a >= 0 && b >= 0
    ensures Credited(Credited(users, u, a), u, b) == Credited(users, u, a + b)
  {
  }
}
