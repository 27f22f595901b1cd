/** The backend's conversation store: a table from user id to that user's
    messages, in the order they were added, written back to a JSON file after
    every change. */
module Conversations {

  /** One entry of a user's history: `{role, content, timestamp}`. The
      timestamp is whatever the clock gave when the message was added. */
  datatype Message = Message(role: string, content: string, timestamp: string)

  type Table = map<string, seq<Message>>

  /** What `load_history` finds at the history file's path. */
  datatype HistoryFile = Missing | Unreadable | Parsed(table: Table)

  /** A user's history as `conversations.get(user, [])` reads it. */
  function HistoryOf(t: Table, user: string): seq<Message> {
    if user in t then t[user] else []
  }

  /** The table after `add_message(user, ...)` appended `m`. */
  function Added(t: Table, user: string, m: Message): (r: Table)
    ensures r.Keys == t.Keys + {user}
    ensures |HistoryOf(r, user)| == |HistoryOf(t, user)| + 1
    ensures HistoryOf(r, user)[..|HistoryOf(t, user)|] == HistoryOf(t, user)
    ensures HistoryOf(r, user)[|HistoryOf(t, user)|] == m
    ensures forall u :: u != user ==> HistoryOf(r, u) == HistoryOf(t, u)
  {
    t[user := HistoryOf(t, user) + [m]]
  }

  /** The table after `clear_conversation(user)`. */
  function Cleared(t: Table, user: string): (r: Table)
    ensures r.Keys == t.Keys - {user}
    ensures HistoryOf(r, user) == []
    ensures forall u :: u != user ==> HistoryOf(r, u) == HistoryOf(t, u)
    ensures user !in t ==> r == t
  {
    t - {user}
  }

  /** The table `load_history` leaves, starting from `t`: an absent file
      changes nothing, a file that cannot be opened or parsed empties it. */
  function Loaded(t: Table, file: HistoryFile): (r: Table)
    ensures file == Missing ==> r == t
    ensures file == Unreadable ==> r == map[]
    ensures file.Parsed? ==> r == file.table
  {
    match file
    case Missing => t
    case Unreadable => map[]
    case Parsed(table) => table
  }

  /** A call that changes the store, for stating what a sequence of calls does. */
  datatype Call = Add(user: string, message: Message) | Clear(user: string)

  function Apply(t: Table, call: Call): Table {
    match call
    case Add(u, m) => Added(t, u, m)
    case Clear(u) => Cleared(t, u)
  }

  /** The table after `calls`, made in order, starting from `t`. */
  function Replay(t: Table, calls: seq<Call>): Table
    decreases |calls|
  {
    if calls == [] then t else Replay(Apply(t, calls[0]), calls[1..])
  }

  /** The history `user` should see after `calls`, starting from `start`: the
      messages added for that user since their history was last cleared, in
      the order of the calls. */
  function Expected(start: seq<Message>, calls: seq<Call>, user: string): seq<Message>
    decreases |calls|
  {
    if calls == [] then start
    else
      var before := Expected(start, calls[..|calls| - 1], user);
      match calls[|calls| - 1]
      case Add(u, m) => if u == user then before + [m] else before
      case Clear(u) => if u == user then [] else before
  }

  lemma {:induction false} ReplayLast(t: Table, calls: seq<Call>, last: Call)
    ensures Replay(t, calls + [last]) == Apply(Replay(t, calls), last)
    decreases |calls|
  {
    if calls != [] {
      assert (calls + [last])[1..] == calls[1..] + [last];
      ReplayLast(Apply(t, calls[0]), calls[1..], last);
    }
  }

  /** A user's history lists exactly the messages added for them since their
      last clear, in the order of the `add_message` calls; other users' calls
      never touch it. */
  lemma {:induction false} HistoryFollowsCalls(t: Table, calls: seq<Call>, user: string)
    ensures HistoryOf(Replay(t, calls), user) == Expected(HistoryOf(t, user), calls, user)
    decreases |calls|
  {
    if calls != [] {
      var init, last := calls[..|calls| - 1], calls[|calls| - 1];
      assert calls == init + [last];
      ReplayLast(t, init, last);
      HistoryFollowsCalls(t, init, user);
    }
  }

  /** Starting from an empty store and only adding, a user's history is the
      subsequence of the added messages addressed to that user. */
  lemma {:induction false} AddsOnlyFromEmpty(calls: seq<Call>, user: string)
    requires forall i :: 0 <= i < |calls| ==> calls[i].Add?
    ensures HistoryOf(Replay(map[], calls), user) == MessagesFor(calls, user)
    decreases |calls|
  {
    HistoryFollowsCalls(map[], calls, user);
    ExpectedOfAdds(calls, user);
  }

  /** The messages of the `Add` calls addressed to `user`, in order. */
  function MessagesFor(calls: seq<Call>, user: string): seq<Message>
    decreases |calls|
  {
    if calls == [] then []
    else
      var before := MessagesFor(calls[..|calls| - 1], user);
      var last := calls[|calls| - 1];
      if last.Add? && last.user == user then before + [last.message] else before
  }

  lemma {:induction false} ExpectedOfAdds(calls: seq<Call>, user: string)
    requires forall i :: 0 <= i < |calls| ==> calls[i].Add?
    ensures Expected([], calls, user) == MessagesFor(calls, user)
    decreases |calls|
  {
    if calls != [] {
      ExpectedOfAdds(calls[..|calls| - 1], user);
    }
  }

  /** `ConversationManager`: the in-memory table and the snapshots written to
      the history file. */
  class ConversationManager {
    var conversations: Table
    /** The tables `save_history` wrote, oldest first (a failed write is
        caught and logged, so every attempt appears here). */
    ghost var saves: seq<Table>

    /** `__init__`: start empty, then `load_history`. */
    constructor (file: HistoryFile)
      ensures conversations == Loaded(map[], file)
      ensures saves == []
    {
      conversations := map[];
      saves := [];
      new;
      LoadHistory(file);
    }

    method LoadHistory(file: HistoryFile)
      modifies this`conversations
      ensures conversations == Loaded(old(conversations), file)
    {
      match file {
        case Missing =>
        case Unreadable =>
          conversations := map[];
        case Parsed(table) =>
          conversations := table;
      }
    }

    method SaveHistory()
      modifies this`saves
      ensures saves == old(saves) + [conversations]
    {
      saves := saves + [conversations];
    }

    method AddMessage(user: string, role: string, content: string, timestamp: string)
      modifies this
      ensures conversations == Added(old(conversations), user, Message(role, content, timestamp))
      ensures saves == old(saves) + [conversations]
    {
      if user !in conversations {
        conversations := conversations[user := []];
      }
      var message := Message(role, content, timestamp);
      conversations := conversations[user := conversations[user] + [message]];
      SaveHistory();
    }

    /** Reads only: a user without an entry gets `[]` and no entry is created. */
    method GetConversationHistory(user: string) returns (history: seq<Message>)
      ensures user !in conversations ==> history == []
      ensures user in conversations ==> history == conversations[user]
    {
      history := if user in conversations then conversations[user] else [];
    }

    method ClearConversation(user: string)
      modifies this
      ensures conversations == Cleared(old(conversations), user)
      ensures saves == if user in old(conversations) then old(saves) + [conversations] else old(saves)
    {
      if user in conversations {
        conversations := conversations - {user};
        SaveHistory();
      }
    }
  }
}
