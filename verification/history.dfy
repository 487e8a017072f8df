/** The per-chat conversation history of the bot (progrev_bot.py:48-66): a
    process-wide table from chat id to the chat's turns, oldest first, of which
    only the most recent MAX_HISTORY are kept. */
module History {

  /** Who spoke a turn; on the wire "system", "user" and "assistant". */
  datatype Role = System | User | Assistant

  /** One role-tagged message of a conversation. */
  datatype Turn = Turn(role: Role, content: string)

  /** The cap on stored turns per chat. It counts single messages, not
      user/assistant pairs. */
  const MAX_HISTORY: nat := 20

  /** The slice `h[-MAX_HISTORY:]` that `add_to_history` stores once `h` is over
      the cap; a history within the cap is kept as it is. */
  function Trim(h: seq<Turn>): (r: seq<Turn>)
    ensures |r| <= MAX_HISTORY
    ensures |r| == if |h| <= MAX_HISTORY then |h| else MAX_HISTORY
  {
    if |h| > MAX_HISTORY then h[|h| - MAX_HISTORY..] else h
  }

  /** What Trim keeps is the most recent part of the history: the suffix of `h`
      of the trimmed length, so turns leave only from the front and the rest
      keep their order. */
  lemma TrimIsSuffix(h: seq<Turn>)
    ensures Trim(h) == h[|h| - |Trim(h)|..]
  {
    if |h| <= MAX_HISTORY {
      assert h[0..] == h;
    }
  }

  /** The history of `chat` in the table `m`, or the empty history that
      `setdefault` creates for a chat seen for the first time. */
  function Lookup(m: map<int, seq<Turn>>, chat: int): seq<Turn>
  {
    if chat in m then m[chat] else []
  }

  /** What one `add_to_history` leaves for a chat whose history was `h`. */
  function Appended(h: seq<Turn>, t: Turn): seq<Turn>
  {
    Trim(h + [t])
  }

  /** The history after appending the turns `ts` one at a time, `ts[0]` first. */
  function AppendAll(h: seq<Turn>, ts: seq<Turn>): seq<Turn>
    decreases |ts|
  {
    if ts == [] then h else AppendAll(Appended(h, ts[0]), ts[1..])
  }

  /** True when no stored turn is the system instruction. */
  predicate NoSystemTurns(h: seq<Turn>)
  {
    forall i :: 0 <= i < |h| ==> h[i].role != System
  }

  /** One append keeps at most MAX_HISTORY turns, ends with the new turn, and
      drops turns only from the front: the result is the most recent part of
      the old history followed by the new turn. */
  lemma AppendedWindow(h: seq<Turn>, t: Turn)
    ensures var r := Appended(h, t);
      && 0 < |r| <= MAX_HISTORY
      && r[|r| - 1] == t
      && r == (h + [t])[|h| + 1 - |r|..]
      && (|h| < MAX_HISTORY ==> r == h + [t])
      && (|h| >= MAX_HISTORY ==> r == h[|h| + 1 - MAX_HISTORY..] + [t])
  {
    var r := Appended(h, t);
    if |h| >= MAX_HISTORY {
      assert r == h[|h| + 1 - MAX_HISTORY..] + [t];
    }
  }

  /** Trimming early loses nothing that trimming later would keep. */
  lemma {:induction false} TrimOfTrim(x: seq<Turn>, y: seq<Turn>)
    ensures Trim(Trim(x) + y) == Trim(x + y)
  {
    if |x| > MAX_HISTORY {
      var z := x + y;
      var k := |x| - MAX_HISTORY;
      assert Trim(x) + y == z[k..];
      assert |z[k..]| - MAX_HISTORY == |y|;
      assert Trim(z[k..]) == z[k..][|y|..];
      assert z[k..][|y|..] == z[k + |y|..];
      assert k + |y| == |z| - MAX_HISTORY;
    }
  }

  /** Any sequence of appends to a history within the cap leaves exactly the
      last MAX_HISTORY turns of everything appended, in their original order;
      once at least MAX_HISTORY turns have been appended, none of the earlier
      turns is left. */
  lemma {:induction false} AppendAllKeepsMostRecent(h: seq<Turn>, ts: seq<Turn>)
    requires |h| <= MAX_HISTORY
    ensures AppendAll(h, ts) == Trim(h + ts)
    ensures |ts| >= MAX_HISTORY ==> AppendAll(h, ts) == ts[|ts| - MAX_HISTORY..]
    decreases |ts|
  {
    if ts == [] {
      assert h + ts == h;
    } else {
      var h' := Appended(h, ts[0]);
      AppendAllKeepsMostRecent(h', ts[1..]);
      TrimOfTrim(h + [ts[0]], ts[1..]);
      assert h + [ts[0]] + ts[1..] == h + ts;
    }
    if |ts| >= MAX_HISTORY {
      TrimOfLongTail(h, ts);
    }
  }

  /** When the appended part alone reaches the cap, nothing before it survives. */
  lemma TrimOfLongTail(h: seq<Turn>, ts: seq<Turn>)
    requires |ts| >= MAX_HISTORY
    ensures Trim(h + ts) == ts[|ts| - MAX_HISTORY..]
  {
    var z := h + ts;
    assert |z| - MAX_HISTORY == |h| + (|ts| - MAX_HISTORY);
    assert z[|z| - MAX_HISTORY..] == ts[|ts| - MAX_HISTORY..];
  }

  /** Every history in the table `m` is within the cap. */
  ghost predicate Bounded(m: map<int, seq<Turn>>)
  {
    forall chat :: chat in m ==> |m[chat]| <= MAX_HISTORY
  }

  /** Storing a history within the cap keeps the whole table within it. */
  lemma BoundedUpdate(m: map<int, seq<Turn>>, chat: int, h: seq<Turn>)
    requires Bounded(m)
    requires |h| <= MAX_HISTORY
    ensures Bounded(m[chat := h])
  {
  }

  /** The number of chats in the table, exported as `bot_history_entries`,
      grows by one when an operation adds a new chat's key and stays the same
      otherwise. */
  lemma {:induction false} EntryCount(before: map<int, seq<Turn>>, after: map<int, seq<Turn>>, chat: int)
    requires after.Keys == before.Keys + {chat}
    ensures |after| == |before| + (if chat in before then 0 else 1)
  {
    if chat in before {
      assert after.Keys == before.Keys;
    } else {
      assert after.Keys == before.Keys + {chat};
      assert |before.Keys + {chat}| == |before.Keys| + 1;
    }
    assert |after| == |after.Keys| && |before| == |before.Keys|;
  }

  /** The bot's history table. The source keeps it in the module-level dict
      `chat_histories` and mutates it in place. */
  class HistoryStore {
    /** chat id -> the chat's turns, oldest first */
    var histories: map<int, seq<Turn>>

    /** Every stored history is within the cap. */
    ghost predicate Valid()
      reads this
    {
      Bounded(histories)
    }

    /** The empty table the process starts with. */
    constructor ()
      ensures histories == map[]
      ensures Valid()
    {
      histories := map[];
    }

    /** `get_history`: the chat's history; a chat seen for the first time gets
        an empty entry. */
    method GetHistory(chat: int) returns (h: seq<Turn>)
      modifies this
      ensures h == Lookup(old(histories), chat)
      ensures histories == old(histories)[chat := h]
      ensures chat in old(histories) ==> histories == old(histories)
      ensures histories.Keys == old(histories.Keys) + {chat}
      ensures old(Valid()) ==> Valid()
    {
      if chat !in histories {
        if Bounded(histories) {
          BoundedUpdate(histories, chat, []);
        }
        histories := histories[chat := []];
      }
      h := histories[chat];
    }

    /** `add_to_history`: appends one turn, then keeps only the last
        MAX_HISTORY turns of the chat. No other chat changes. */
    method AddToHistory(chat: int, role: Role, content: string)
      modifies this
      ensures histories == old(histories)[chat := Appended(Lookup(old(histories), chat), Turn(role, content))]
      ensures histories.Keys == old(histories.Keys) + {chat}
      ensures old(Valid()) ==> Valid()
    {
      ghost var before := histories;
      var h := GetHistory(chat);
      var extended := h + [Turn(role, content)];
      if |extended| > MAX_HISTORY {
        extended := extended[|extended| - MAX_HISTORY..];
      }
      assert extended == Appended(Lookup(before, chat), Turn(role, content));
      histories := histories[chat := extended];
      assert histories == before[chat := extended];
      if Bounded(before) {
        BoundedUpdate(before, chat, extended);
      }
    }

    /** `clear_history`: the chat's history becomes empty, whether or not the
        chat was known. No other chat changes. */
    method ClearHistory(chat: int)
      modifies this
      ensures histories == old(histories)[chat := []]
      ensures histories.Keys == old(histories.Keys) + {chat}
      ensures old(Valid()) ==> Valid()
    {
      if Bounded(histories) {
        BoundedUpdate(histories, chat, []);
      }
      if chat in histories {
        histories := histories - {chat};
      }
      histories := histories[chat := []];
    }
  }

  /** Clearing a chat twice leaves the table as clearing it once does. */
  method ClearTwice(store: HistoryStore, chat: int)
    modifies store
    ensures store.histories == old(store.histories)[chat := []]
  {
    store.ClearHistory(chat);
    ghost var once := store.histories;
    store.ClearHistory(chat);
    assert store.histories == once;
  }

  /** A reset followed by a read gives the empty history, whatever was there. */
  method ClearThenGet(store: HistoryStore, chat: int) returns (h: seq<Turn>)
    modifies store
    ensures h == []
    ensures store.histories == old(store.histories)[chat := []]
  {
    store.ClearHistory(chat);
    h := store.GetHistory(chat);
  }
}
