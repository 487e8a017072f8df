/** The message relay (progrev_bot.py:119-184): one user message goes into the
    chat's history, the history goes to the completion API behind a system
    instruction, the reply goes into the history and back to the chat. */
module Relay {
  import opened Optional
  import opened History
  import opened Chunking

  /** What the completion call gave: the text of the first choice, or a
      failure of any kind (network, authentication, API), which the source
      catches. */
  datatype Completion = Ok(reply: string) | Fail

  /** The bot's fixed texts, set once for the process: the system instruction
      put before every request (SYSTEM_PROMPT), the reply sent when the
      completion call fails, and the answers to `/reset` and `/start`. Their
      wording is opaque; the relay is verified for any fixed texts. */
  datatype Texts = Texts(systemPrompt: string, fallback: string, resetAck: string, welcome: string)

  /** The text `ask_groq` returns for a completion outcome. */
  function ReplyText(texts: Texts, c: Completion): string
  {
    match c
    case Ok(reply) => reply
    case Fail => texts.fallback
  }

  /** The turns `ask_groq` adds to a chat for one user message: the user turn,
      and the assistant turn only when the call succeeded. */
  function NewTurns(userMessage: string, c: Completion): seq<Turn>
  {
    match c
    case Ok(reply) => [Turn(User, userMessage), Turn(Assistant, reply)]
    case Fail => [Turn(User, userMessage)]
  }

  /** The chat's history after one `ask_groq`, from its history `h` before. */
  function AfterExchange(h: seq<Turn>, userMessage: string, c: Completion): seq<Turn>
  {
    var withUser := Appended(h, Turn(User, userMessage));
    match c
    case Ok(reply) => Appended(withUser, Turn(Assistant, reply))
    case Fail => withUser
  }

  /** One exchange on a history within the cap keeps the most recent
      MAX_HISTORY turns of the old history followed by the new turns. It ends
      with the user turn on failure and with the user turn then the assistant
      turn on success, and it never stores the system instruction. */
  lemma ExchangeSpec(h: seq<Turn>, userMessage: string, c: Completion)
    requires |h| <= MAX_HISTORY
    ensures AfterExchange(h, userMessage, c) == Trim(h + NewTurns(userMessage, c))
    ensures var r := AfterExchange(h, userMessage, c);
      && 0 < |r| <= MAX_HISTORY
      && (c.Fail? ==> r[|r| - 1] == Turn(User, userMessage))
      && (c.Ok? ==> |r| >= 2 && r[|r| - 2] == Turn(User, userMessage)
                    && r[|r| - 1] == Turn(Assistant, c.reply))
      && (NoSystemTurns(h) ==> NoSystemTurns(r))
  {
    var ts := NewTurns(userMessage, c);
    AppendAllKeepsMostRecent(h, ts);
    assert AppendAll(h, ts) == AfterExchange(h, userMessage, c) by {
      var withUser := Appended(h, ts[0]);
      if c.Ok? {
        assert ts[1..][1..] == [];
        assert AppendAll(withUser, ts[1..]) == AppendAll(Appended(withUser, ts[1]), []);
      } else {
        assert ts[1..] == [];
      }
    }
    var r := AfterExchange(h, userMessage, c);
    var z := h + ts;
    assert r == z[|z| - |r|..];
    if c.Ok? {
      assert |r| >= 2;
      assert r[|r| - 2] == z[|z| - 2];
    }
    if NoSystemTurns(h) {
      forall i | 0 <= i < |r| ensures r[i].role != System {
        assert r[i] == z[|z| - |r| + i];
      }
    }
  }

  /** The message list handed to the completion API: the system instruction
      followed by the chat's stored turns. */
  function Request(systemPrompt: string, h: seq<Turn>): seq<Turn>
  {
    [Turn(System, systemPrompt)] + h
  }

  /** The request built after the user turn is appended starts with the
      system instruction, holds it nowhere else when the history does not,
      ends with the user turn, and has at most MAX_HISTORY + 1 entries. */
  lemma RequestSpec(systemPrompt: string, h: seq<Turn>, userMessage: string)
    ensures var r := Request(systemPrompt, Appended(h, Turn(User, userMessage)));
      && 2 <= |r| <= MAX_HISTORY + 1
      && r[0] == Turn(System, systemPrompt)
      && r[|r| - 1] == Turn(User, userMessage)
      && (NoSystemTurns(h) ==> NoSystemTurns(r[1..]))
  {
    var stored := Appended(h, Turn(User, userMessage));
    AppendedWindow(h, Turn(User, userMessage));
    var z := h + [Turn(User, userMessage)];
    var r := Request(systemPrompt, stored);
    assert r[1..] == stored;
    if NoSystemTurns(h) {
      forall i | 0 <= i < |stored| ensures stored[i].role != System {
        assert stored[i] == z[|z| - |stored| + i];
      }
    }
  }

  /** `ask_groq`: appends the user turn (trimming to the cap), sends the system
      instruction followed by the chat's history, and on success appends the
      assistant turn and returns the reply; on failure it returns the fallback text and
      the history ends with the user turn. Returns the reply and the message
      list handed to the completion API. */
  method AskGroq(store: HistoryStore, chat: int, userMessage: string, texts: Texts, outcome: Completion)
    returns (reply: string, request: seq<Turn>)
    modifies store
    ensures outcome.Ok? ==> reply == outcome.reply
    ensures outcome.Fail? ==> reply == texts.fallback
    ensures request == Request(texts.systemPrompt, Appended(Lookup(old(store.histories), chat), Turn(User, userMessage)))
    ensures store.histories == old(store.histories)[chat := AfterExchange(Lookup(old(store.histories), chat), userMessage, outcome)]
    ensures old(store.Valid()) ==> store.Valid()
  {
    ghost var before := store.histories;
    ghost var withUser := Appended(Lookup(before, chat), Turn(User, userMessage));
    store.AddToHistory(chat, User, userMessage);
    var h := store.GetHistory(chat);
    assert h == withUser;
    request := [Turn(System, texts.systemPrompt)] + h;
    match outcome {
      case Ok(r) =>
        store.AddToHistory(chat, Assistant, r);
        assert store.histories == before[chat := withUser][chat := Appended(withUser, Turn(Assistant, r))];
        reply := r;
      case Fail =>
        reply := texts.fallback;
    }
  }

  /** `handle_message`: a message without text, or with empty text, changes no
      history and sends nothing; any other text (whitespace included) goes
      through `ask_groq` and the reply is sent in chunks. */
  method HandleMessage(store: HistoryStore, chat: int, text: Option<string>, texts: Texts, outcome: Completion)
    returns (sent: seq<string>)
    modifies store
    ensures Ignored(text) ==> store.histories == old(store.histories) && sent == []
    ensures !Ignored(text) ==>
      && store.histories == old(store.histories)[chat := AfterExchange(Lookup(old(store.histories), chat), text.value, outcome)]
      && sent == Chunks(ReplyText(texts, outcome))
      && Concat(sent) == ReplyText(texts, outcome)
    ensures old(store.Valid()) ==> store.Valid()
  {
    if Ignored(text) {
      return [];
    }
    var reply, _ := AskGroq(store, chat, text.value, texts, outcome);
    sent := SendReply(reply);
    ChunksSpec(reply);
  }

  /** The updates the dispatcher routes: the `/start` and `/reset` commands and
      any other message, whose text may be absent. */
  datatype Update =
    | StartCommand(chat: int)
    | ResetCommand(chat: int)
    | Message(chat: int, text: Option<string>)

  /** True when `handle_message` ignores the message: `if not user_text`
      holds for absent text and for the empty string only. */
  predicate Ignored(text: Option<string>)
  {
    text.None? || text == Some("")
  }

  /** The history table after the dispatcher has handled `update`. */
  function Handled(m: map<int, seq<Turn>>, update: Update, outcome: Completion): map<int, seq<Turn>>
  {
    match update
    case StartCommand(chat) => m[chat := []]
    case ResetCommand(chat) => m[chat := []]
    case Message(chat, text) =>
      if Ignored(text) then m else m[chat := AfterExchange(Lookup(m, chat), text.value, outcome)]
  }

  /** The messages the bot sends back for `update`, in order. */
  function Replies(texts: Texts, update: Update, outcome: Completion): seq<string>
  {
    match update
    case StartCommand(_) => [texts.welcome]
    case ResetCommand(_) => [texts.resetAck]
    case Message(_, text) => if Ignored(text) then [] else Chunks(ReplyText(texts, outcome))
  }

  /** Handling one update touches only the update's own chat and adds at most
      that chat to the table. */
  lemma HandledFrame(m: map<int, seq<Turn>>, update: Update, outcome: Completion)
    ensures Handled(m, update, outcome).Keys <= m.Keys + {update.chat}
    ensures forall chat :: chat in m && chat != update.chat ==>
      chat in Handled(m, update, outcome) && Handled(m, update, outcome)[chat] == m[chat]
    ensures update.Message? && Ignored(update.text) ==> Handled(m, update, outcome) == m
    ensures !update.Message? ==> Handled(m, update, outcome)[update.chat] == []
  {
    var m' := Handled(m, update, outcome);
    match update {
      case StartCommand(c) =>
        assert m' == m[c := []];
      case ResetCommand(c) =>
        assert m' == m[c := []];
      case Message(c, text) =>
        if !Ignored(text) {
          assert m' == m[c := AfterExchange(Lookup(m, c), text.value, outcome)];
        }
    }
  }

  /** Handling an update keeps every history within the cap and never stores
      the system instruction. */
  lemma HandledKeepsInvariant(m: map<int, seq<Turn>>, update: Update, outcome: Completion)
    requires forall chat :: chat in m ==> |m[chat]| <= MAX_HISTORY && NoSystemTurns(m[chat])
    ensures var m' := Handled(m, update, outcome);
      forall chat :: chat in m' ==> |m'[chat]| <= MAX_HISTORY && NoSystemTurns(m'[chat])
  {
    var m' := Handled(m, update, outcome);
    forall chat | chat in m' ensures |m'[chat]| <= MAX_HISTORY && NoSystemTurns(m'[chat]) {
      if chat != update.chat {
        assert m'[chat] == m[chat];
      } else if update.Message? && !Ignored(update.text) {
        var h := Lookup(m, chat);
        ExchangeSpec(h, update.text.value, outcome);
        assert m'[chat] == AfterExchange(h, update.text.value, outcome);
      } else if update.Message? {
        assert m'[chat] == m[chat];
      } else {
        assert m'[chat] == [];
      }
    }
  }

  /** An ignored message is not answered; every other update gets at least
      one message back. */
  lemma RepliesSpec(texts: Texts, update: Update, outcome: Completion)
    ensures update.Message? && Ignored(update.text) <==> Replies(texts, update, outcome) == []
  {
    if update.Message? && !Ignored(update.text) {
      ChunksSpec(ReplyText(texts, outcome));
    }
  }

  /** The dispatcher with its three handlers (`cmd_start`, `cmd_reset`,
      `handle_message`): both commands clear the chat's history and send their
      fixed text; any other message is relayed. */
  method Dispatch(store: HistoryStore, update: Update, texts: Texts, outcome: Completion)
    returns (sent: seq<string>)
    modifies store
    ensures store.histories == Handled(old(store.histories), update, outcome)
    ensures sent == Replies(texts, update, outcome)
    ensures old(store.Valid()) ==> store.Valid()
  {
    match update {
      case StartCommand(chat) =>
        store.ClearHistory(chat);
        sent := [texts.welcome];
      case ResetCommand(chat) =>
        store.ClearHistory(chat);
        sent := [texts.resetAck];
      case Message(chat, text) =>
        sent := HandleMessage(store, chat, text, texts, outcome);
    }
  }

  /** A first message to a fresh chat: the completion API sees the system
      instruction and the user turn, and afterwards the chat holds the user
      turn followed by the assistant's reply. */
  method FirstExchange(chat: int, text: string, texts: Texts, reply: string)
    returns (request: seq<Turn>, after: seq<Turn>)
    ensures request == [Turn(System, texts.systemPrompt), Turn(User, text)]
    ensures after == [Turn(User, text), Turn(Assistant, reply)]
  {
    var store := new HistoryStore();
    var answer;
    answer, request := AskGroq(store, chat, text, texts, Ok(reply));
    after := store.GetHistory(chat);
  }
}
