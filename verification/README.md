# Podogrev bot — a Dafny model of its conversation relay

The bot (`progrev_bot.py`) relays Telegram messages to a hosted chat-completion
API (Groq) and sends the model's answer back. This project models the part of it
that has behaviour of its own:

- **History store** (`history.dfy`): the table from chat id to that chat's
  turns. It is a class whose `histories: map<int, seq<Turn>>` field is updated
  in place, as the module-level dict is. `get_history` creates an empty entry on
  first touch. `add_to_history` appends a turn and keeps only the last
  `MAX_HISTORY = 20` messages. The cap counts messages, not pairs.
  `clear_history` resets a chat to empty.
- **Reply chunking** (`chunking.dfy`): a reply of up to 4096 characters goes out
  as one message. A longer reply goes out as the slices of the
  `range(0, len(reply), 4096)` loop. The loop is a method proved against a
  specification function, and lemmas prove the properties of that function.
- **Relay** (`relay.dfy`): `ask_groq`, `handle_message` and the `/start` and
  `/reset` handlers. The completion call is a `Completion` parameter
  (`Ok(reply)` or `Fail`). Outbound Telegram messages are returned as a
  `seq<string>` in send order.
- **Shutdown gate** (`lifecycle.dfy`): the single-shot `is_shutting_down` flag,
  the `/health` answer, and the `/webhook` guard and dispatch.
- **Transport selection** (`transport.dfy`): push mode with
  `WEBHOOK_URL.rstrip('/') + "/webhook"` when `WEBHOOK_URL` is set and
  non-empty, pull mode otherwise.

Calls are modelled as one sequential trace. The bot's fixed texts are one `Texts` value
fixed for the process: the system prompt, the fallback reply, the `/reset`
acknowledgement and the `/start` greeting. Their wording is opaque.

Where the code's behaviour is easy to misread, the model follows the code:

- Whitespace-only text is relayed. The test at `progrev_bot.py:169` is
  `if not user_text`, so only absent or empty text is dropped.
- The polling task (`progrev_bot.py:303-311`) logs an error and ends; it does
  not retry.
- Push mode registers the webhook with `drop_pending_updates=True`
  (`progrev_bot.py:279-283`), which discards updates still waiting to be
  polled. Pull mode (`progrev_bot.py:285-288`) never calls `delete_webhook`, so
  a webhook registered by an earlier run stays in place; the webhook is deleted
  only at shutdown.
- `@app.middleware` at `progrev_bot.py:200` refers to `app` before line 314
  defines it, so importing the module as written fails with a `NameError`, and
  none of the handlers, `/health` or `/webhook` come into being. The model
  describes the code as it would behave with `app` defined before line 200.

The example value in the comment at `progrev_bot.py:33` already ends in
`/webhook`. Because the code appends `/webhook` again, that value would register
`.../webhook/webhook`. `Transport.WebhookUrl` models the code as written.

## Model

| member | source | states |
|---|---|---|
| History.Trim | progrev_bot.py:59-61 | the stored history is at most 20 turns: its full length when within the cap, otherwise exactly 20 |
| History.TrimIsSuffix | progrev_bot.py:59-61 | what is stored is the suffix of the history of that length: turns leave only from the front and the rest keep their order |
| History.AppendedWindow | progrev_bot.py:56-61 | one append leaves 1 to 20 turns ending in the new turn; the result is `(old + [new])[max(0, \|old\|+1-20):]`, so the oldest turns are evicted first and the rest keep their order |
| History.TrimOfTrim | progrev_bot.py:59-61 | trimming after every append loses nothing that trimming once at the end would keep |
| History.AppendAllKeepsMostRecent | progrev_bot.py:56-61 | any sequence of appends to a history within the cap leaves exactly the last 20 turns of old history plus appended turns, in order; after 20 or more appends none of the earlier turns is left (the 25-message scenario) |
| History.TrimOfLongTail | progrev_bot.py:59-61 | when at least 20 turns are appended at once, only the last 20 of them survive |
| History.BoundedUpdate | progrev_bot.py:56-61 | storing a history within the cap keeps every chat in the table within the cap |
| History.EntryCount | progrev_bot.py:241 | the number of chats (`bot_history_entries`) grows by one when an operation adds a new chat's key and stays the same otherwise |
| History.HistoryStore.constructor | progrev_bot.py:50 | the table starts empty |
| History.HistoryStore.GetHistory | progrev_bot.py:53-54 | returns the stored history, or adds the chat mapped to `[]`; no other entry changes; the key set gains at most this chat; the cap invariant is kept |
| History.HistoryStore.AddToHistory | progrev_bot.py:56-61 | the chat's history becomes the last 20 turns of old history plus the new turn (see AppendedWindow); other chats are unchanged; the key set gains at most this chat; every history stays within the cap |
| History.HistoryStore.ClearHistory | progrev_bot.py:63-66 | the chat maps to `[]` whether or not it existed; other chats are unchanged; the key set gains at most this chat, so the key count grows only for a new chat (EntryCount) |
| History.ClearTwice | progrev_bot.py:63-66 | clearing twice leaves the same table as clearing once |
| History.ClearThenGet | progrev_bot.py:53-66 | a read after a reset returns the empty history, whatever was stored before |
| Chunking.PiecesConcat | progrev_bot.py:181-182 | joining the slices of the loop gives back the reply exactly |
| Chunking.PiecesSizes | progrev_bot.py:181-182 | the loop makes ceil(L/4096) slices; each is 1 to 4096 characters long; all but the last are exactly 4096 |
| Chunking.ChunksSpec | progrev_bot.py:178-184 | a reply of length at most 4096 (the empty one included) is sent as exactly one message; a longer one as ceil(L/4096) messages of 1..4096 characters, all but the last of 4096; the messages join back to the reply |
| Chunking.ChunksAgreeWithPieces | progrev_bot.py:178-182 | the single-send branch and the loop send the same messages except for the empty reply, which the branch sends as one empty message and the loop would not send at all |
| Chunking.SendReply | progrev_bot.py:178-184 | the messages sent by the branch and the slicing loop are exactly the chunk sequence specified above |
| Relay.RequestSpec | progrev_bot.py:121-123 | the list sent to the API starts with the system turn, has no other system turn when the history has none, ends with the new user turn, and has 2 to 21 entries |
| Relay.ExchangeSpec | progrev_bot.py:120-142 | one exchange on a capped history leaves the last 20 turns of old history plus the user turn and, on success only, the assistant turn; on failure the history ends with the user turn; no system turn is ever stored |
| Relay.AskGroq | progrev_bot.py:120-142 | appends the user turn before the call; sends `[system] + history` as it stands after that append (see RequestSpec); appends the assistant turn only on success; returns the model's reply on success and the fixed fallback text on failure; other chats are unchanged |
| Relay.HandleMessage | progrev_bot.py:165-184 | absent or empty text changes no history and sends nothing; any other text, whitespace included, runs `ask_groq` and sends the reply in chunks that join back to it |
| Relay.HandledFrame | progrev_bot.py:145-184 | handling an update changes only the update's chat, adds at most that key, leaves everything unchanged for ignored messages, and empties the chat for `/start` and `/reset` |
| Relay.HandledKeepsInvariant | progrev_bot.py:145-184 | after any update every stored history is still within the cap and free of system turns |
| Relay.RepliesSpec | progrev_bot.py:145-184 | an update gets no answer exactly when it is a message with absent or empty text |
| Relay.Dispatch | progrev_bot.py:145-184 | `/start` and `/reset` clear the chat and send their fixed text; other messages are relayed; the history table and sends are as the specification functions say |
| Relay.FirstExchange | progrev_bot.py:120-139 | on a fresh chat the API sees `[system, user]` and the chat afterwards holds `[user, assistant]` |
| Lifecycle.ShutdownGate.constructor | progrev_bot.py:189 | the flag starts cleared, so health answers 200 "OK" |
| Lifecycle.ShutdownGate.HandleSigterm | progrev_bot.py:192-197 | sets the flag; only the first signal starts the shutdown, and a later one is a no-op; afterwards health answers 503 "Shutting down" |
| Lifecycle.Webhook | progrev_bot.py:245-263 | returns 503 and dispatches nothing while shutting down, exactly when health answers 503; returns 500 and changes nothing for a payload that does not parse; otherwise dispatches the update and returns 200 |
| Lifecycle.SignalThenTraffic | progrev_bot.py:192-249 | after one or more termination signals, health reports 503 and the webhook refuses an update with 503 and sends nothing |
| Transport.RStripSlash | progrev_bot.py:278 | `rstrip('/')` returns a prefix of the input that does not end in a slash, and everything it removes is slashes |
| Transport.RStripSlashUnique | progrev_bot.py:278 | those three properties determine `rstrip('/')` uniquely |
| Transport.WebhookUrl | progrev_bot.py:277-278 | the registered URL ends in `/webhook`; what precedes it is the configured base minus its trailing slashes |
| Transport.WebhookUrlIgnoresTrailingSlash | progrev_bot.py:278 | a trailing slash on the base does not change the URL; stripping is idempotent |
| Transport.SelectMode | progrev_bot.py:277-288 | push mode exactly when `WEBHOOK_URL` is set and non-empty, pull mode otherwise; the push URL ends in `/webhook` after the base with its trailing slashes removed |
| Transport.SelectModeIgnoresTrailingSlash | progrev_bot.py:277-278 | a non-empty base with or without a trailing slash selects the same mode and URL; a base of only slashes still selects push mode, with URL `/webhook` |

## Left out

- The literal wording of the fallback reply, the `/reset` acknowledgement, the `/start` greeting and SYSTEM_PROMPT. They are fields of a `Texts` value, and the contracts hold for any such value; no property depends on the wording.
- The Groq request and its worker thread (`run_in_executor`). The outcome is a `Completion` parameter, so any exception that `ask_groq` catches is `Fail`. The model identifier, temperature and token limit are not modelled.
- A completion whose message content is `None`. The reply is modelled as a string.
- The typing indicator, parse modes, and the 0.5-second pause between chunks. These are I/O and timing. Sends are the returned sequence, and a failing Telegram send is not modelled.
- Message length is counted in characters (`seq<char>`), as Python's `len` counts code points. Telegram's own UTF-16 counting is not modelled.
- Command recognition by aiogram's `Command` filter (`/start@bot`, arguments). Updates arrive already classified as `StartCommand`, `ResetCommand` or `Message`. Parsing the webhook JSON is reduced to `Option<Update>`.
- Lifecycle.Webhook: a well-formed update that carries no message (an edited message, a callback query) has no `Update` value. The source answers it with 200 and changes no history; the model does not cover that case.
- The request-counting middleware, `/`, `/metrics` (psutil, wall-clock time, float RAM figures) and the error counter.
- Signal-handler registration, uvicorn startup, `set_webhook`/`delete_webhook`, closing the session, and the polling task. These are framework and OS plumbing; the polling task only logs and ends.
- Reading environment variables and the startup `ValueError` checks. WEBHOOK_URL enters as an `Option<string>`.
- Interleaving of concurrent handlers. Each POST to `/webhook` runs as its own request, and calls are modelled as one sequential trace.
- Relay.AskGroq: the exchange is modelled as atomic. In the source the completion call is awaited (`progrev_bot.py:128`) between the user append (line 121) and the assistant append (line 138), and nothing serialises the handlers of one chat. A `/reset` of the same chat during the call leaves `[assistant]`, and two messages in flight leave `[u1, u2, a1, a2]`. ExchangeSpec's "ends with the user turn, then the assistant turn" holds only when no other handler of the same chat runs during the call.
