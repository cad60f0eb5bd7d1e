# HelpBot ticket desk, modelled in Dafny

`ticketircbot.py` is an IRC help bot. Users who joined the help channel send it a
private message; the bot files it as a ticket in an SQLite table, tells the user the
ticket id and announces it on the operator channel. On the help channel anyone can ask
`!status <id>`; on the operator channel operators run `!close <id> <oper>` and
`!open <id> <oper>`. A timer thread periodically renders all tickets as an HTML table.

This project models that ticket desk:

- `Text.dfy` (module `Text`): the input sanitiser (`sanitize_input`), nickname
  lowercasing, and the command tokeniser (`str.startswith`, argument-less `str.split()`,
  whose whitespace set is Python's `str.isspace`).
- `TicketId.dfy` (module `TicketId`): `generate_ticket_id`, with the random draws given
  as a sequence of alphabet indices.
- `TicketStore.dfy` (module `TicketStore`): the `tickets` table as a map from the
  primary key to the row, with the INSERT of `create_ticket` (refused on a taken id) and
  the UPDATE of `update_ticket_status` (no effect on an unknown id).
- `Commands.dfy` (module `Commands`): which public messages are `!status` queries and
  which are `!close`/`!open` commands, and the CTCP reply rule of `on_ctcp`.
- `Report.dfy` (module `Report`): the string building of `write_tickets_to_html`, as a
  loop method proved equal to a page function, and a reader that recovers every row's
  cells from the page.
- `Bot.dfy` (module `Bot`): class `HelpBot` with the fields `store`, `channelMembers`,
  `userLastMsgTime` and `outbox` and the event handlers. Everything the bot sends is
  appended to `outbox` as a tagged action (`Privmsg` with a `Notice` kind, `Voice` for
  mode `+v`, `CtcpAnswer`). Every handler requires and keeps `HelpBot.Valid()`: members and
  cooldown entries are recorded under lowercased nicknames.
- `Scenarios.dfy` (module `Scenarios`): whole conversations proved from the handlers'
  contracts alone.

Behaviour the model keeps as the code has it:

- `!` is in the sanitiser's kept set (ticketircbot.py:41). A request
  `my printer is broken!!` is stored as is, not as `my printer is broken`
  (`Text.SanitizeKeepsBang`).
- Any first token that merely starts with `!close` or `!open` is accepted, and only the
  exact token `!close` gives `CLOSED`. So `!closed <id> <oper>` reopens the ticket and
  voices the requester (`Commands.LongerCloseVerbOpens`, `Bot.LongerCloseVerbReopens`).
- The status strings are `Waiting`, `CLOSED` and `OPEN`.
- `on_join`, `on_part` and `on_quit` do not look at the channel. Joining the operator
  channel also makes a nick a member who may file tickets.
- `on_privmsg` records the request time before the INSERT. When the drawn id is already
  a key, the INSERT raises, so the time stays recorded, no ticket is created and nothing
  is sent. `OnPrivmsg` returns that error as `Some(DuplicateKey(id))`. The code does not
  retry with a new id.
- `update_ticket_status` writes whatever status and operator it is given and does
  nothing for an unknown id. Only its callers keep "operator only on CLOSED"
  (`TicketStore.UpdatePreservesWellFormed`, `Bot.OperatorOutcome`).
- `row[2] or 'N/A'` shows `N/A` for a NULL operator and also for an empty one
  (`Report.OperCell`).
- Operator names are never sanitised. The page can be read back only while no operator
  name contains `<` (`Bot.SnapshotReport`). Ids and statuses of a well-formed table
  never contain it.

## Model

| member | source | states |
|---|---|---|
| `Text.Sanitize` | ticketircbot.py:39-42 | the result holds only characters from `a-zA-Z0-9 .,!?;:@` and is no longer than the input |
| `Text.SanitizeConcat` | ticketircbot.py:41 | deletion is character by character: sanitising `a + b` gives the sanitised `a` followed by the sanitised `b` |
| `Text.SanitizeCounts` | ticketircbot.py:41 | each safe character occurs in the result as often as in the input; every other character occurs zero times |
| `Text.SanitizeFixpoint` | ticketircbot.py:41 | the sanitiser leaves a string unchanged if and only if all its characters are safe |
| `Text.SanitizeIdempotent` | ticketircbot.py:39-42 | sanitising twice equals sanitising once |
| `Text.SanitizeKeepsBang` | ticketircbot.py:41 | `my printer is broken!!` passes through unchanged, because `!` is kept |
| `Text.Lower` | ticketircbot.py:83 | a nickname keeps its length, every ASCII capital becomes its own small letter, and no other character changes |
| `Text.LowerFixpoint` | ticketircbot.py:83 | lowercasing fixes exactly the strings without capitals |
| `Text.LowerIdempotent` | ticketircbot.py:83 | lowercasing a lowercased nickname changes nothing |
| `Text.Split` | ticketircbot.py:119 | every token `split()` returns is non-empty and free of whitespace |
| `Text.SplitJoinWords` | ticketircbot.py:136 | splitting words joined by single spaces returns exactly those words |
| `Text.SplitKeepsNonSpace` | ticketircbot.py:119 | the tokens, put together, are the message with only its whitespace removed |
| `Text.SplitLeadingSpace` | ticketircbot.py:119 | leading whitespace of any kind and length produces no token |
| `Text.SplitWordThen` | ticketircbot.py:119 | a word followed by any non-empty run of whitespace is one whole token, and splitting continues after the run |
| `Text.SplitWordTrail` | ticketircbot.py:119 | a word followed only by whitespace splits into just that word |
| `Text.SplitTwo` | ticketircbot.py:119 | two words with any separator and trailing whitespace (tabs, repeated spaces) split into exactly those two words |
| `Text.SplitThree` | ticketircbot.py:136 | three words with any separators and trailing whitespace split into exactly those three words |
| `Text.SplitFirstWordIsPrefix` | ticketircbot.py:135-138 | a message starting with a non-space has a first token that is a prefix of the message |
| `TicketId.AlphabetChars` | ticketircbot.py:45 | the alphabet has 36 characters, each an uppercase ASCII letter or a digit |
| `TicketId.Draw` | ticketircbot.py:46 | one character per draw, each an uppercase letter or digit |
| `TicketId.GenerateTicketId` | ticketircbot.py:44-47 | the id is the prefix followed by exactly `length` uppercase letters or digits |
| `TicketId.DrawPicksFor` | ticketircbot.py:46 | every string of id characters is what some draws produce |
| `TicketId.EveryIdReachable` | ticketircbot.py:44-47 | every prefix followed by id characters is a possible generated id |
| `TicketId.DrawInjective` | ticketircbot.py:45-46 | different draws of the same length give different suffixes |
| `TicketId.DefaultIdShape` | ticketircbot.py:44 | with the defaults, an id is `ID` followed by eight id characters |
| `TicketStore.Insert` | ticketircbot.py:64-69 | a new id adds exactly one `Waiting` row without operator and keeps all others; a taken id fails with `DuplicateKey` and changes nothing |
| `TicketStore.Update` | ticketircbot.py:71-74 | only the named row changes, only in status and operator; an unknown id changes nothing |
| `TicketStore.Lookup` | ticketircbot.py:141-142 | the lookup finds a row exactly when the id is a key, and returns that row |
| `TicketStore.InsertPreservesWellFormed` | ticketircbot.py:64-69 | inserting a row with a generated id, a lowercased nick and a sanitised message keeps a well-formed table well-formed |
| `TicketStore.UpdatePreservesWellFormed` | ticketircbot.py:71-74 | an update to one of the three statuses, with an operator only for CLOSED, keeps the table well-formed |
| `TicketStore.UpdateThenLookup` | ticketircbot.py:71-74 | after an update the row reads back with the written status and operator; other ids read as before |
| `Commands.ParseStatusQuery` | ticketircbot.py:118-121 | a query is recognised if and only if the message starts with `!status` and has exactly two tokens; it asks for the second token |
| `Commands.StatusQueryRoundTrip` | ticketircbot.py:118-121 | `!status <id>` asks for exactly `<id>`, whatever whitespace separates the tokens or trails the message |
| `Commands.StatusQueryArity` | ticketircbot.py:119-120 | `!status` with no argument or with two or more arguments is not a query |
| `Commands.ParseOperCommand` | ticketircbot.py:135-139 | a command is recognised if and only if the message starts with `!close` or `!open` and has exactly three tokens; the status is CLOSED exactly when the first token is `!close`, otherwise OPEN |
| `Commands.CommandTokens` | ticketircbot.py:135-138 | a verb and two arguments with any whitespace separators split into exactly those three tokens, and the message starts with the verb |
| `Commands.CloseRoundTrip` | ticketircbot.py:135-139 | `!close <id> <oper>`, with any whitespace separators, is the CLOSED command for that ticket and operator |
| `Commands.OpenRoundTrip` | ticketircbot.py:135-139 | `!open <id> <oper>`, with any whitespace separators, is the OPEN command for that ticket and operator |
| `Commands.LongerCloseVerbOpens` | ticketircbot.py:139 | a verb that only begins with `!close`, such as `!closed`, gives OPEN, with any whitespace separators |
| `Commands.CtcpReply` | ticketircbot.py:31-37 | a reply is sent only for VERSION and for PING with a payload; VERSION gets the fixed identification string; PING gets `PONG ` followed by the payload verbatim |
| `Commands.PingEchoes` | ticketircbot.py:35-37 | a PING with a payload is answered `PONG <payload>`, whatever other arguments follow |
| `Report.OperCell` | ticketircbot.py:164 | the operator cell is the operator's name, or `N/A` for NULL and for the empty string |
| `Report.RenderRowsAppend` | ticketircbot.py:163-164 | rendering rows then one more row appends that row's rendering |
| `Report.RenderReport` | ticketircbot.py:160-166 | the accumulated page is the header, one rendered row per row in order, and the footer |
| `Report.DecodeRenderRow` | ticketircbot.py:164 | a rendered row without `<` in its cells reads back as its id, status and operator cell |
| `Report.DecodeRenderRows` | ticketircbot.py:163-164 | the rendered rows read back as the rows' cells, in order |
| `Report.DecodeReportHtml` | ticketircbot.py:160-166 | the whole page reads back as the cells of every row, in order |
| `Report.ShownRowsLength` | ticketircbot.py:163-164 | the list of shown cells has exactly one entry per snapshot row |
| `Bot.CooldownWindow` | ticketircbot.py:101 | a request accepted at `t` blocks that nick at `t + 9` and not at `t + 10`, and does not affect other nicks |
| `Bot.StatusQueryReply` | ticketircbot.py:115-129 | at most one reply, sent to the help channel, exactly when the message is a well-formed `!status` query |
| `Bot.OperatorOutcome` | ticketircbot.py:133-150 | an operator command never adds or removes a ticket, never changes a nickname or message, changes nothing for a non-command, and keeps the table well-formed |
| `Bot.StatusQueryAnswers` | ticketircbot.py:118-129 | `!status <id>`, with any whitespace separator and trailing whitespace, replies with the stored status, or with the not-found notice when the id is unknown |
| `Bot.CloseCommand` | ticketircbot.py:137-145 | `!close <id> <oper>` (any whitespace separators) on a known ticket sets CLOSED with that operator and sends only the confirmation |
| `Bot.OpenCommand` | ticketircbot.py:137-148 | `!open <id> <oper>` (any whitespace separators) on a known ticket sets OPEN without operator, confirms, tells the requester who will help, and voices the requester |
| `Bot.LongerCloseVerbReopens` | ticketircbot.py:139-148 | `!closed <id> <oper>` (any whitespace separators) reopens the ticket and voices the requester |
| `Bot.UnknownTicketCommand` | ticketircbot.py:141-150 | a `!close` or `!open` command (any whitespace separators) for an unknown ticket changes nothing and answers "not found" on the operator channel |
| `Bot.SnapshotReport` | ticketircbot.py:157-166 | the report of a well-formed table lists each ticket once with its id, status and operator, provided no operator name holds `<` |
| `Bot.HelpBot.constructor` | ticketircbot.py:12-28 | the bot starts with the configured channels, the rows already in the database, no members, no cooldown entries and nothing sent |
| `Bot.HelpBot.CreateTicket` | ticketircbot.py:64-69 | inserts a `Waiting` row without operator under the drawn id and returns it; a taken id fails and leaves the table unchanged |
| `Bot.HelpBot.UpdateTicketStatus` | ticketircbot.py:71-74 | afterwards only the named ticket differs, and only in status and operator; for an unknown id the table is unchanged (the contract of `TicketStore.Update`) |
| `Bot.HelpBot.OnJoin` | ticketircbot.py:82-87 | adds the lowercased nick to the members and greets it privately unless it is the bot's own nick |
| `Bot.HelpBot.OnPart` | ticketircbot.py:89-91 | removes the lowercased nick from the members |
| `Bot.HelpBot.OnQuit` | ticketircbot.py:93-95 | removes the lowercased nick from the members |
| `Bot.HelpBot.OnPrivmsg` | ticketircbot.py:97-112 | a non-member gets one refusal and nothing else changes; a member within the cooldown gets one wait notice and nothing else changes; otherwise the time is set to `now`, one `Waiting` ticket with the sanitised text is created, and the sender and the operator channel get one message each; a well-formed table stays well-formed |
| `Bot.HelpBot.OnPubmsg` | ticketircbot.py:115-131 | on the help channel only a status reply is sent and the table is not changed; on the operator channel the operator command runs; elsewhere nothing happens |
| `Bot.HelpBot.HandleOperatorCommands` | ticketircbot.py:133-150 | the table and the new outbox entries are those `Bot.OperatorOutcome` gives for the old table: no ticket added or removed, requester and message untouched, nothing done for a non-command |
| `Bot.HelpBot.OnCtcp` | ticketircbot.py:31-37 | appends the CTCP reply to the sender's nick when there is one, and nothing otherwise |
| `Scenarios.NewRequestScenario` | ticketircbot.py:97-110 | a member's first request `my printer is broken!!` becomes a `Waiting` ticket with that text, acknowledged with its id and announced with the same id and text |
| `Scenarios.CooldownScenario` | ticketircbot.py:99-105 | requests at `t`, `t + 9` and `t + 10`: the second gets a wait notice, the first and third each create a ticket |
| `Scenarios.CloseThenStatusScenario` | ticketircbot.py:115-145 | after `!close <id> <oper>`, a `!status<TAB><id> ` reports CLOSED, and the operator is recorded |
| `Scenarios.OpenScenario` | ticketircbot.py:133-148 | `!open <id> <oper>` clears the operator, notifies the requester and voices the requester |
| `Scenarios.UnknownIdScenario` | ticketircbot.py:115-129 | `!status NOPE99999` for an unknown id gets the not-found reply and changes nothing |

## Left out

- IRC transport: the `irc.bot` base class, connecting, `on_welcome` and its joins. What the bot sends is recorded in `outbox` instead of being written to the connection.
- The exact Spanish message texts: each is a `Notice` kind carrying the values it interpolates.
- `Text.Lower`: models `irc.strings.lower`, whose source is not part of this model, as ASCII lowercasing only. The RFC 1459 folding of `[]\^` to `{}|~` is not modelled.
- `time.time()` returns a float: the handler takes the time as an integer `now`.
- `random.choice`: the draws are an input (`picks`, indices into the 36-character alphabet).
- SQLite mechanics: connections, cursors, `commit`, and the repeated `setup_database` call (ticketircbot.py:14, 28). The table is the map `store`. The rows already in `helpbot.db` are a constructor argument.
- The uncaught `IntegrityError` on a duplicate id: `OnPrivmsg` returns it as an error value. What the IRC library does with an exception raised in a handler is not modelled.
- `Bot.HelpBot.OnCtcp` and `Commands.CtcpReply` require at least one CTCP argument, because `on_ctcp` reads `event.arguments[0]` unchecked.
- `write_tickets_to_html`: the SELECT is an input (`rows`) and its order is not modelled. Writing `/var/www/html/tickets_status.html` and the channel notice after it are I/O and are not modelled.
- `schedule_write` and its `threading.Timer` rescheduling: concurrency and timing.
- Concurrent access to the database from the timer thread: every handler runs to completion before the next event.
- `configparser` start-up and `__main__` (ticketircbot.py:12-24, 183-187). The two channel names are constructor arguments.
