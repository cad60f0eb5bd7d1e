/**
 * The HelpBot event handlers: membership tracking, ticket creation from
 * private messages with a per-nick cooldown, the `!status` query on the help
 * channel, the `!close`/`!open` commands on the operator channel and CTCP
 * replies. Everything the bot would send over IRC is appended to `outbox`.
 */
module Bot {
  import opened Common
  import opened Text
  import opened TicketId
  import opened TicketStore
  import opened Commands
  import Report

  /** self.msg_cool_down: seconds a member must wait between two requests. */
  const MsgCoolDown: int := 10

  /** What the bot says, by kind, with the values each text interpolates. */
  datatype Notice =
    | Greeting(nick: string)                                // on_join, to the newcomer
    | WaitNotice(seconds: int)                              // on_privmsg, request too soon
    | TicketReceived(ticketId: string)                      // on_privmsg, receipt to the requester
    | NewTicket(ticketId: string, nick: string, problem: string) // on_privmsg, to the operators
    | JoinFirst                                             // on_privmsg, sender not a member
    | StatusReport(ticketId: string, status: string)        // !status, ticket found
    | StatusNotFound                                        // !status, no such ticket
    | StatusChanged(ticketId: string, status: string, operNick: string) // !close/!open done
    | OperWillHelp(operNick: string, ticketId: string)      // !open, to the requester
    | OperNotFound                                          // !close/!open, no such ticket

  /** An outbound IRC action. */
  datatype Action =
    | Privmsg(target: string, notice: Notice)  // connection.privmsg
    | Voice(channel: string, nick: string)     // connection.mode(channel, "+v " + nick)
    | CtcpAnswer(nick: string, text: string)   // connection.ctcp_reply

  /** The cooldown test of on_privmsg: a previous request less than MsgCoolDown ago. */
  predicate Throttled(lastMsgTime: map<string, int>, nick: string, now: int) {
    nick in lastMsgTime && now - lastMsgTime[nick] < MsgCoolDown
  }

  /** A request accepted at t blocks the same nick until t + MsgCoolDown, and no longer. */
  lemma CooldownWindow(lastMsgTime: map<string, int>, nick: string, t: int, other: string)
    ensures Throttled(lastMsgTime[nick := t], nick, t + MsgCoolDown - 1)
    ensures !Throttled(lastMsgTime[nick := t], nick, t + MsgCoolDown)
    ensures other != nick ==> (Throttled(lastMsgTime[nick := t], other, t) <==> Throttled(lastMsgTime, other, t))
  {
  }

  /** The new table and the messages sent by one handler call. */
  datatype Outcome = Outcome(store: Store, sent: seq<Action>)

  /**
   * The `!status` branch of on_pubmsg: at most one reply on the help channel,
   * sent exactly when the message is a well-formed query; the table is only read.
   */
  function StatusQueryReply(store: Store, channel: string, message: string): (sent: seq<Action>)
    ensures |sent| <= 1
    ensures sent != [] <==> ParseStatusQuery(message).Some?
    ensures forall i :: 0 <= i < |sent| ==> sent[i].Privmsg? && sent[i].target == channel
  {
    match ParseStatusQuery(message)
    case None => []
    case Some(id) =>
      match Lookup(store, id)
      case Some(t) => [Privmsg(channel, StatusReport(id, t.status))]
      case None => [Privmsg(channel, StatusNotFound)]
  }

  /**
   * handle_operator_commands. Never adds or removes a ticket and never
   * touches a nickname or message; a message that is not a command changes
   * nothing; a well-formed table stays well-formed.
   */
  function OperatorOutcome(store: Store, channel: string, opersChannel: string, message: string): (r: Outcome)
    ensures r.store.Keys == store.Keys
    ensures forall k :: k in store ==>
      r.store[k].nickname == store[k].nickname && r.store[k].message == store[k].message
    ensures ParseOperCommand(message).None? ==> r == Outcome(store, [])
    ensures WellFormed(store) ==> WellFormed(r.store)
  {
    match ParseOperCommand(message)
    case None => Outcome(store, [])
    case Some(cmd) =>
      match Lookup(store, cmd.ticketId)
      case None => Outcome(store, [Privmsg(opersChannel, OperNotFound)])
      case Some(t) =>
        var oper := if cmd.status == Closed then Some(cmd.operNick) else None;
        var announced := [Privmsg(opersChannel, StatusChanged(cmd.ticketId, cmd.status, cmd.operNick))];
        var assisted :=
          if cmd.status == Open then [Privmsg(t.nickname, OperWillHelp(cmd.operNick, cmd.ticketId)), Voice(channel, t.nickname)]
          else [];
        Outcome(Update(store, cmd.ticketId, cmd.status, oper), announced + assisted)
  }

  /**
   * "!status <id>", with any whitespace between and after the tokens,
   * replies with the stored status, or with the not-found text.
   */
  lemma StatusQueryAnswers(store: Store, channel: string, id: string, sep: string, trail: string)
    requires IsWord(id) && IsSeparator(sep) && AllSpace(trail)
    ensures id in store ==>
      StatusQueryReply(store, channel, StatusVerb + sep + id + trail) == [Privmsg(channel, StatusReport(id, store[id].status))]
    ensures id !in store ==>
      StatusQueryReply(store, channel, StatusVerb + sep + id + trail) == [Privmsg(channel, StatusNotFound)]
  {
    StatusQueryRoundTrip(id, sep, trail);
  }

  /** "!close <id> <oper>" on a known ticket: CLOSED in that operator's name, one confirmation, nothing else. */
  lemma CloseCommand(store: Store, channel: string, opersChannel: string, id: string, oper: string,
                     sep1: string, sep2: string, trail: string)
    requires IsWord(id) && IsWord(oper) && id in store
    requires IsSeparator(sep1) && IsSeparator(sep2) && AllSpace(trail)
    ensures OperatorOutcome(store, channel, opersChannel, CloseVerb + sep1 + id + sep2 + oper + trail) ==
      Outcome(store[id := store[id].(status := Closed, oper := Some(oper))],
              [Privmsg(opersChannel, StatusChanged(id, Closed, oper))])
  {
    CloseRoundTrip(id, oper, sep1, sep2, trail);
  }

  /**
   * "!open <id> <oper>" on a known ticket: OPEN without operator, a
   * confirmation to the operators, a notice to the requester and voice for
   * the requester on the help channel.
   */
  lemma OpenCommand(store: Store, channel: string, opersChannel: string, id: string, oper: string,
                    sep1: string, sep2: string, trail: string)
    requires IsWord(id) && IsWord(oper) && id in store
    requires IsSeparator(sep1) && IsSeparator(sep2) && AllSpace(trail)
    ensures var requester := store[id].nickname;
      OperatorOutcome(store, channel, opersChannel, OpenVerb + sep1 + id + sep2 + oper + trail) ==
      Outcome(store[id := store[id].(status := Open, oper := None)],
              [Privmsg(opersChannel, StatusChanged(id, Open, oper)),
               Privmsg(requester, OperWillHelp(oper, id)),
               Voice(channel, requester)])
  {
    OpenRoundTrip(id, oper, sep1, sep2, trail);
  }

  /** A verb such as "!closed" takes the OPEN path: the ticket is reopened and the requester voiced. */
  lemma LongerCloseVerbReopens(store: Store, channel: string, opersChannel: string, tail: string, id: string, oper: string,
                               sep1: string, sep2: string, trail: string)
    requires IsWord(tail) && IsWord(id) && IsWord(oper) && id in store
    requires IsSeparator(sep1) && IsSeparator(sep2) && AllSpace(trail)
    ensures var r := OperatorOutcome(store, channel, opersChannel, CloseVerb + tail + sep1 + id + sep2 + oper + trail);
      && r.store[id].status == Open && r.store[id].oper.None?
      && Voice(channel, store[id].nickname) in r.sent
  {
    LongerCloseVerbOpens(tail, id, oper, sep1, sep2, trail);
  }

  /** A command naming an unknown ticket only answers "not found" on the operator channel. */
  lemma UnknownTicketCommand(store: Store, channel: string, opersChannel: string, verb: string, id: string, oper: string,
                             sep1: string, sep2: string, trail: string)
    requires (verb == CloseVerb || verb == OpenVerb) && IsWord(id) && IsWord(oper) && id !in store
    requires IsSeparator(sep1) && IsSeparator(sep2) && AllSpace(trail)
    ensures OperatorOutcome(store, channel, opersChannel, verb + sep1 + id + sep2 + oper + trail) ==
      Outcome(store, [Privmsg(opersChannel, OperNotFound)])
  {
    if verb == CloseVerb { CloseRoundTrip(id, oper, sep1, sep2, trail); } else { OpenRoundTrip(id, oper, sep1, sep2, trail); }
  }

  /** The rows of SELECT id, status, oper FROM tickets: each ticket exactly once, in some order. */
  predicate IsSnapshot(store: Store, rows: seq<Report.Row>) {
    && |rows| == |store|
    && (forall i, j :: 0 <= i < j < |rows| ==> rows[i].id != rows[j].id)
    && (forall i :: 0 <= i < |rows| ==>
          && rows[i].id in store
          && rows[i].status == store[rows[i].id].status
          && rows[i].oper == store[rows[i].id].oper)
  }

  /** Operator names come straight from the command tokens and are not sanitised. */
  predicate PlainOperators(store: Store) {
    forall id :: id in store && store[id].oper.Some? ==> Report.NoMarkup(store[id].oper.value)
  }

  /**
   * The report of a well-formed table lists every ticket once with its id,
   * status and operator (or N/A), as long as no operator name holds a '<'.
   */
  lemma SnapshotReport(store: Store, rows: seq<Report.Row>)
    requires WellFormed(store) && PlainOperators(store) && IsSnapshot(store, rows)
    ensures Report.DecodeReport(Report.ReportHtml(rows)) == Some(Report.ShownRows(rows))
    ensures |Report.ShownRows(rows)| == |store|
  {
    forall i | 0 <= i < |rows| ensures Report.PlainRow(rows[i]) {
      var r := rows[i];
      var t := store[r.id];
      assert WellFormedTicket(r.id, t);
      assert Report.NoMarkup(r.id) by {
        forall k | 0 <= k < |r.id| ensures r.id[k] != '<' {
          if k >= |DefaultPrefix| {
            assert IsIdChar(r.id[k]);
          } else {
            assert r.id[..|DefaultPrefix|][k] == DefaultPrefix[k];
          }
        }
      }
    }
    Report.DecodeReportHtml(rows);
    Report.ShownRowsLength(rows);
  }

  /**
   * The bot's state: the two channel names from its configuration, the
   * tickets table, the members seen joining, the time of each nick's last
   * accepted request and the actions sent so far.
   */
  class HelpBot {
    const channel: string
    const opersChannel: string
    var store: Store
    var channelMembers: set<string>
    var userLastMsgTime: map<string, int>
    var outbox: seq<Action>

    /** Members and cooldown entries are always recorded under lowercased nicknames. */
    ghost predicate Valid()
      reads this
    {
      && (forall n :: n in channelMembers ==> IsLowerCase(n))
      && (forall n :: n in userLastMsgTime ==> IsLowerCase(n))
    }

    /** A bot that has not yet seen any event, over the rows already in the database. */
    constructor (channel: string, opersChannel: string, persisted: Store)
      ensures Valid()
      ensures this.channel == channel && this.opersChannel == opersChannel
      ensures store == persisted && channelMembers == {} && userLastMsgTime == map[] && outbox == []
    {
      this.channel := channel;
      this.opersChannel := opersChannel;
      store := persisted;
      channelMembers := {};
      userLastMsgTime := map[];
      outbox := [];
    }

    /** create_ticket: insert a Waiting row under a freshly drawn id, or fail on a taken id. */
    method CreateTicket(nickname: string, message: string, picks: seq<nat>) returns (r: Result<string, StoreError>)
      requires Valid()
      requires |picks| == DefaultLength && ValidPicks(picks)
      modifies this`store
      ensures Valid()
      ensures var id := GenerateTicketId(DefaultPrefix, DefaultLength, picks);
        && (r.Success? <==> id !in old(store))
        && (r.Success? ==> r.value == id && store == old(store)[id := Ticket(nickname, message, Waiting, None)])
        && (r.Failure? ==> r.error == DuplicateKey(id) && store == old(store))
    {
      var id := GenerateTicketId(DefaultPrefix, DefaultLength, picks);
      match Insert(store, id, nickname, message)
      case Success(s) =>
        store := s;
        r := Success(id);
      case Failure(e) =>
        r := Failure(e);
    }

    /** update_ticket_status: set status and oper of the named ticket, if there is one. */
    method UpdateTicketStatus(ticketId: string, status: string, oper: Option<string>)
      requires Valid()
      modifies this`store
      ensures Valid()
      ensures store == Update(old(store), ticketId, status, oper)
    {
      store := Update(store, ticketId, status, oper);
    }

    /** on_join: remember the lowercased nick and greet anyone but the bot itself. */
    method OnJoin(nick: string, botNick: string)
      requires Valid()
      modifies this`channelMembers, this`outbox
      ensures Valid()
      ensures channelMembers == old(channelMembers) + {Lower(nick)}
      ensures outbox == old(outbox) +
        if Lower(nick) != Lower(botNick) then [Privmsg(Lower(nick), Greeting(Lower(nick)))] else []
    {
      var nickname := Lower(nick);
      channelMembers := channelMembers + {nickname};
      if nickname != Lower(botNick) {
        outbox := outbox + [Privmsg(nickname, Greeting(nickname))];
      }
    }

    /** on_part: forget the lowercased nick. */
    method OnPart(nick: string)
      requires Valid()
      modifies this`channelMembers
      ensures Valid()
      ensures channelMembers == old(channelMembers) - {Lower(nick)}
    {
      channelMembers := channelMembers - {Lower(nick)};
    }

    /** on_quit: forget the lowercased nick, as on_part does. */
    method OnQuit(nick: string)
      requires Valid()
      modifies this`channelMembers
      ensures Valid()
      ensures channelMembers == old(channelMembers) - {Lower(nick)}
    {
      channelMembers := channelMembers - {Lower(nick)};
    }

    /**
     * on_privmsg at time `now`, with `picks` the draws for a new ticket id.
     * A non-member is told to join; a member within the cooldown is told to
     * wait; otherwise the time is recorded and a ticket holding the sanitised
     * text is created, acknowledged to the sender and announced to the
     * operators. When the drawn id is already taken the INSERT fails: the
     * time stays recorded and nothing is sent.
     */
    method OnPrivmsg(nick: string, text: string, now: int, picks: seq<nat>) returns (err: Option<StoreError>)
      requires Valid()
      requires |picks| == DefaultLength && ValidPicks(picks)
      modifies this`store, this`userLastMsgTime, this`outbox
      ensures Valid()
      ensures old(WellFormed(store)) ==> WellFormed(store)
      ensures Lower(nick) !in old(channelMembers) ==>
        && outbox == old(outbox) + [Privmsg(Lower(nick), JoinFirst)]
        && store == old(store) && userLastMsgTime == old(userLastMsgTime) && err == None
      ensures Lower(nick) in old(channelMembers) && Throttled(old(userLastMsgTime), Lower(nick), now) ==>
        && outbox == old(outbox) + [Privmsg(Lower(nick), WaitNotice(MsgCoolDown))]
        && store == old(store) && userLastMsgTime == old(userLastMsgTime) && err == None
      ensures Lower(nick) in old(channelMembers) && !Throttled(old(userLastMsgTime), Lower(nick), now) ==>
        var n, id, problem := Lower(nick), GenerateTicketId(DefaultPrefix, DefaultLength, picks), Sanitize(text);
        && userLastMsgTime == old(userLastMsgTime)[n := now]
        && (id !in old(store) ==>
              && err == None
              && store == old(store)[id := Ticket(n, problem, Waiting, None)]
              && outbox == old(outbox) + [Privmsg(n, TicketReceived(id)), Privmsg(opersChannel, NewTicket(id, n, problem))])
        && (id in old(store) ==> err == Some(DuplicateKey(id)) && store == old(store) && outbox == old(outbox))
    {
      var nickname := Lower(nick);
      err := None;
      if nickname in channelMembers {
        if nickname in userLastMsgTime && now - userLastMsgTime[nickname] < MsgCoolDown {
          outbox := outbox + [Privmsg(nickname, WaitNotice(MsgCoolDown))];
          return;
        }
        userLastMsgTime := userLastMsgTime[nickname := now];
        var problem := Sanitize(text);
        DefaultIdShape(picks);
        var created := CreateTicket(nickname, problem, picks);
        match created
        case Success(ticketId) =>
          outbox := outbox + [Privmsg(nickname, TicketReceived(ticketId)), Privmsg(opersChannel, NewTicket(ticketId, nickname, problem))];
        case Failure(e) =>
          err := Some(e);
      } else {
        outbox := outbox + [Privmsg(nickname, JoinFirst)];
      }
    }

    /**
     * on_pubmsg: a `!status` query on the help channel, an operator command
     * on the operator channel, nothing elsewhere. Channel names compare
     * lowercased, and the help channel is tried first.
     */
    method OnPubmsg(target: string, text: string)
      requires Valid()
      modifies this`store, this`outbox
      ensures Valid()
      ensures Lower(target) == Lower(channel) ==>
        store == old(store) && outbox == old(outbox) + StatusQueryReply(old(store), channel, text)
      ensures Lower(target) != Lower(channel) && Lower(target) == Lower(opersChannel) ==>
        var r := OperatorOutcome(old(store), channel, opersChannel, text);
        store == r.store && outbox == old(outbox) + r.sent
      ensures Lower(target) != Lower(channel) && Lower(target) != Lower(opersChannel) ==>
        store == old(store) && outbox == old(outbox)
    {
      if Lower(target) == Lower(channel) {
        outbox := outbox + StatusQueryReply(store, channel, text);
      } else if Lower(target) == Lower(opersChannel) {
        HandleOperatorCommands(text);
      }
    }

    /** handle_operator_commands, applied to the bot's table and outbox. */
    method HandleOperatorCommands(text: string)
      requires Valid()
      modifies this`store, this`outbox
      ensures Valid()
      ensures var r := OperatorOutcome(old(store), channel, opersChannel, text);
        store == r.store && outbox == old(outbox) + r.sent
    {
      match ParseOperCommand(text)
      case None =>
      case Some(cmd) =>
        match Lookup(store, cmd.ticketId)
        case None =>
          outbox := outbox + [Privmsg(opersChannel, OperNotFound)];
        case Some(t) =>
          var newStatus := cmd.status;
          UpdateTicketStatus(cmd.ticketId, newStatus, if newStatus == Closed then Some(cmd.operNick) else None);
          outbox := outbox + [Privmsg(opersChannel, StatusChanged(cmd.ticketId, newStatus, cmd.operNick))];
          if newStatus == Open {
            outbox := outbox + [Privmsg(t.nickname, OperWillHelp(cmd.operNick, cmd.ticketId))];
            outbox := outbox + [Voice(channel, t.nickname)];
          }
    }

    /** on_ctcp: answer VERSION and PING to the sender's nick, ignore everything else. */
    method OnCtcp(nick: string, args: seq<string>)
      requires Valid()
      requires |args| > 0
      modifies this`outbox
      ensures Valid()
      ensures outbox == old(outbox) +
        match CtcpReply(args) case None => [] case Some(text) => [CtcpAnswer(nick, text)]
    {
      match CtcpReply(args)
      case None =>
      case Some(text) =>
        outbox := outbox + [CtcpAnswer(nick, text)];
    }
  }
}
