/**
 * Conversations with the bot, proved from the handlers' contracts alone:
 * a new help request, the cooldown, and the operator commands followed by
 * a status query.
 */
module Scenarios {
  import opened Common
  import opened Text
  import opened TicketId
  import opened TicketStore
  import opened Commands
  import opened Bot

  /** A member's first request is stored with its '!' kept, acknowledged, and announced to the operators. */
  method NewRequestScenario(bot: HelpBot, nick: string, now: int, picks: seq<nat>) returns (id: string)
    requires bot.Valid()
    requires |picks| == DefaultLength && ValidPicks(picks)
    requires Lower(nick) in bot.channelMembers && Lower(nick) !in bot.userLastMsgTime
    requires GenerateTicketId(DefaultPrefix, DefaultLength, picks) !in bot.store
    modifies bot
    ensures IsTicketId(id)
    ensures bot.store == old(bot.store)[id := Ticket(Lower(nick), "my printer is broken!!", Waiting, None)]
    ensures bot.outbox == old(bot.outbox) +
      [Privmsg(Lower(nick), TicketReceived(id)),
       Privmsg(bot.opersChannel, NewTicket(id, Lower(nick), "my printer is broken!!"))]
  {
    id := GenerateTicketId(DefaultPrefix, DefaultLength, picks);
    DefaultIdShape(picks);
    SanitizeKeepsBang();
    var err := bot.OnPrivmsg(nick, "my printer is broken!!", now, picks);
  }

  /**
   * Requests at t, t + MsgCoolDown - 1 and t + MsgCoolDown: the second is
   * refused with a wait notice and leaves the recorded time at t; the third
   * is accepted again.
   */
  method CooldownScenario(bot: HelpBot, nick: string, t: int, text: string, first: seq<nat>, third: seq<nat>)
    requires bot.Valid()
    requires |first| == DefaultLength && ValidPicks(first)
    requires |third| == DefaultLength && ValidPicks(third)
    requires Lower(nick) in bot.channelMembers && Lower(nick) !in bot.userLastMsgTime
    requires GenerateTicketId(DefaultPrefix, DefaultLength, first) !in bot.store
    requires GenerateTicketId(DefaultPrefix, DefaultLength, third) !in bot.store
    requires GenerateTicketId(DefaultPrefix, DefaultLength, first) != GenerateTicketId(DefaultPrefix, DefaultLength, third)
    modifies bot
    ensures var n, a, b := Lower(nick), GenerateTicketId(DefaultPrefix, DefaultLength, first), GenerateTicketId(DefaultPrefix, DefaultLength, third);
      && bot.userLastMsgTime == old(bot.userLastMsgTime)[n := t + MsgCoolDown]
      && bot.store.Keys == old(bot.store).Keys + {a, b}
      && bot.outbox == old(bot.outbox) +
           [Privmsg(n, TicketReceived(a)), Privmsg(bot.opersChannel, NewTicket(a, n, Sanitize(text))),
            Privmsg(n, WaitNotice(MsgCoolDown)),
            Privmsg(n, TicketReceived(b)), Privmsg(bot.opersChannel, NewTicket(b, n, Sanitize(text)))]
  {
    var e1 := bot.OnPrivmsg(nick, text, t, first);
    var e2 := bot.OnPrivmsg(nick, text, t + MsgCoolDown - 1, third);
    assert bot.userLastMsgTime[Lower(nick)] == t;
    var e3 := bot.OnPrivmsg(nick, text, t + MsgCoolDown, third);
  }

  /**
   * "!close" on the operator channel, then "!status" on the help channel
   * (typed with a tab and a trailing space), reports CLOSED.
   */
  method CloseThenStatusScenario(bot: HelpBot, id: string, oper: string)
    requires bot.Valid()
    requires Lower(bot.channel) != Lower(bot.opersChannel)
    requires IsWord(id) && IsWord(oper) && id in bot.store
    modifies bot
    ensures bot.store == old(bot.store)[id := old(bot.store)[id].(status := Closed, oper := Some(oper))]
    ensures bot.outbox == old(bot.outbox) +
      [Privmsg(bot.opersChannel, StatusChanged(id, Closed, oper)),
       Privmsg(bot.channel, StatusReport(id, Closed))]
  {
    CloseCommand(bot.store, bot.channel, bot.opersChannel, id, oper, " ", " ", "");
    bot.OnPubmsg(bot.opersChannel, CloseVerb + " " + id + " " + oper + "");
    StatusQueryAnswers(bot.store, bot.channel, id, "\t", " ");
    bot.OnPubmsg(bot.channel, StatusVerb + "\t" + id + " ");
  }

  /** "!open" clears the operator, tells the requester who will help, and voices the requester. */
  method OpenScenario(bot: HelpBot, id: string, oper: string)
    requires bot.Valid()
    requires Lower(bot.channel) != Lower(bot.opersChannel)
    requires IsWord(id) && IsWord(oper) && id in bot.store
    modifies bot
    ensures bot.store == old(bot.store)[id := old(bot.store)[id].(status := Open, oper := None)]
    ensures var requester := old(bot.store)[id].nickname;
      bot.outbox == old(bot.outbox) +
        [Privmsg(bot.opersChannel, StatusChanged(id, Open, oper)),
         Privmsg(requester, OperWillHelp(oper, id)),
         Voice(bot.channel, requester)]
  {
    OpenCommand(bot.store, bot.channel, bot.opersChannel, id, oper, " ", " ", "");
    bot.OnPubmsg(bot.opersChannel, OpenVerb + " " + id + " " + oper + "");
  }

  /** A status query for an id that is not in the table gets the not-found reply and changes nothing. */
  method UnknownIdScenario(bot: HelpBot)
    requires bot.Valid()
    requires "NOPE99999" !in bot.store
    modifies bot
    ensures bot.store == old(bot.store)
    ensures bot.outbox == old(bot.outbox) + [Privmsg(bot.channel, StatusNotFound)]
  {
    assert IsWord("NOPE99999");
    StatusQueryAnswers(bot.store, bot.channel, "NOPE99999", " ", "");
    bot.OnPubmsg(bot.channel, StatusVerb + " " + "NOPE99999" + "");
  }
}
