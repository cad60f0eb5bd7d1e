/**
 * The parsing half of the bot's public commands and its CTCP reply rule:
 * which messages on the help channel are `!status` queries, which messages
 * on the operator channel are `!close`/`!open` commands, and what a CTCP
 * request is answered with.
 */
module Commands {
  import opened Common
  import opened Text
  import opened TicketStore

  const StatusVerb: string := "!status"
  const CloseVerb: string := "!close"
  const OpenVerb: string := "!open"

  /**
   * on_pubmsg on the help channel: a message that starts with "!status" and
   * splits into exactly two tokens asks for the status of the second token.
   */
  function ParseStatusQuery(message: string): (r: Option<string>)
    ensures r.Some? <==> StartsWith(message, StatusVerb) && |Split(message)| == 2
    ensures r.Some? ==> r.value == Split(message)[1] && IsWord(r.value)
  {
    if StartsWith(message, StatusVerb) then
      var parts := Split(message);
      if |parts| == 2 then Some(parts[1]) else None
    else None
  }

  /** A recognised operator command: the status to set, the ticket and the operator named. */
  datatype OperCommand = OperCommand(status: string, ticketId: string, operNick: string)

  /**
   * handle_operator_commands: a message that starts with "!close" or "!open"
   * and splits into exactly three tokens. The status is CLOSED only when the
   * first token is exactly "!close"; every other such first token gives OPEN.
   */
  function ParseOperCommand(message: string): (r: Option<OperCommand>)
    ensures r.Some? <==>
      (StartsWith(message, CloseVerb) || StartsWith(message, OpenVerb)) && |Split(message)| == 3
    ensures r.Some? ==>
      && r.value.ticketId == Split(message)[1]
      && r.value.operNick == Split(message)[2]
      && (r.value.status == Closed <==> Split(message)[0] == CloseVerb)
      && (r.value.status == Closed || r.value.status == Open)
  {
    if StartsWith(message, CloseVerb) || StartsWith(message, OpenVerb) then
      var parts := Split(message);
      if |parts| == 3 then
        var status := if parts[0] == CloseVerb then Closed else Open;
        Some(OperCommand(status, parts[1], parts[2]))
      else None
    else None
  }

  lemma VerbsAreWords()
    ensures IsWord(StatusVerb) && IsWord(CloseVerb) && IsWord(OpenVerb)
  {
  }

  lemma StartsWithOwnPrefix(p: string, rest: string)
    ensures StartsWith(p + rest, p)
  {
    assert (p + rest)[..|p|] == p;
  }

  /**
   * "!status <id>" asks for exactly that id, whatever run of whitespace
   * separates the two tokens and whatever whitespace trails the message.
   */
  lemma StatusQueryRoundTrip(id: string, sep: string, trail: string)
    requires IsWord(id) && IsSeparator(sep) && AllSpace(trail)
    ensures ParseStatusQuery(StatusVerb + sep + id + trail) == Some(id)
  {
    VerbsAreWords();
    SplitTwo(StatusVerb, id, sep, trail);
    StartsWithOwnPrefix(StatusVerb, sep + id + trail);
    assert StatusVerb + sep + id + trail == StatusVerb + (sep + id + trail);
  }

  /** "!status" alone, or with two or more arguments, is not a query. */
  lemma StatusQueryArity(words: seq<string>)
    requires |words| > 0 && words[0] == StatusVerb && |words| != 2
    requires forall i :: 0 <= i < |words| ==> IsWord(words[i])
    ensures ParseStatusQuery(JoinWords(words)) == None
  {
    SplitJoinWords(words);
  }

  /** A verb followed by two arguments, with any separators and trailing whitespace, splits into three tokens. */
  lemma CommandTokens(verb: string, id: string, oper: string, sep1: string, sep2: string, trail: string)
    requires IsWord(verb) && IsWord(id) && IsWord(oper)
    requires IsSeparator(sep1) && IsSeparator(sep2) && AllSpace(trail)
    ensures Split(verb + sep1 + id + sep2 + oper + trail) == [verb, id, oper]
    ensures StartsWith(verb + sep1 + id + sep2 + oper + trail, verb)
  {
    SplitThree(verb, id, oper, sep1, sep2, trail);
    var m := verb + sep1 + id + sep2 + oper + trail;
    assert m[..|verb|] == verb;
  }

  /** "!close <id> <oper>" closes the ticket in the operator's name. */
  lemma CloseRoundTrip(id: string, oper: string, sep1: string, sep2: string, trail: string)
    requires IsWord(id) && IsWord(oper)
    requires IsSeparator(sep1) && IsSeparator(sep2) && AllSpace(trail)
    ensures ParseOperCommand(CloseVerb + sep1 + id + sep2 + oper + trail) == Some(OperCommand(Closed, id, oper))
  {
    VerbsAreWords();
    CommandTokens(CloseVerb, id, oper, sep1, sep2, trail);
  }

  /** "!open <id> <oper>" reopens the ticket. */
  lemma OpenRoundTrip(id: string, oper: string, sep1: string, sep2: string, trail: string)
    requires IsWord(id) && IsWord(oper)
    requires IsSeparator(sep1) && IsSeparator(sep2) && AllSpace(trail)
    ensures ParseOperCommand(OpenVerb + sep1 + id + sep2 + oper + trail) == Some(OperCommand(Open, id, oper))
  {
    VerbsAreWords();
    CommandTokens(OpenVerb, id, oper, sep1, sep2, trail);
  }

  /** A verb that only begins with "!close", such as "!closed", sets OPEN, not CLOSED. */
  lemma LongerCloseVerbOpens(tail: string, id: string, oper: string, sep1: string, sep2: string, trail: string)
    requires IsWord(tail) && IsWord(id) && IsWord(oper)
    requires IsSeparator(sep1) && IsSeparator(sep2) && AllSpace(trail)
    ensures ParseOperCommand(CloseVerb + tail + sep1 + id + sep2 + oper + trail) == Some(OperCommand(Open, id, oper))
  {
    var verb := CloseVerb + tail;
    assert IsWord(verb) by {
      forall i | 0 <= i < |verb| ensures !IsSpace(verb[i]) {
        if i >= |CloseVerb| { assert verb[i] == tail[i - |CloseVerb|]; }
      }
    }
    assert |verb| > |CloseVerb|;
    CommandTokens(verb, id, oper, sep1, sep2, trail);
    var m := verb + sep1 + id + sep2 + oper + trail;
    assert m[..|CloseVerb|] == verb[..|CloseVerb|] == CloseVerb;
  }

  // ---------------------------------------------------------------------
  // CTCP (on_ctcp)
  // ---------------------------------------------------------------------

  const VersionReply: string := "VERSION: HelpBot with ticket support v.1.0"
  const PongPrefix: string := "PONG "

  /**
   * The reply to a CTCP request whose arguments are `args` (the first is the
   * request name): the fixed identification string for VERSION, "PONG " and
   * the payload for a PING that carries one, and no reply otherwise.
   */
  function CtcpReply(args: seq<string>): (r: Option<string>)
    requires |args| > 0
    ensures r.Some? <==> args[0] == "VERSION" || (args[0] == "PING" && |args| > 1)
    ensures args[0] == "VERSION" ==> r == Some(VersionReply)
    ensures args[0] == "PING" && |args| > 1 ==>
      r.Some? && StartsWith(r.value, PongPrefix) && r.value[|PongPrefix|..] == args[1]
  {
    if args[0] == "VERSION" then Some(VersionReply)
    else if args[0] == "PING" then
      if |args| > 1 then Some(PongPrefix + args[1]) else None
    else None
  }

  /** A PING reply carries its payload verbatim: removing "PONG " gives back the probe. */
  lemma PingEchoes(payload: string, extra: seq<string>)
    ensures CtcpReply(["PING", payload] + extra) == Some(PongPrefix + payload)
  {
    var args := ["PING", payload] + extra;
    assert args[0] == "PING" && args[1] == payload;
  }
}
