/**
 * HelpBot.generate_ticket_id: a prefix followed by `length` characters drawn
 * from string.ascii_uppercase + string.digits. The random draws are an input:
 * `picks[i]` is the index into the alphabet that random.choice returned for
 * the i-th character.
 */
module TicketId {

  const UppercaseLetters: string := "ABCDEFGHIJKLMNOPQRSTUVWXYZ"
  const Digits: string := "0123456789"
  /** The 36 characters a ticket id suffix is drawn from. */
  const Alphabet: string := UppercaseLetters + Digits

  const DefaultPrefix: string := "ID"
  const DefaultLength: nat := 8

  predicate IsIdChar(c: char) {
    ('A' <= c <= 'Z') || ('0' <= c <= '9')
  }

  /** A sequence of draws random.choice can make: every pick indexes the alphabet. */
  predicate ValidPicks(picks: seq<nat>) {
    forall i :: 0 <= i < |picks| ==> picks[i] < |Alphabet|
  }

  lemma AlphabetChars()
    ensures |Alphabet| == 36
    ensures forall k :: 0 <= k < |Alphabet| ==> IsIdChar(Alphabet[k])
  {
    assert |Alphabet| == 36;
    forall k | 0 <= k < 36 ensures IsIdChar(Alphabet[k]) {
      if k < 26 {
        assert Alphabet[k] == UppercaseLetters[k];
      } else {
        assert Alphabet[k] == Digits[k - 26];
      }
    }
  }

  /** The characters chosen by the draws, in order. */
  function Draw(picks: seq<nat>): (r: string)
    requires ValidPicks(picks)
    ensures |r| == |picks|
    ensures forall i :: 0 <= i < |r| ==> IsIdChar(r[i])
  {
    AlphabetChars();
    if picks == [] then [] else [Alphabet[picks[0]]] + Draw(picks[1..])
  }

  /** prefix + ''.join(random.choice(characters) for i in range(length)) */
  function GenerateTicketId(prefix: string, length: nat, picks: seq<nat>): (id: string)
    requires |picks| == length && ValidPicks(picks)
    ensures |id| == |prefix| + length
    ensures id[..|prefix|] == prefix
    ensures forall i :: |prefix| <= i < |id| ==> IsIdChar(id[i])
  {
    prefix + Draw(picks)
  }

  /** The shape of every id the bot generates with its defaults: "ID" and eight id characters. */
  predicate IsTicketId(id: string) {
    && |id| == |DefaultPrefix| + DefaultLength
    && id[..|DefaultPrefix|] == DefaultPrefix
    && forall i :: |DefaultPrefix| <= i < |id| ==> IsIdChar(id[i])
  }

  /** The alphabet position of an id character. */
  function IndexOf(c: char): (k: nat)
    requires IsIdChar(c)
    ensures k < |Alphabet| && Alphabet[k] == c
  {
    AlphabetChars();
    if 'A' <= c <= 'Z' then
      var k := c as int - 'A' as int;
      assert Alphabet[k] == UppercaseLetters[k];
      k
    else
      var k := c as int - '0' as int;
      assert Alphabet[26 + k] == Digits[k];
      26 + k
  }

  /** The draws that spell the given suffix. */
  function PicksFor(suffix: string): (picks: seq<nat>)
    requires forall i :: 0 <= i < |suffix| ==> IsIdChar(suffix[i])
    ensures |picks| == |suffix| && ValidPicks(picks)
  {
    if suffix == [] then [] else [IndexOf(suffix[0])] + PicksFor(suffix[1..])
  }

  /** Every prefix followed by id characters is an id some draws produce. */
  lemma {:induction false} DrawPicksFor(suffix: string)
    requires forall i :: 0 <= i < |suffix| ==> IsIdChar(suffix[i])
    ensures Draw(PicksFor(suffix)) == suffix
  {
    if suffix != [] {
      var p := PicksFor(suffix);
      assert p[1..] == PicksFor(suffix[1..]);
      DrawPicksFor(suffix[1..]);
      assert suffix == [suffix[0]] + suffix[1..];
    }
  }

  lemma EveryIdReachable(prefix: string, suffix: string)
    requires forall i :: 0 <= i < |suffix| ==> IsIdChar(suffix[i])
    ensures GenerateTicketId(prefix, |suffix|, PicksFor(suffix)) == prefix + suffix
  {
    DrawPicksFor(suffix);
  }

  /** Different draws give different ids: the 36 alphabet characters are distinct. */
  lemma {:induction false} DrawInjective(p: seq<nat>, q: seq<nat>)
    requires ValidPicks(p) && ValidPicks(q) && |p| == |q|
    requires Draw(p) == Draw(q)
    ensures p == q
  {
    if p != [] {
      var a, b := p[0], q[0];
      assert Alphabet[a] == Draw(p)[0] == Draw(q)[0] == Alphabet[b];
      assert IndexOf(Alphabet[a]) == a by { AlphabetIndex(a); }
      assert IndexOf(Alphabet[b]) == b by { AlphabetIndex(b); }
      assert Draw(p)[1..] == Draw(p[1..]);
      assert Draw(q)[1..] == Draw(q[1..]);
      DrawInjective(p[1..], q[1..]);
      assert p == [a] + p[1..] && q == [b] + q[1..];
    }
  }

  lemma AlphabetIndex(k: nat)
    requires k < |Alphabet|
    ensures IsIdChar(Alphabet[k]) && IndexOf(Alphabet[k]) == k
  {
    AlphabetChars();
    if k < 26 {
      assert Alphabet[k] == UppercaseLetters[k];
    } else {
      assert Alphabet[k] == Digits[k - 26];
    }
  }

  /** With the defaults, every generated id has the ticket id shape. */
  lemma DefaultIdShape(picks: seq<nat>)
    requires |picks| == DefaultLength && ValidPicks(picks)
    ensures IsTicketId(GenerateTicketId(DefaultPrefix, DefaultLength, picks))
  {
  }
}
