/**
 * Character-level helpers of the help bot: the input sanitiser
 * (HelpBot.sanitize_input), nickname lowercasing (irc.strings.lower) and the
 * command tokeniser (Python's str.startswith and the argument-less str.split).
 */
module Text {

  // ---------------------------------------------------------------------
  // Sanitiser: re.sub(r'[^a-zA-Z0-9 .,!?;:@]', '', s)
  // ---------------------------------------------------------------------

  /** The characters the sanitiser keeps: ASCII letters, digits, space and .,!?;:@ */
  predicate IsSafeChar(c: char) {
    || ('a' <= c <= 'z')
    || ('A' <= c <= 'Z')
    || ('0' <= c <= '9')
    || c == ' ' || c == '.' || c == ',' || c == '!'
    || c == '?' || c == ';' || c == ':' || c == '@'
  }

  predicate AllSafe(s: string) {
    forall i :: 0 <= i < |s| ==> IsSafeChar(s[i])
  }

  /** Deletes every character outside the safe set, keeping the order of the rest. */
  function Sanitize(s: string): (r: string)
    ensures |r| <= |s|
    ensures AllSafe(r)
  {
    if s == [] then []
    else (if IsSafeChar(s[0]) then [s[0]] else []) + Sanitize(s[1..])
  }

  /** Sanitising a concatenation sanitises each part: deletion is character by character. */
  lemma {:induction false} SanitizeConcat(a: string, b: string)
    ensures Sanitize(a + b) == Sanitize(a) + Sanitize(b)
  {
    if a == [] {
      assert a + b == b;
    } else {
      assert (a + b)[0] == a[0];
      assert (a + b)[1..] == a[1..] + b;
      SanitizeConcat(a[1..], b);
    }
  }

  /** A safe character survives exactly as often as it occurs; every other character vanishes. */
  lemma {:induction false} SanitizeCounts(s: string, c: char)
    ensures multiset(Sanitize(s))[c] == if IsSafeChar(c) then multiset(s)[c] else 0
  {
    if s != [] {
      SanitizeCounts(s[1..], c);
      assert s == [s[0]] + s[1..];
      assert multiset(s) == multiset([s[0]]) + multiset(s[1..]);
    }
  }

  /** The sanitiser leaves a string unchanged exactly when it is already safe. */
  lemma {:induction false} SanitizeFixpoint(s: string)
    ensures Sanitize(s) == s <==> AllSafe(s)
  {
    if s != [] {
      SanitizeFixpoint(s[1..]);
      if !IsSafeChar(s[0]) {
        // The result is shorter than the input, so it cannot equal it.
        assert |Sanitize(s)| <= |s[1..]| < |s|;
      } else {
        assert AllSafe(s) <==> AllSafe(s[1..]);
        assert Sanitize(s) == [s[0]] + Sanitize(s[1..]);
        assert s == [s[0]] + s[1..];
      }
    }
  }

  /** Sanitising twice is the same as sanitising once. */
  lemma SanitizeIdempotent(s: string)
    ensures Sanitize(Sanitize(s)) == Sanitize(s)
  {
    SanitizeFixpoint(Sanitize(s));
  }

  /** '!' is in the kept set, so a request ending in "!!" is stored with them. */
  lemma SanitizeKeepsBang()
    ensures Sanitize("my printer is broken!!") == "my printer is broken!!"
  {
    var s := "my printer is broken!!";
    assert |s| == 22;
    assert AllSafe(s);
    SanitizeFixpoint(s);
  }

  // ---------------------------------------------------------------------
  // Nickname lowercasing: irc.strings.lower, taken as ASCII lowercasing
  // ---------------------------------------------------------------------

  function LowerChar(c: char): char {
    if 'A' <= c <= 'Z' then (c as int + 32) as char else c
  }

  predicate IsLowerCase(s: string) {
    forall i :: 0 <= i < |s| ==> !('A' <= s[i] <= 'Z')
  }

  /** The nickname with every ASCII capital replaced by its small letter. */
  function Lower(s: string): (r: string)
    ensures |r| == |s|
    ensures IsLowerCase(r)
    ensures forall i :: 0 <= i < |s| ==> (r[i] == s[i] || 'A' <= s[i] <= 'Z')
    ensures forall i :: 0 <= i < |s| && 'A' <= s[i] <= 'Z' ==>
      r[i] == "abcdefghijklmnopqrstuvwxyz"[s[i] as int - 'A' as int]
  {
    seq(|s|, i requires 0 <= i < |s| => LowerChar(s[i]))
  }

  /** Lowercasing fixes exactly the strings without capitals, so it is idempotent. */
  lemma LowerFixpoint(s: string)
    ensures Lower(s) == s <==> IsLowerCase(s)
  {
    if IsLowerCase(s) {
      assert forall i :: 0 <= i < |s| ==> Lower(s)[i] == s[i];
    }
  }

  lemma LowerIdempotent(s: string)
    ensures Lower(Lower(s)) == Lower(s)
  {
    LowerFixpoint(Lower(s));
  }

  // ---------------------------------------------------------------------
  // Tokeniser: str.startswith and the argument-less str.split()
  // ---------------------------------------------------------------------

  predicate StartsWith(s: string, prefix: string) {
    |prefix| <= |s| && s[..|prefix|] == prefix
  }

  /**
   * The characters for which Python's str.isspace() holds, by code point:
   * the ASCII controls 9-13 and 28-31, space, NEL, no-break space and the
   * Unicode space separators and line/paragraph separators.
   */
  predicate IsSpace(c: char) {
    var n := c as int;
    || (9 <= n <= 13) || (28 <= n <= 32)
    || n == 0x85 || n == 0xA0 || n == 0x1680
    || (0x2000 <= n <= 0x200A)
    || n == 0x2028 || n == 0x2029 || n == 0x202F || n == 0x205F || n == 0x3000
  }

  /** A token of str.split(): non-empty and free of whitespace. */
  predicate IsWord(w: string) {
    |w| > 0 && forall i :: 0 <= i < |w| ==> !IsSpace(w[i])
  }

  /** Length of the longest whitespace-free prefix of s. */
  function WordLength(s: string): (n: nat)
    ensures n <= |s|
    ensures forall i :: 0 <= i < n ==> !IsSpace(s[i])
    ensures n < |s| ==> IsSpace(s[n])
  {
    if s == [] || IsSpace(s[0]) then 0 else 1 + WordLength(s[1..])
  }

  /** str.split(): the maximal whitespace-free runs of s, in order. */
  function Split(s: string): (r: seq<string>)
    ensures forall i :: 0 <= i < |r| ==> IsWord(r[i])
    decreases |s|
  {
    if s == [] then []
    else if IsSpace(s[0]) then Split(s[1..])
    else
      var n := WordLength(s);
      [s[..n]] + Split(s[n..])
  }

  /** The words joined with one space between neighbours: the shape of a typed command. */
  function JoinWords(ws: seq<string>): string {
    if ws == [] then []
    else if |ws| == 1 then ws[0]
    else ws[0] + " " + JoinWords(ws[1..])
  }

  lemma {:induction false} WordLengthOfWord(w: string, rest: string)
    requires forall i :: 0 <= i < |w| ==> !IsSpace(w[i])
    requires rest == [] || IsSpace(rest[0])
    ensures WordLength(w + rest) == |w|
  {
    if w != [] {
      assert (w + rest)[1..] == w[1..] + rest;
      WordLengthOfWord(w[1..], rest);
    } else {
      assert w + rest == rest;
    }
  }

  /** Splitting the words joined by single spaces gives the words back. */
  lemma {:induction false} SplitJoinWords(ws: seq<string>)
    requires forall i :: 0 <= i < |ws| ==> IsWord(ws[i])
    ensures Split(JoinWords(ws)) == ws
  {
    if ws == [] {
    } else if |ws| == 1 {
      var w := ws[0];
      WordLengthOfWord(w, []);
      assert w + [] == w;
      assert w[..|w|] == w && w[|w|..] == [];
    } else {
      var w, rest := ws[0], JoinWords(ws[1..]);
      var s := w + " " + rest;
      assert s == w + (" " + rest);
      WordLengthOfWord(w, " " + rest);
      assert s[..|w|] == w;
      assert s[|w|..] == " " + rest;
      assert (" " + rest)[1..] == rest;
      SplitJoinWords(ws[1..]);
      assert ws == [w] + ws[1..];
    }
  }

  /** A string made of whitespace only (possibly empty). */
  predicate AllSpace(s: string) {
    forall i :: 0 <= i < |s| ==> IsSpace(s[i])
  }

  /** What str.split() accepts between two tokens: one or more whitespace characters. */
  predicate IsSeparator(s: string) {
    |s| > 0 && AllSpace(s)
  }

  /** Leading whitespace, of any kind and length, produces no token. */
  lemma {:induction false} SplitLeadingSpace(sp: string, s: string)
    requires AllSpace(sp)
    ensures Split(sp + s) == Split(s)
  {
    if sp != [] {
      assert (sp + s)[0] == sp[0];
      assert (sp + s)[1..] == sp[1..] + s;
      SplitLeadingSpace(sp[1..], s);
    } else {
      assert sp + s == s;
    }
  }

  /** A word followed by any non-empty run of whitespace is one whole token. */
  lemma SplitWordThen(w: string, sp: string, s: string)
    requires IsWord(w) && IsSeparator(sp)
    ensures Split(w + (sp + s)) == [w] + Split(s)
  {
    var t := w + (sp + s);
    WordLengthOfWord(w, sp + s);
    assert t[..|w|] == w;
    assert t[|w|..] == sp + s;
    SplitLeadingSpace(sp, s);
  }

  /** A word followed only by whitespace (possibly none) splits into just that word. */
  lemma SplitWordTrail(w: string, trail: string)
    requires IsWord(w) && AllSpace(trail)
    ensures Split(w + trail) == [w]
  {
    if trail == [] {
      assert w + trail == w;
      SplitJoinWords([w]);
    } else {
      assert trail + [] == trail;
      SplitWordThen(w, trail, []);
    }
  }

  /** Two words with any separator and any trailing whitespace split into those two words. */
  lemma SplitTwo(a: string, b: string, sep: string, trail: string)
    requires IsWord(a) && IsWord(b) && IsSeparator(sep) && AllSpace(trail)
    ensures Split(a + sep + b + trail) == [a, b]
  {
    assert a + sep + b + trail == a + (sep + (b + trail));
    SplitWordThen(a, sep, b + trail);
    SplitWordTrail(b, trail);
  }

  /** Three words with any separators and any trailing whitespace split into those three words. */
  lemma SplitThree(a: string, b: string, c: string, sep1: string, sep2: string, trail: string)
    requires IsWord(a) && IsWord(b) && IsWord(c)
    requires IsSeparator(sep1) && IsSeparator(sep2) && AllSpace(trail)
    ensures Split(a + sep1 + b + sep2 + c + trail) == [a, b, c]
  {
    var rest := b + sep2 + c + trail;
    SplitTwo(b, c, sep2, trail);
    SplitWordThen(a, sep1, rest);
    SeqAssoc3(a, sep1, rest);
    assert a + sep1 + b + sep2 + c + trail == a + sep1 + rest by {
      var x := a + sep1;
      SeqAssoc3(x, b, sep2);
      SeqAssoc3(x, b + sep2, c);
      SeqAssoc3(x, b + sep2 + c, trail);
    }
    assert [a] + [b, c] == [a, b, c];
  }

  lemma SeqAssoc3(x: string, y: string, z: string)
    ensures x + y + z == x + (y + z)
  {
  }

  /** All characters of the tokens, in order. */
  function Concat(ws: seq<string>): string {
    if ws == [] then [] else ws[0] + Concat(ws[1..])
  }

  /** The input with every whitespace character deleted. */
  function DropSpaces(s: string): string {
    if s == [] then [] else (if IsSpace(s[0]) then [] else [s[0]]) + DropSpaces(s[1..])
  }

  lemma {:induction false} DropSpacesConcat(a: string, b: string)
    ensures DropSpaces(a + b) == DropSpaces(a) + DropSpaces(b)
  {
    if a == [] {
      assert a + b == b;
    } else {
      assert (a + b)[0] == a[0];
      assert (a + b)[1..] == a[1..] + b;
      DropSpacesConcat(a[1..], b);
    }
  }

  lemma {:induction false} DropSpacesOfWord(w: string)
    requires forall i :: 0 <= i < |w| ==> !IsSpace(w[i])
    ensures DropSpaces(w) == w
  {
    if w != [] {
      DropSpacesOfWord(w[1..]);
      assert w == [w[0]] + w[1..];
    }
  }

  /** split() loses only whitespace: its tokens, put together, are the input without whitespace. */
  lemma {:induction false} SplitKeepsNonSpace(s: string)
    ensures Concat(Split(s)) == DropSpaces(s)
    decreases |s|
  {
    if s == [] {
    } else if IsSpace(s[0]) {
      SplitKeepsNonSpace(s[1..]);
    } else {
      var n := WordLength(s);
      assert s == s[..n] + s[n..];
      DropSpacesConcat(s[..n], s[n..]);
      DropSpacesOfWord(s[..n]);
      SplitKeepsNonSpace(s[n..]);
      var r := [s[..n]] + Split(s[n..]);
      assert r[0] == s[..n] && r[1..] == Split(s[n..]);
    }
  }

  /** A message that starts with a non-space character has that character at the head of its first token. */
  lemma SplitFirstWordIsPrefix(s: string)
    requires s != [] && !IsSpace(s[0])
    ensures |Split(s)| > 0 && StartsWith(s, Split(s)[0])
  {
  }
}
