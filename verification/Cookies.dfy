/** The quoting of cookie values. */
module Cookies {
  import opened Options

  predicate IsLegal(c: char) {
    'a' <= c <= 'z' || 'A' <= c <= 'Z' || '0' <= c <= '9' || c in "!#$%&'*+-.^_`|~:"
  }

  predicate IsUnescaped(c: char) {
    IsLegal(c) || c in " ()/<=>?@[]{}"
  }

  function OctalDigit(n: nat): char
    requires n < 8
  {
    '0' + n as char
  }

  /** What `_Translator` makes of a character. */
  function Escape(c: char): string {
    if c == '"' then "\\\""
    else if c == '\\' then "\\\\"
    else if c as int >= 256 || IsUnescaped(c) then [c]
    else ['\\', OctalDigit(c as int / 64), OctalDigit(c as int / 8 % 8), OctalDigit(c as int % 8)]
  }

  function Translate(s: string): string {
    if s == "" then "" else Escape(s[0]) + Translate(s[1..])
  }

  predicate IsLegalKey(s: string) {
    s != "" && forall i :: 0 <= i < |s| ==> IsLegal(s[i])
  }

  /** `_quote` */
  function Quote(s: string): string {
    if IsLegalKey(s) then s else "\"" + Translate(s) + "\""
  }

  // --- The regular expressions ---

  predicate InRange(c: char, low: char, high: char) {
    low <= c <= high
  }

  /** `_OctalPatt` matches at the start of `s`. */
  predicate OctalMatches(s: string) {
    |s| >= 4 && s[0] == '\\' && InRange(s[1], '0', '3') && InRange(s[2], '0', '7') && InRange(s[3], '0', '7')
  }

  /** `_QuotePatt` matches at the start of `s`; a dot does not match a line feed. */
  predicate QuoteMatches(s: string) {
    |s| >= 2 && s[0] == '\\' && s[1] != '\n'
  }

  predicate Matches(s: string, octal: bool) {
    if octal then OctalMatches(s) else QuoteMatches(s)
  }

  /** Where `search` finds the first match of one of the two. */
  function Search(s: string, octal: bool): (r: Option<nat>)
    ensures Found(s, r, octal)
  {
    if s == "" then None
    else if Matches(s, octal) then assert s[0..] == s; Some(0)
    else
      var rest := Search(s[1..], octal);
      if rest.Some? then Some(rest.value + 1) else None
  }

  lemma {:induction false} SearchFindsFirst(s: string, octal: bool, i: nat)
    requires i < (if Search(s, octal).Some? then Search(s, octal).value else |s|)
    ensures !Matches(s[i..], octal)
  {
    if i == 0 {
      assert s[0..] == s;
    } else {
      SearchFindsFirst(s[1..], octal, i - 1);
      assert s[1..][i - 1..] == s[i..];
    }
  }

  function OctalValue(s: string): nat
    requires OctalMatches(s)
  {
    (s[1] as int - 48) * 64 + (s[2] as int - 48) * 8 + (s[3] as int - 48)
  }

  /** What one turn of the loop of `_unquote` appends to the result, and what it leaves of the string. */
  datatype Part = Part(text: string, rest: string)

  predicate Found(s: string, r: Option<nat>, octal: bool) {
    r.Some? ==> r.value < |s| && Matches(s[r.value..], octal)
  }

  function Cut(s: string, o: Option<nat>, q: Option<nat>): (p: Part)
    requires Found(s, o, true) && Found(s, q, false)
    ensures s != "" ==> |p.rest| < |s|
  {
    if o.None? && q.None? then Part(s, "")
    else if q.Some? && (o.None? || q.value < o.value) then
      Part(s[..q.value] + [s[q.value + 1]], s[q.value + 2..])
    else
      Part(s[..o.value] + [OctalValue(s[o.value..]) as char], s[o.value + 4..])
  }

  function Turn(s: string): (p: Part)
    ensures s != "" ==> |p.rest| < |s|
  {
    Cut(s, Search(s, true), Search(s, false))
  }

  function Unescape(s: string): string
    decreases |s|
  {
    if s == "" then "" else Turn(s).text + Unescape(Turn(s).rest)
  }

  /** `_unquote` */
  function Unquoted(s: string): string {
    if |s| < 2 || s[0] != '"' || s[|s| - 1] != '"' then s else Unescape(s[1..|s| - 1])
  }

  method Unquote(str: string) returns (r: string)
    ensures r == Unquoted(str)
  {
    if |str| < 2 {
      return str;
    }
    if str[0] != '"' || str[|str| - 1] != '"' {
      return str;
    }
    var s := str[1..|str| - 1];
    var i, n := 0, |s|;
    r := "";
    while 0 <= i < n
      invariant 0 <= i <= n && r + Unescape(s[i..]) == Unescape(s)
      decreases n - i
    {
      LoopTurns(r, s, i);
      var text, next := UnquoteOne(s, i);
      r, i := r + text, next;
    }
  }

  /** One turn of the loop: what it appends to the result, and where it goes on, which is the end of the string if
      neither expression matches. */
  method UnquoteOne(s: string, i: nat) returns (text: string, next: nat)
    requires i < |s|
    ensures i < next <= |s| && Turn(s[i..]) == Part(text, s[next..])
  {
    text, next := UnquoteMatch(s, i, Search(s[i..], true), Search(s[i..], false));
  }

  /** The same, when the two searches from `i` on have found `o` and `q`. */
  method UnquoteMatch(s: string, i: nat, o: Option<nat>, q: Option<nat>) returns (text: string, next: nat)
    requires i < |s| && Found(s[i..], o, true) && Found(s[i..], q, false)
    ensures i < next <= |s| && Cut(s[i..], o, q) == Part(text, s[next..])
  {
    if o.None? && q.None? {
      return s[i..], |s|;
    }
    var j, k := -1, -1;
    if o.Some? {
      j := i + o.value;
    }
    if q.Some? {
      k := i + q.value;
    }
    if q.Some? && (o.None? || k < j) {
      QuoteCut(s, i, k, o, q);
      return s[i..k] + [s[k + 1]], k + 2;
    }
    OctalCut(s, i, j, o, q);
    return s[i..j] + [OctalValue(s[j..]) as char], j + 4;
  }

  lemma QuoteCut(s: string, i: nat, k: int, o: Option<nat>, q: Option<nat>)
    requires i < |s| && Found(s[i..], o, true) && Found(s[i..], q, false)
    requires q.Some? && k == i + q.value && (o.None? || q.value < o.value)
    ensures k + 2 <= |s| && Cut(s[i..], o, q) == Part(s[i..k] + [s[k + 1]], s[k + 2..])
  {
    Slices(s, i, q.value, 2);
  }

  lemma OctalCut(s: string, i: nat, j: int, o: Option<nat>, q: Option<nat>)
    requires i < |s| && Found(s[i..], o, true) && Found(s[i..], q, false)
    requires o.Some? && j == i + o.value && !(q.Some? && q.value < o.value)
    ensures j + 4 <= |s| && OctalMatches(s[j..])
    ensures Cut(s[i..], o, q) == Part(s[i..j] + [OctalValue(s[j..]) as char], s[j + 4..])
  {
    Slices(s, i, o.value, 4);
  }

  /** The loop, one match on. */
  lemma LoopTurns(r: string, s: string, i: nat)
    requires i < |s|
    ensures r + Unescape(s[i..]) == r + Turn(s[i..]).text + Unescape(Turn(s[i..]).rest)
  {
    Regroup(r, Turn(s[i..]).text, Unescape(Turn(s[i..]).rest));
  }

  lemma Slices(s: string, i: nat, k: nat, n: nat)
    requires i + k + n <= |s|
    ensures s[i..][..k] == s[i..i + k] && s[i..][k..] == s[i + k..] && s[i..][k + n..] == s[i + k + n..]
  {
  }

  lemma Regroup(x: string, y: string, z: string)
    ensures x + (y + z) == x + y + z
  {
  }

  // --- The round trip ---

  function Shifted(r: Option<nat>): Option<nat> {
    if r.Some? then Some(r.value + 1) else None
  }

  lemma SearchAfter(c: char, s: string, octal: bool)
    requires !QuoteMatches([c] + s)
    ensures Search([c] + s, octal) == Shifted(Search(s, octal))
  {
    assert ([c] + s)[1..] == s;
  }

  lemma DropAfter(c: char, s: string, i: nat)
    requires i <= |s|
    ensures ([c] + s)[i + 1..] == s[i..] && ([c] + s)[..i + 1] == [c] + s[..i]
  {
  }

  lemma CutAfter(c: char, s: string, o: Option<nat>, q: Option<nat>)
    requires Found(s, o, true) && Found(s, q, false)
    requires Found([c] + s, Shifted(o), true) && Found([c] + s, Shifted(q), false)
    ensures Cut([c] + s, Shifted(o), Shifted(q)) == Part([c] + Cut(s, o, q).text, Cut(s, o, q).rest)
  {
    if q.Some? && (o.None? || q.value < o.value) {
      CutQuoteAfter(c, s, q.value);
    } else if o.Some? {
      CutOctalAfter(c, s, o.value);
    }
  }

  lemma CutOctalAfter(c: char, s: string, j: nat)
    requires j < |s| && OctalMatches(s[j..])
    ensures ([c] + s)[j + 1..] == s[j..] && ([c] + s)[j + 5..] == s[j + 4..]
    ensures ([c] + s)[..j + 1] + [OctalValue(s[j..]) as char] == [c] + (s[..j] + [OctalValue(s[j..]) as char])
  {
    DropAfter(c, s, j);
    DropAfter(c, s, j + 4);
    Regroup([c], s[..j], [OctalValue(s[j..]) as char]);
  }

  lemma CutQuoteAfter(c: char, s: string, k: nat)
    requires k + 1 < |s|
    ensures ([c] + s)[..k + 1] + [([c] + s)[k + 2]] == [c] + (s[..k] + [s[k + 1]])
    ensures ([c] + s)[k + 3..] == s[k + 2..]
  {
  }

  lemma TurnAfter(c: char, s: string)
    requires !QuoteMatches([c] + s)
    ensures Turn([c] + s) == Part([c] + Turn(s).text, Turn(s).rest)
  {
    SearchAfter(c, s, true);
    SearchAfter(c, s, false);
    CutAfter(c, s, Search(s, true), Search(s, false));
  }

  /** A character that begins no match stands for itself. */
  lemma PlainFirst(c: char, s: string)
    requires !QuoteMatches([c] + s)
    ensures Unescape([c] + s) == [c] + Unescape(s)
  {
    TurnAfter(c, s);
    Regroup([c], Turn(s).text, Unescape(Turn(s).rest));
  }

  lemma QuoteFirst(c: char, s: string)
    requires c == '"' || c == '\\'
    ensures Unescape(['\\', c] + s) == [c] + Unescape(s)
  {
    var t := ['\\', c] + s;
    assert QuoteMatches(t) && !OctalMatches(t);
    assert t[0..] == t && t[2..] == s;
  }

  lemma DigitsOf(n: nat)
    requires n < 256
    ensures n / 64 < 4 && n / 64 * 64 + n / 8 % 8 * 8 + n % 8 == n
  {
  }

  lemma OctalTurn(a: nat, b: nat, d: nat, s: string)
    requires a < 4 && b < 8 && d < 8
    ensures Turn(['\\', OctalDigit(a), OctalDigit(b), OctalDigit(d)] + s) == Part([(a * 64 + b * 8 + d) as char], s)
  {
    var t := ['\\', OctalDigit(a), OctalDigit(b), OctalDigit(d)] + s;
    assert OctalMatches(t) && QuoteMatches(t);
    assert t[0..] == t && t[4..] == s;
  }

  /** The text read from left to right, one character or escape at a time. */
  function Scan(s: string): string {
    if s == "" then ""
    else if OctalMatches(s) then [OctalValue(s) as char] + Scan(s[4..])
    else if QuoteMatches(s) then [s[1]] + Scan(s[2..])
    else [s[0]] + Scan(s[1..])
  }

  lemma TurnAtMatch(s: string)
    requires QuoteMatches(s)
    ensures Turn(s) == if OctalMatches(s) then Part([OctalValue(s) as char], s[4..]) else Part([s[1]], s[2..])
  {
    assert s[0..] == s && s[..0] == "";
  }

  /** The two searches of each turn find what a scan from left to right does, in every string. */
  lemma {:induction false} UnescapeScans(s: string)
    ensures Unescape(s) == Scan(s)
    decreases |s|
  {
    if s != "" {
      if QuoteMatches(s) {
        TurnAtMatch(s);
        UnescapeScans(Turn(s).rest);
      } else {
        assert [s[0]] + s[1..] == s;
        PlainFirst(s[0], s[1..]);
        UnescapeScans(s[1..]);
      }
    }
  }

  /** A character stays as it is, or is escaped by a backslash alone, or by a backslash and three octal digits, its code. */
  lemma EscapeIs(c: char)
    ensures Escape(c) == [c] <==> c as int >= 256 || IsUnescaped(c)
    ensures c == '"' || c == '\\' ==> Escape(c) == ['\\', c]
    ensures c as int < 256 && !IsUnescaped(c) && c != '"' && c != '\\' ==>
      |Escape(c)| == 4 && OctalMatches(Escape(c)) && OctalValue(Escape(c)) == c as int
  {
    if c as int < 256 {
      DigitsOf(c as int);
    }
  }

  /** What a character has become turns back into the character. */
  lemma EscapeFirst(c: char, s: string)
    ensures Unescape(Escape(c) + s) == [c] + Unescape(s)
  {
    if c == '"' || c == '\\' {
      QuoteFirst(c, s);
    } else if c as int >= 256 || IsUnescaped(c) {
      PlainFirst(c, s);
    } else {
      var n := c as int;
      DigitsOf(n);
      OctalTurn(n / 64, n / 8 % 8, n % 8, s);
    }
  }

  lemma {:induction false} TranslateUndone(s: string)
    ensures Unescape(Translate(s)) == s
  {
    if s != "" {
      TranslateUndone(s[1..]);
      EscapeFirst(s[0], Translate(s[1..]));
    }
  }

  /** Quoting is undone by unquoting, for every string. */
  lemma RoundTrip(s: string)
    ensures Unquoted(Quote(s)) == s
  {
    if IsLegalKey(s) {
      assert IsLegal(s[0]);
    } else {
      var q := "\"" + Translate(s) + "\"";
      assert q[1..|q| - 1] == Translate(s);
      TranslateUndone(s);
    }
  }

  lemma {:induction false} TranslateGrows(s: string)
    ensures |Translate(s)| >= |s|
  {
    if s != "" {
      TranslateGrows(s[1..]);
    }
  }

  /** Only legal keys go without quotation marks. */
  lemma QuotedUnlessLegal(s: string)
    ensures Quote(s) == s <==> s != "" && forall c :: c in s ==> IsLegal(c)
    ensures Quote(s) != s ==> Quote(s)[0] == '"' && Quote(s)[|Quote(s)| - 1] == '"' && |Quote(s)| >= |s| + 2
  {
    TranslateGrows(s);
    if s != "" && forall c :: c in s ==> IsLegal(c) {
      assert forall i :: 0 <= i < |s| ==> s[i] in s;
    }
  }

  /** So that no two strings are quoted alike. */
  lemma QuoteInjective(s: string, t: string)
    requires Quote(s) == Quote(t)
    ensures s == t
  {
    RoundTrip(s);
    RoundTrip(t);
  }

  /** What may follow a cookie's name in a header: no separator, control character or other byte outside ASCII. */
  predicate IsSafe(c: char) {
    c as int >= 256 || (32 <= c as int < 127 && c != ';' && c != ',')
  }

  lemma EscapeSafe(c: char)
    ensures forall i :: 0 <= i < |Escape(c)| ==> IsSafe(Escape(c)[i])
  {
  }

  lemma {:induction false} TranslateSafe(s: string)
    ensures forall i :: 0 <= i < |Translate(s)| ==> IsSafe(Translate(s)[i])
  {
    if s != "" {
      TranslateSafe(s[1..]);
      EscapeSafe(s[0]);
    }
  }

  lemma QuoteSafe(s: string)
    ensures forall i :: 0 <= i < |Quote(s)| ==> IsSafe(Quote(s)[i])
  {
    TranslateSafe(s);
  }
}
