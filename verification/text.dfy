/** The JavaScript string primitives the application relies on, written out
    over `seq<char>`: ASCII lower-casing, `includes`, `trim`, `split` and
    `join` with a one-character separator, integer rendering, and the
    two-decimal rendering `toFixed(2)` of an amount held in cents. */
module Text {
  import opened Wrappers

  // ---------------------------------------------------------------------
  // Lower-casing (ASCII letters only)
  // ---------------------------------------------------------------------

  function LowerChar(c: char): char {
    if 'A' <= c <= 'Z' then (c as int + 32) as char else c
  }

  /** `toLowerCase`, restricted to the ASCII letters. */
  function Lower(s: string): string {
    seq(|s|, i requires 0 <= i < |s| => LowerChar(s[i]))
  }

  predicate HasNoUpper(s: string) {
    forall i :: 0 <= i < |s| ==> !('A' <= s[i] <= 'Z')
  }

  /** Lower-casing keeps the length, leaves no upper-case letter behind and
      is idempotent, so a term lower-cased twice matches like one lower-cased once. */
  lemma LowerFacts(s: string)
    ensures |Lower(s)| == |s|
    ensures HasNoUpper(Lower(s))
    ensures Lower(Lower(s)) == Lower(s)
  {
  }

  // ---------------------------------------------------------------------
  // Substring search
  // ---------------------------------------------------------------------

  predicate StartsWith(s: string, prefix: string) {
    |prefix| <= |s| && s[..|prefix|] == prefix
  }

  /** `haystack.includes(needle)`, by trying every start position in turn. */
  predicate Includes(haystack: string, needle: string)
    decreases |haystack|
  {
    StartsWith(haystack, needle) || (|haystack| > 0 && Includes(haystack[1..], needle))
  }

  /** The needle occurs in the haystack at position i. */
  ghost predicate OccursAt(haystack: string, needle: string, i: int) {
    0 <= i && i + |needle| <= |haystack| && haystack[i..i + |needle|] == needle
  }

  /** `Includes` agrees with the positional definition of a substring, in both directions. */
  lemma {:induction false} IncludesIff(haystack: string, needle: string)
    ensures Includes(haystack, needle) <==> exists i :: OccursAt(haystack, needle, i)
    decreases |haystack|
  {
    if StartsWith(haystack, needle) {
      assert OccursAt(haystack, needle, 0);
    } else if |haystack| > 0 {
      var tail := haystack[1..];
      IncludesIff(tail, needle);
      if Includes(tail, needle) {
        var i :| OccursAt(tail, needle, i);
        assert haystack[i + 1..i + 1 + |needle|] == tail[i..i + |needle|];
        assert OccursAt(haystack, needle, i + 1);
      }
      if i :| OccursAt(haystack, needle, i) {
        assert i != 0;
        assert tail[i - 1..i - 1 + |needle|] == haystack[i..i + |needle|];
        assert OccursAt(tail, needle, i - 1);
      }
    }
  }

  /** Every string includes the empty string. */
  lemma IncludesEmpty(haystack: string)
    ensures Includes(haystack, "")
  {
    assert StartsWith(haystack, "");
  }

  /** A string includes every string it is built around. */
  lemma IncludesInfix(before: string, needle: string, after: string)
    ensures Includes(before + needle + after, needle)
  {
    var h := before + needle + after;
    assert h[|before|..|before| + |needle|] == needle;
    assert OccursAt(h, needle, |before|);
    IncludesIff(h, needle);
  }

  // ---------------------------------------------------------------------
  // Whitespace and trim
  // ---------------------------------------------------------------------

  /** The characters JavaScript's `trim` removes: the WhiteSpace and
      LineTerminator productions of ECMAScript. */
  predicate IsWhitespace(c: char) {
    || c == ' ' || c == '\t' || c == '\n' || c == '\r'
    || c == '\U{0B}' || c == '\U{0C}' || c == '\U{A0}' || c == '\U{FEFF}'
    || c == '\U{1680}' || ('\U{2000}' <= c <= '\U{200A}')
    || c == '\U{2028}' || c == '\U{2029}' || c == '\U{202F}'
    || c == '\U{205F}' || c == '\U{3000}'
  }

  predicate AllWhitespace(s: string) {
    forall i :: 0 <= i < |s| ==> IsWhitespace(s[i])
  }

  /** Number of whitespace characters at the start of s. */
  function LeadingWhitespace(s: string): (k: nat)
    ensures k <= |s|
    ensures AllWhitespace(s[..k])
    ensures k == |s| || !IsWhitespace(s[k])
    decreases |s|
  {
    if |s| > 0 && IsWhitespace(s[0]) then
      var k := 1 + LeadingWhitespace(s[1..]);
      assert s[..k] == [s[0]] + s[1..][..k - 1];
      k
    else 0
  }

  /** Number of whitespace characters at the end of s. */
  function TrailingWhitespace(s: string): (k: nat)
    ensures k <= |s|
    ensures AllWhitespace(s[|s| - k..])
    ensures k < |s| ==> !IsWhitespace(s[|s| - 1 - k])
    decreases |s|
  {
    if |s| == 0 || !IsWhitespace(s[|s| - 1]) then 0
    else
      var j := TrailingWhitespace(s[..|s| - 1]);
      WhitespaceSuffixStep(s, j);
      j + 1
  }

  /** A whitespace suffix of s minus its last character grows by one when
      that last character is whitespace too. */
  lemma WhitespaceSuffixStep(s: string, j: nat)
    requires 0 < |s| && j < |s| && IsWhitespace(s[|s| - 1])
    requires AllWhitespace(s[..|s| - 1][|s| - 1 - j..])
    ensures AllWhitespace(s[|s| - (j + 1)..])
  {
    var t := s[|s| - (j + 1)..];
    forall i | 0 <= i < |t|
      ensures IsWhitespace(t[i])
    {
      if i < j {
        assert t[i] == s[..|s| - 1][|s| - 1 - j..][i];
      }
    }
  }

  /** No whitespace at either end. */
  predicate Trimmed(s: string) {
    |s| == 0 || (!IsWhitespace(s[0]) && !IsWhitespace(s[|s| - 1]))
  }

  /** `trim`: s without its leading and trailing whitespace. */
  function Trim(s: string): (r: string)
    ensures Trimmed(r)
    ensures LeadingWhitespace(s) + |r| <= |s|
    ensures r == s[LeadingWhitespace(s)..LeadingWhitespace(s) + |r|]
    ensures AllWhitespace(s[LeadingWhitespace(s) + |r|..])
  {
    var lead := LeadingWhitespace(s);
    var rest := s[lead..];
    var t := TrailingWhitespace(rest);
    var r := s[lead..|s| - t];
    assert |r| > 0 ==> r[|r| - 1] == rest[|rest| - t - 1];
    assert s[lead + |r|..] == rest[|rest| - t..];
    r
  }

  /** Whitespace padding around a string with non-blank ends is exactly what
      `trim` removes. */
  lemma TrimPadded(pre: string, core: string, post: string)
    requires AllWhitespace(pre) && AllWhitespace(post) && Trimmed(core)
    ensures Trim(pre + core + post) == core
  {
    var s := pre + core + post;
    if core == "" {
      assert AllWhitespace(s);
      TrimEmptyIff(s);
    } else {
      LeadingOfPadded(pre, core + post);
      assert s == pre + (core + post);
      var rest := s[|pre|..];
      assert rest == core + post;
      TrailingOfPadded(core, post);
    }
  }

  lemma {:induction false} LeadingOfPadded(pre: string, s: string)
    requires AllWhitespace(pre)
    requires |s| == 0 || !IsWhitespace(s[0])
    ensures LeadingWhitespace(pre + s) == |pre|
    decreases |pre|
  {
    if |pre| > 0 {
      assert (pre + s)[1..] == pre[1..] + s;
      LeadingOfPadded(pre[1..], s);
    }
  }

  lemma {:induction false} TrailingOfPadded(s: string, post: string)
    requires AllWhitespace(post)
    requires |s| == 0 || !IsWhitespace(s[|s| - 1])
    ensures TrailingWhitespace(s + post) == |post|
    decreases |post|
  {
    if |post| > 0 {
      assert (s + post)[..|s + post| - 1] == s + post[..|post| - 1];
      TrailingOfPadded(s, post[..|post| - 1]);
    }
  }

  /** Trimming a trimmed string changes nothing. */
  lemma TrimTrimmed(s: string)
    requires Trimmed(s)
    ensures Trim(s) == s
  {
    TrimPadded("", s, "");
    assert "" + s + "" == s;
  }

  lemma TrimIdempotent(s: string)
    ensures Trim(Trim(s)) == Trim(s)
  {
    TrimPadded("", Trim(s), "");
    assert "" + Trim(s) + "" == Trim(s);
  }

  /** A string trims to the empty string exactly when it is all whitespace. */
  lemma TrimEmptyIff(s: string)
    ensures Trim(s) == "" <==> AllWhitespace(s)
  {
    if Trim(s) == "" {
      EmptyTrimIsWhitespace(s);
    }
    if AllWhitespace(s) {
      assert LeadingWhitespace(s) == |s|;
    }
  }

  /** Only an all-whitespace string trims to nothing: the first character
      `trim` keeps would be a non-whitespace one. */
  lemma EmptyTrimIsWhitespace(s: string)
    requires Trim(s) == ""
    ensures AllWhitespace(s)
  {
    var lead := LeadingWhitespace(s);
    assert lead == |s|;
    assert s[..lead] == s;
  }

  // ---------------------------------------------------------------------
  // Join and split
  // ---------------------------------------------------------------------

  /** `parts.join(sep)`; the join of no parts is the empty string. */
  function Join(parts: seq<string>, sep: string): string
    decreases |parts|
  {
    if |parts| == 0 then ""
    else if |parts| == 1 then parts[0]
    else parts[0] + sep + Join(parts[1..], sep)
  }

  /** `s.split(sep)` for a one-character separator: the pieces between
      separators, at least one piece, none containing the separator, and
      joining them back gives s. */
  function Split(s: string, sep: char): (parts: seq<string>)
    ensures |parts| >= 1
    ensures forall i :: 0 <= i < |parts| ==> sep !in parts[i]
    ensures Join(parts, [sep]) == s
    decreases |s|
  {
    if |s| == 0 then [""]
    else
      var rest := Split(s[1..], sep);
      if s[0] == sep then
        assert ([""] + rest)[1..] == rest;
        [""] + rest
      else
        var parts := [[s[0]] + rest[0]] + rest[1..];
        assert parts[1..] == rest[1..];
        assert |rest| > 1 ==> Join(rest, [sep]) == rest[0] + [sep] + Join(rest[1..], [sep]);
        parts
  }

  /** A string without the separator splits into itself alone. */
  lemma {:induction false} SplitNoSeparator(s: string, sep: char)
    requires sep !in s
    ensures Split(s, sep) == [s]
    decreases |s|
  {
    if |s| > 0 {
      assert sep !in s[1..];
      SplitNoSeparator(s[1..], sep);
    }
  }

  /** Splitting stops at the first separator: the text before it is the
      first piece, the rest is split on its own. */
  lemma {:induction false} SplitAtFirst(head: string, sep: char, tail: string)
    requires sep !in head
    ensures Split(head + [sep] + tail, sep) == [head] + Split(tail, sep)
    decreases |head|
  {
    var s := head + [sep] + tail;
    if |head| == 0 {
      assert s[1..] == tail;
    } else {
      assert s[1..] == head[1..] + [sep] + tail;
      assert sep !in head[1..];
      SplitAtFirst(head[1..], sep, tail);
      assert [head[0]] + head[1..] == head;
    }
  }

  /** Split undoes Join when no part contains the separator. */
  lemma {:induction false} SplitJoin(parts: seq<string>, sep: char)
    requires |parts| >= 1
    requires forall i :: 0 <= i < |parts| ==> sep !in parts[i]
    ensures Split(Join(parts, [sep]), sep) == parts
    decreases |parts|
  {
    if |parts| == 1 {
      SplitNoSeparator(parts[0], sep);
    } else {
      SplitJoin(parts[1..], sep);
      SplitAtFirst(parts[0], sep, Join(parts[1..], [sep]));
      assert [parts[0]] + parts[1..] == parts;
    }
  }

  /** Joining two non-empty runs of parts puts one separator between their joins. */
  lemma {:induction false} JoinConcat(x: seq<string>, y: seq<string>, sep: string)
    requires |x| >= 1 && |y| >= 1
    ensures Join(x + y, sep) == Join(x, sep) + sep + Join(y, sep)
    decreases |x|
  {
    assert (x + y)[0] == x[0];
    if |x| == 1 {
      assert (x + y)[1..] == y;
    } else {
      assert (x + y)[1..] == x[1..] + y;
      JoinConcat(x[1..], y, sep);
    }
  }

  /** Joining a run of parts in place of its own join changes nothing. */
  lemma JoinFlatten(a: seq<string>, b: seq<string>, c: seq<string>, sep: string)
    requires |b| >= 1
    ensures Join(a + [Join(b, sep)] + c, sep) == Join(a + b + c, sep)
  {
    var jb := Join(b, sep);
    JoinFlattenFront(b, c, sep);
    if |a| >= 1 {
      assert a + [jb] + c == a + ([jb] + c);
      assert a + b + c == a + (b + c);
      JoinConcat(a, [jb] + c, sep);
      JoinConcat(a, b + c, sep);
    } else {
      assert a + [jb] + c == [jb] + c;
      assert a + b + c == b + c;
    }
  }

  /** The case of JoinFlatten with nothing before the joined parts. */
  lemma JoinFlattenFront(b: seq<string>, c: seq<string>, sep: string)
    requires |b| >= 1
    ensures Join([Join(b, sep)] + c, sep) == Join(b + c, sep)
  {
    if |c| >= 1 {
      JoinConcat(b, c, sep);
      JoinConcat([Join(b, sep)], c, sep);
    } else {
      assert [Join(b, sep)] + c == [Join(b, sep)];
      assert b + c == b;
    }
  }


  /** The join starts with the first part and ends with the last one. */
  lemma {:induction false} JoinEnds(parts: seq<string>, sep: string)
    requires |parts| >= 1
    ensures var j := Join(parts, sep);
      && |j| >= |parts[0]| && j[..|parts[0]|] == parts[0]
      && |j| >= |parts[|parts| - 1]| && j[|j| - |parts[|parts| - 1]|..] == parts[|parts| - 1]
    decreases |parts|
  {
    if |parts| > 1 {
      JoinEnds(parts[1..], sep);
      assert parts[1..][|parts[1..]| - 1] == parts[|parts| - 1];
    }
  }

  // ---------------------------------------------------------------------
  // Decimal rendering
  // ---------------------------------------------------------------------

  predicate IsDigit(c: char) {
    '0' <= c <= '9'
  }

  predicate AllDigits(s: string) {
    forall i :: 0 <= i < |s| ==> IsDigit(s[i])
  }

  function DigitChar(d: nat): (c: char)
    requires d < 10
    ensures IsDigit(c)
  {
    ('0' as int + d) as char
  }

  function DigitValue(c: char): nat
    requires IsDigit(c)
  {
    c as int - '0' as int
  }

  /** Decimal rendering of a non-negative integer (`n.toString()`): digits
      only, never empty, no leading zero. */
  function NatToString(n: nat): (r: string)
    ensures |r| >= 1
    ensures AllDigits(r)
    ensures |r| > 1 ==> r[0] != '0'
    decreases n
  {
    if n < 10 then [DigitChar(n)] else NatToString(n / 10) + [DigitChar(n % 10)]
  }

  /** The value of a string of decimal digits. */
  function DigitsValue(s: string): nat
    requires AllDigits(s)
    decreases |s|
  {
    if |s| == 0 then 0 else DigitsValue(s[..|s| - 1]) * 10 + DigitValue(s[|s| - 1])
  }

  /** Reading back the decimal rendering gives the number. */
  lemma {:induction false} NatToStringRoundTrip(n: nat)
    ensures DigitsValue(NatToString(n)) == n
    decreases n
  {
    if n >= 10 {
      var r := NatToString(n);
      NatToStringRoundTrip(n / 10);
      assert r[..|r| - 1] == NatToString(n / 10);
    }
  }

  /** The shape of a two-decimal amount: digits, a point, then exactly two digits. */
  predicate IsTwoDecimal(s: string) {
    |s| >= 4 && s[|s| - 3] == '.' && AllDigits(s[..|s| - 3]) && AllDigits(s[|s| - 2..])
  }

  /** The cents denoted by a two-decimal amount. */
  function ParseTwoDecimal(s: string): nat
    requires IsTwoDecimal(s)
  {
    DigitsValue(s[..|s| - 3]) * 100 + DigitsValue(s[|s| - 2..])
  }

  /** `(cents / 100).toFixed(2)` for a non-negative amount. */
  function FormatCents(cents: nat): (r: string)
    ensures IsTwoDecimal(r)
    ensures |r| > 4 ==> r[0] != '0'
  {
    var r := NatToString(cents / 100) + "." + [DigitChar(cents % 100 / 10), DigitChar(cents % 10)];
    assert r[..|r| - 3] == NatToString(cents / 100);
    r
  }

  /** Reading back the two-decimal rendering gives the cents: the rendering loses nothing. */
  lemma FormatCentsRoundTrip(cents: nat)
    ensures ParseTwoDecimal(FormatCents(cents)) == cents
  {
    var r := FormatCents(cents);
    assert r[..|r| - 3] == NatToString(cents / 100);
    NatToStringRoundTrip(cents / 100);
    var frac := r[|r| - 2..];
    assert frac == [DigitChar(cents % 100 / 10), DigitChar(cents % 10)];
    assert frac[..1] == [DigitChar(cents % 100 / 10)];
    assert DigitsValue(frac[..1]) == cents % 100 / 10 by {
      assert frac[..1][..0] == [];
    }
  }

  /** `toFixed(2)` of an amount in cents, signed: the magnitude in two
      decimals, reading back as the amount, behind a '-' exactly when the
      amount is negative. */
  function ToFixed2(cents: int): (r: string)
    ensures cents >= 0 ==> IsTwoDecimal(r) && ParseTwoDecimal(r) == cents
    ensures cents < 0 ==> |r| > 0 && r[0] == '-' && IsTwoDecimal(r[1..]) && ParseTwoDecimal(r[1..]) == -cents
    ensures cents >= 0 && |r| > 4 ==> r[0] != '0'
    ensures cents < 0 && |r| > 5 ==> r[1] != '0'
  {
    if cents < 0 then
      var r := "-" + FormatCents(-cents);
      assert r[1..] == FormatCents(-cents);
      FormatCentsRoundTrip(-cents);
      r
    else
      FormatCentsRoundTrip(cents);
      FormatCents(cents)
  }

  /** JavaScript's default rendering of an amount in cents (`${n}`): the
      shortest decimal, so trailing zero cents are dropped, as is the point
      when no cents remain. */
  function NumberToString(cents: int): (r: string)
    ensures StartsWith(ToFixed2(cents), r)
    ensures cents % 10 != 0 ==> r == ToFixed2(cents)
    ensures cents % 100 == 0 ==> '.' !in r
    ensures '.' in r ==> r[|r| - 1] != '0'
    ensures |r| > 0
    ensures cents >= 0 && r[0] == '0' ==> |r| == 1 || r[1] == '.'
    ensures cents < 0 ==> |r| > 1 && r[0] == '-' && (r[1] == '0' ==> |r| == 2 || r[2] == '.')
  {
    if cents < 0 then
      var r := "-" + NonNegativeNumberToString(-cents);
      NegatedDivisibility(cents);
      assert ToFixed2(cents) == "-" + FormatCents(-cents);
      assert ToFixed2(cents)[..|r|] == "-" + FormatCents(-cents)[..|r| - 1];
      r
    else NonNegativeNumberToString(cents)
  }

  /** A negative amount ends in zero cents, or in a zero cent digit, exactly
      when its magnitude does. */
  lemma NegatedDivisibility(cents: int)
    ensures cents % 10 == 0 <==> (-cents) % 10 == 0
    ensures cents % 100 == 0 <==> (-cents) % 100 == 0
  {
  }

  function NonNegativeNumberToString(cents: nat): (r: string)
    ensures StartsWith(FormatCents(cents), r)
    ensures cents % 10 != 0 ==> r == FormatCents(cents)
    ensures cents % 100 == 0 ==> '.' !in r
    ensures '.' in r ==> r[|r| - 1] != '0'
    ensures |r| > 0
    ensures r[0] == '0' ==> |r| == 1 || r[1] == '.'
  {
    var whole := NatToString(cents / 100);
    var f := FormatCents(cents);
    assert f[..|whole|] == whole;
    if cents % 100 == 0 then whole
    else if cents % 10 == 0 then
      assert f[..|whole| + 2] == whole + "." + [DigitChar(cents % 100 / 10)];
      whole + "." + [DigitChar(cents % 100 / 10)]
    else f
  }

  /** Reads an amount written as whole units with no, one or two decimals
      (`"87"`, `"87.5"`, `"87.50"`) back as cents; None for anything else. */
  function ReadAmount(s: string): Option<nat> {
    if |s| >= 1 && AllDigits(s) then Some(DigitsValue(s) * 100)
    else if |s| >= 3 && s[|s| - 2] == '.' && AllDigits(s[..|s| - 2]) && IsDigit(s[|s| - 1]) then
      Some(DigitsValue(s[..|s| - 2]) * 100 + DigitValue(s[|s| - 1]) * 10)
    else if IsTwoDecimal(s) then Some(ParseTwoDecimal(s))
    else None
  }

  /** The shortest rendering of a non-negative amount still denotes it. */
  lemma NumberToStringRoundTrip(cents: nat)
    ensures ReadAmount(NumberToString(cents)) == Some(cents)
  {
    assert NumberToString(cents) == NonNegativeNumberToString(cents);
    NonNegativeRoundTrip(cents);
  }

  /** The shortest rendering of a non-negative amount, in each of its three
      shapes, reads back as the amount. */
  lemma NonNegativeRoundTrip(cents: nat)
    ensures ReadAmount(NonNegativeNumberToString(cents)) == Some(cents)
  {
    var r := NonNegativeNumberToString(cents);
    var w := cents / 100;
    assert cents == w * 100 + cents % 100;
    if cents % 100 == 0 {
      assert r == NatToString(w);
      ReadWhole(w);
    } else if cents % 10 == 0 {
      var d := cents % 100 / 10;
      assert cents % 100 == d * 10;
      assert r == NatToString(w) + "." + [DigitChar(d)];
      ReadOneDecimal(w, d);
    } else {
      assert r == FormatCents(cents);
      ReadTwoDecimals(cents);
    }
  }

  /** A whole amount, written without a point, reads back. */
  lemma ReadWhole(w: nat)
    ensures ReadAmount(NatToString(w)) == Some(w * 100)
  {
    NatToStringRoundTrip(w);
  }

  /** An amount written with one decimal reads back. */
  lemma ReadOneDecimal(w: nat, d: nat)
    requires d < 10
    ensures ReadAmount(NatToString(w) + "." + [DigitChar(d)]) == Some(w * 100 + d * 10)
  {
    var whole := NatToString(w);
    var s := whole + "." + [DigitChar(d)];
    assert s[|whole|] == '.';
    assert s[..|s| - 2] == whole;
    NatToStringRoundTrip(w);
  }

  /** An amount written with two decimals reads back. */
  lemma ReadTwoDecimals(cents: nat)
    ensures ReadAmount(FormatCents(cents)) == Some(cents)
  {
    var s := FormatCents(cents);
    assert s[|s| - 3] == '.';
    assert IsDigit(s[|s| - 2]);
    FormatCentsRoundTrip(cents);
  }
}
