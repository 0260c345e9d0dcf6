/**
 * The JavaScript string operations the core relies on: `trim`, `includes`,
 * `Array.prototype.join`, the decimal rendering of an integer in a template
 * literal, and the first match of the regular expression `/\$\d+/`.
 */
module Strings {
  import opened Optional

  /** ECMAScript WhiteSpace and LineTerminator code points: what `String.prototype.trim` removes. */
  predicate IsWhitespace(c: char) {
    c == '\t' || c == '\n' || c == '\U{000B}' || c == '\U{000C}' || c == '\r' || c == ' '
    || c == '\U{00A0}' || c == '\U{1680}' || ('\U{2000}' <= c <= '\U{200A}')
    || c == '\U{2028}' || c == '\U{2029}' || c == '\U{202F}' || c == '\U{205F}'
    || c == '\U{3000}' || c == '\U{FEFF}'
  }

  /** Every character is whitespace: exactly the strings whose `trim()` is falsy. */
  predicate IsBlank(s: string) {
    forall i :: 0 <= i < |s| ==> IsWhitespace(s[i])
  }

  /** `\d` in a JavaScript regular expression: an ASCII digit. */
  predicate IsDigit(c: char) {
    '0' <= c <= '9'
  }

  /** Drops the leading whitespace: the rest is a suffix that starts with a non-whitespace character. */
  function TrimStart(s: string): (r: string)
    ensures |r| <= |s| && r == s[|s| - |r|..]
    ensures r == [] || !IsWhitespace(r[0])
    ensures forall i :: 0 <= i < |s| - |r| ==> IsWhitespace(s[i])
  {
    if s != [] && IsWhitespace(s[0]) then TrimStart(s[1..]) else s
  }

  /** Drops the trailing whitespace: the rest is a prefix that ends with a non-whitespace character. */
  function TrimEnd(s: string): (r: string)
    ensures |r| <= |s| && r == s[..|r|]
    ensures r == [] || !IsWhitespace(r[|r| - 1])
    ensures forall i :: |r| <= i < |s| ==> IsWhitespace(s[i])
  {
    if s != [] && IsWhitespace(s[|s| - 1]) then TrimEnd(s[..|s| - 1]) else s
  }

  /** `s.trim()`. */
  function Trim(s: string): (r: string)
    ensures r == [] || (!IsWhitespace(r[0]) && !IsWhitespace(r[|r| - 1]))
  {
    TrimEnd(TrimStart(s))
  }

  /** `sub` occurs in `s` starting at index `i`. */
  predicate OccursAt(s: string, sub: string, i: int) {
    0 <= i && i + |sub| <= |s| && s[i..i + |sub|] == sub
  }

  /** `s.includes(sub)`. */
  function Includes(s: string, sub: string): bool
    decreases |s|
  {
    if |s| < |sub| then false
    else if sub <= s then true
    else Includes(s[1..], sub)
  }

  /** `arr.join(sep)`. */
  function Join(parts: seq<string>, sep: string): string {
    if parts == [] then ""
    else if |parts| == 1 then parts[0]
    else parts[0] + sep + Join(parts[1..], sep)
  }

  /** Total number of characters in `parts`. */
  function TotalLength(parts: seq<string>): nat {
    if parts == [] then 0 else |parts[0]| + TotalLength(parts[1..])
  }

  function DigitChar(d: nat): (c: char)
    requires d < 10
    ensures IsDigit(c) && c as int - '0' as int == d
  {
    "0123456789"[d]
  }

  function DigitValue(c: char): nat
    requires IsDigit(c)
  {
    c as int - '0' as int
  }

  /** The decimal rendering of a non-negative integer, as `${n}` produces it. */
  function Decimal(n: nat): (r: string)
    ensures |r| >= 1
    ensures forall i :: 0 <= i < |r| ==> IsDigit(r[i])
  {
    if n < 10 then [DigitChar(n)] else Decimal(n / 10) + [DigitChar(n % 10)]
  }

  /** Reads a string of ASCII digits back as a number. */
  function ParseDecimal(s: string): nat
    requires forall i :: 0 <= i < |s| ==> IsDigit(s[i])
  {
    if s == [] then 0 else ParseDecimal(s[..|s| - 1]) * 10 + DigitValue(s[|s| - 1])
  }

  /** The longest prefix of `s` made of ASCII digits. */
  function DigitRun(s: string): (r: string)
    ensures r <= s
    ensures forall i :: 0 <= i < |r| ==> IsDigit(r[i])
    ensures |r| < |s| ==> !IsDigit(s[|r|])
  {
    if s != [] && IsDigit(s[0]) then [s[0]] + DigitRun(s[1..]) else []
  }

  /** The regular expression `\$\d+` can start a match at index `i` of `s`. */
  predicate DollarTokenAt(s: string, i: int) {
    0 <= i && i + 1 < |s| && s[i] == '$' && IsDigit(s[i + 1])
  }

  /** Where the first match of `/\$\d+/` starts, if there is one. */
  function FirstDollarToken(s: string): (r: Option<nat>)
    ensures r.Some? ==> DollarTokenAt(s, r.value) && forall j :: 0 <= j < r.value ==> !DollarTokenAt(s, j)
    ensures r.None? ==> forall j :: 0 <= j < |s| ==> !DollarTokenAt(s, j)
  {
    if |s| < 2 then None
    else if s[0] == '$' && IsDigit(s[1]) then Some(0)
    else
      match FirstDollarToken(s[1..])
      case None =>
        assert forall j :: 1 <= j < |s| ==> (DollarTokenAt(s, j) <==> DollarTokenAt(s[1..], j - 1));
        None
      case Some(k) =>
        assert forall j :: 1 <= j < |s| ==> (DollarTokenAt(s, j) <==> DollarTokenAt(s[1..], j - 1));
        Some(k + 1)
  }

  /** `s.match(/\$\d+/)?.[0]`: a dollar sign followed by the greedy run of digits after it. */
  function MatchDollarAmount(s: string): (r: Option<string>)
    ensures r.None? <==> FirstDollarToken(s).None?
    ensures r.Some? ==>
      (|r.value| >= 2 && r.value[0] == '$' && forall i :: 1 <= i < |r.value| ==> IsDigit(r.value[i]))
  {
    match FirstDollarToken(s)
    case None => None
    case Some(i) => Some("$" + DigitRun(s[i + 1..]))
  }

  // Lemmas

  /** `includes` holds exactly when the needle occurs at some index. */
  lemma {:induction false} IncludesIff(s: string, sub: string)
    ensures Includes(s, sub) <==> exists i :: OccursAt(s, sub, i)
    decreases |s|
  {
    if |s| < |sub| {
      forall i | OccursAt(s, sub, i) ensures false { }
    } else if sub <= s {
      assert OccursAt(s, sub, 0);
    } else {
      IncludesIff(s[1..], sub);
      if Includes(s[1..], sub) {
        var i :| OccursAt(s[1..], sub, i);
        assert s[1..][i..i + |sub|] == s[i + 1..i + 1 + |sub|];
        assert OccursAt(s, sub, i + 1);
      } else {
        forall i | OccursAt(s, sub, i) ensures i >= 1 && OccursAt(s[1..], sub, i - 1) {
          assert s[i..i + |sub|] == sub;
        }
      }
    }
  }

  /** `includes` of a one-character needle is membership. */
  lemma IncludesChar(s: string, c: char)
    ensures Includes(s, [c]) <==> c in s
  {
    IncludesIff(s, [c]);
    if c in s {
      var i :| 0 <= i < |s| && s[i] == c;
      assert OccursAt(s, [c], i);
    }
    if Includes(s, [c]) {
      var i :| OccursAt(s, [c], i);
      assert s[i] == s[i..i + 1][0];
    }
  }

  /** A string trims to nothing exactly when it is all whitespace. */
  lemma TrimEmptyIffBlank(s: string)
    ensures Trim(s) == [] <==> IsBlank(s)
  {
    var t := TrimStart(s);
    if Trim(s) == [] {
      assert t == [];
    }
  }

  /** Trimming twice is trimming once. */
  lemma TrimIdempotent(s: string)
    ensures Trim(Trim(s)) == Trim(s)
  {
  }

  /** A join holds every character of the parts plus one separator between each two neighbours. */
  lemma {:induction false} JoinLength(parts: seq<string>, sep: string)
    requires parts != []
    ensures |Join(parts, sep)| == TotalLength(parts) + (|parts| - 1) * |sep|
  {
    if |parts| == 1 {
      assert parts[1..] == [];
    } else {
      JoinLength(parts[1..], sep);
    }
  }

  /** Reading the decimal rendering back gives the number: the rendering loses nothing. */
  lemma {:induction false} ParseDecimalInverts(n: nat)
    ensures ParseDecimal(Decimal(n)) == n
    decreases n
  {
    var s := Decimal(n);
    if n >= 10 {
      ParseDecimalInverts(n / 10);
      assert s[..|s| - 1] == Decimal(n / 10);
    }
  }

  /** Two numbers render alike only when they are equal. */
  lemma DecimalInjective(m: nat, n: nat)
    ensures Decimal(m) == Decimal(n) <==> m == n
  {
    if Decimal(m) == Decimal(n) {
      ParseDecimalInverts(m);
      ParseDecimalInverts(n);
    }
  }

  /** A prefix followed by two renderings is equal only for equal numbers. */
  lemma PrefixedDecimalInjective(prefix: string, m: nat, n: nat)
    ensures prefix + Decimal(m) == prefix + Decimal(n) <==> m == n
  {
    if prefix + Decimal(m) == prefix + Decimal(n) {
      assert (prefix + Decimal(m))[|prefix|..] == Decimal(m);
      assert (prefix + Decimal(n))[|prefix|..] == Decimal(n);
      DecimalInjective(m, n);
    }
  }

  /** The digit run of some digits followed by a non-digit, or by nothing, is exactly those digits. */
  lemma {:induction false} DigitRunStopsAtNonDigit(digits: string, rest: string)
    requires forall i :: 0 <= i < |digits| ==> IsDigit(digits[i])
    requires rest == [] || !IsDigit(rest[0])
    ensures DigitRun(digits + rest) == digits
  {
    if digits == [] {
      assert digits + rest == rest;
    } else {
      assert (digits + rest)[0] == digits[0];
      assert (digits + rest)[1..] == digits[1..] + rest;
      DigitRunStopsAtNonDigit(digits[1..], rest);
    }
  }

  /** The extracted amount really occurs in the text, at the first place the pattern can match. */
  lemma MatchDollarAmountOccurs(s: string)
    requires MatchDollarAmount(s).Some?
    ensures var i := FirstDollarToken(s).value;
      OccursAt(s, MatchDollarAmount(s).value, i)
      && (i + |MatchDollarAmount(s).value| < |s| ==> !IsDigit(s[i + |MatchDollarAmount(s).value|]))
  {
    var i := FirstDollarToken(s).value;
    var rest := s[i + 1..];
    var run := DigitRun(rest);
    var m := MatchDollarAmount(s).value;
    assert m == "$" + run;
    assert rest[..|run|] == run;
    assert s[i..i + |m|] == [s[i]] + rest[..|run|];
    if i + |m| < |s| {
      assert s[i + |m|] == rest[|run|];
    }
  }
}
