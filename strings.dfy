/**
 * The JavaScript string operations the core relies on, with their
 * JavaScript meaning: includes, startsWith, indexOf, substring, split on one
 * character, the first-occurrence replace, and parseInt.
 */
module Strings {
  import opened Types

  /** p occurs in s starting at position i. */
  predicate OccursAt(s: string, p: string, i: int) {
    0 <= i && i + |p| <= |s| && s[i..i + |p|] == p
  }

  /** The first position at or after k where p occurs in s. */
  function IndexOfFrom(s: string, p: string, k: nat): (r: Option<nat>)
    requires k <= |s|
    decreases |s| - k
    ensures r.Some? ==> k <= r.value && OccursAt(s, p, r.value)
    ensures forall j :: k <= j && (r.None? || j < r.value) ==> !OccursAt(s, p, j)
  {
    if OccursAt(s, p, k) then Some(k)
    else if k == |s| then None
    else IndexOfFrom(s, p, k + 1)
  }

  /** `s.indexOf(p)`, with None for -1: the first position where p occurs. */
  function IndexOf(s: string, p: string): (r: Option<nat>)
    ensures r.Some? ==> OccursAt(s, p, r.value)
    ensures forall j :: (r.None? || j < r.value) ==> !OccursAt(s, p, j)
  {
    IndexOfFrom(s, p, 0)
  }

  /** `s.includes(p)`. */
  predicate Contains(s: string, p: string)
    ensures Contains(s, p) <==> exists i :: OccursAt(s, p, i)
  {
    IndexOf(s, p).Some?
  }

  /** `s.startsWith(p)`. */
  predicate StartsWith(s: string, p: string) {
    |p| <= |s| && s[..|p|] == p
  }

  /** `s.substring(start, end)`: both ends are clamped to the length and swapped if reversed. */
  function Substring(s: string, start: nat, end: nat): (r: string)
    ensures start <= end <= |s| ==> r == s[start..end]
    ensures end <= start <= |s| ==> r == s[end..start]
  {
    var a := if start < |s| then start else |s|;
    var b := if end < |s| then end else |s|;
    if a <= b then s[a..b] else s[b..a]
  }

  /** `s.split(sep)` for a one-character separator: empty pieces are kept. */
  function Split(s: string, sep: char): (parts: seq<string>)
    ensures |parts| >= 1
    ensures forall i :: 0 <= i < |parts| ==> sep !in parts[i]
    decreases |s|
  {
    if |s| == 0 then [""]
    else
      var rest := Split(s[1..], sep);
      if s[0] == sep then [""] + rest else [[s[0]] + rest[0]] + rest[1..]
  }

  /** `parts.join(sep)`, the inverse of Split. */
  function Join(parts: seq<string>, sep: char): string
    requires |parts| >= 1
    decreases |parts|
  {
    if |parts| == 1 then parts[0] else parts[0] + [sep] + Join(parts[1..], sep)
  }

  /** Joining the pieces of a split gives back the string. */
  lemma {:induction false} JoinSplit(s: string, sep: char)
    ensures Join(Split(s, sep), sep) == s
    decreases |s|
  {
    if |s| > 0 {
      var rest := Split(s[1..], sep);
      JoinSplit(s[1..], sep);
      if s[0] == sep {
        assert Split(s, sep) == [""] + rest;
        assert ([""] + rest)[1..] == rest;
      } else {
        var parts := [[s[0]] + rest[0]] + rest[1..];
        assert Split(s, sep) == parts;
        if |rest| == 1 {
          assert Join(parts, sep) == [s[0]] + rest[0];
        } else {
          assert parts[1..] == rest[1..];
          assert Join(rest, sep) == rest[0] + [sep] + Join(rest[1..], sep);
        }
      }
      assert s == [s[0]] + s[1..];
    }
  }

  /** Splitting a word without separators in front of t extends t's first piece. */
  lemma {:induction false} SplitAfterWord(w: string, t: string, sep: char)
    requires sep !in w
    ensures Split(w + t, sep) == [w + Split(t, sep)[0]] + Split(t, sep)[1..]
    decreases |w|
  {
    if |w| > 0 {
      SplitAfterWord(w[1..], t, sep);
      assert (w + t)[1..] == w[1..] + t;
      assert (w + t)[0] == w[0];
      assert [w[0]] + (w[1..] + Split(t, sep)[0]) == w + Split(t, sep)[0];
    } else {
      assert w + t == t;
      assert w + Split(t, sep)[0] == Split(t, sep)[0];
      assert Split(t, sep) == [Split(t, sep)[0]] + Split(t, sep)[1..];
    }
  }

  /** Splitting the join of separator-free pieces gives back the pieces. */
  lemma {:induction false} SplitJoin(parts: seq<string>, sep: char)
    requires |parts| >= 1
    requires forall i :: 0 <= i < |parts| ==> sep !in parts[i]
    ensures Split(Join(parts, sep), sep) == parts
    decreases |parts|
  {
    if |parts| == 1 {
      SplitAfterWord(parts[0], "", sep);
      assert parts[0] + "" == parts[0];
    } else {
      var tail := Join(parts[1..], sep);
      SplitJoin(parts[1..], sep);
      var t := [sep] + tail;
      assert t[1..] == tail;
      assert Split(t, sep) == [""] + parts[1..];
      SplitAfterWord(parts[0], t, sep);
      assert parts[0] + [sep] + tail == parts[0] + t;
      assert parts[0] + "" == parts[0];
      assert ([""] + parts[1..])[1..] == parts[1..];
    }
  }

  /** `parts.indexOf(x)`, with None for -1. */
  function SeqIndexOf(parts: seq<string>, x: string): (r: Option<nat>)
    ensures r.Some? ==> r.value < |parts| && parts[r.value] == x
    ensures forall j :: 0 <= j < |parts| && (r.None? || j < r.value) ==> parts[j] != x
    decreases |parts|
  {
    if |parts| == 0 then None
    else if parts[0] == x then Some(0)
    else match SeqIndexOf(parts[1..], x)
      case None => None
      case Some(k) => Some(k + 1)
  }

  /** `parts[i]`, with None for undefined. */
  function Elem(parts: seq<string>, i: int): (r: Option<string>)
    ensures r.Some? <==> 0 <= i < |parts|
    ensures r.Some? ==> r.value == parts[i]
  {
    if 0 <= i < |parts| then Some(parts[i]) else None
  }

  /** Replaces the first occurrence of p in s by rep, inserting rep literally. */
  function ReplaceFirst(s: string, p: string, rep: string): string {
    match IndexOf(s, p)
    case None => s
    case Some(i) => s[..i] + rep + s[i + |p|..]
  }

  /**
   * ReplaceFirst is characterised by the first occurrence: if s is a + p + b
   * and p does not occur earlier, the result is a + rep + b, so everything
   * after the first occurrence (later occurrences included) is left intact.
   */
  lemma ReplaceFirstAt(s: string, p: string, rep: string, a: string, b: string)
    requires s == a + p + b
    requires forall j :: 0 <= j < |a| ==> !OccursAt(s, p, j)
    ensures ReplaceFirst(s, p, rep) == a + rep + b
  {
    assert s[|a|..|a| + |p|] == p;
    assert OccursAt(s, p, |a|);
    var i := IndexOf(s, p);
    assert i == Some(|a|);
    assert s[..|a|] == a;
    assert s[|a| + |p|..] == b;
  }

  /** Without an occurrence, ReplaceFirst changes nothing. */
  lemma ReplaceFirstAbsent(s: string, p: string, rep: string)
    requires !Contains(s, p)
    ensures ReplaceFirst(s, p, rep) == s
  {
  }

  /**
   * How JavaScript's String.prototype.replace with a string pattern expands
   * its replacement text: "$$" is "$", "$&" the matched text, "$`" the text
   * before the match and "$'" the text after it; every other character,
   * including a "$" followed by anything else, is copied.
   */
  function ExpandReplacement(rep: string, matched: string, before: string, after: string): string
    decreases |rep|
  {
    if |rep| == 0 then ""
    else if rep[0] == '$' && |rep| >= 2 && rep[1] in "$&`'" then
      (if rep[1] == '$' then "$"
       else if rep[1] == '&' then matched
       else if rep[1] == '`' then before
       else after)
      + ExpandReplacement(rep[2..], matched, before, after)
    else [rep[0]] + ExpandReplacement(rep[1..], matched, before, after)
  }

  /** `s.replace(p, rep)` exactly as JavaScript evaluates it for a string pattern. */
  function JsReplaceFirst(s: string, p: string, rep: string): string {
    match IndexOf(s, p)
    case None => s
    case Some(i) => s[..i] + ExpandReplacement(rep, p, s[..i], s[i + |p|..]) + s[i + |p|..]
  }

  /** A replacement without "$" is inserted literally. */
  lemma {:induction false} ExpandLiteral(rep: string, matched: string, before: string, after: string)
    requires '$' !in rep
    ensures ExpandReplacement(rep, matched, before, after) == rep
    decreases |rep|
  {
    if |rep| > 0 {
      assert rep[0] in rep;
      assert forall c :: c in rep[1..] ==> c in rep;
      ExpandLiteral(rep[1..], matched, before, after);
      assert rep == [rep[0]] + rep[1..];
    }
  }

  /** For a replacement without "$", JavaScript's replace and the literal ReplaceFirst agree. */
  lemma JsReplaceFirstLiteral(s: string, p: string, rep: string)
    requires '$' !in rep
    ensures JsReplaceFirst(s, p, rep) == ReplaceFirst(s, p, rep)
  {
    match IndexOf(s, p)
    case None =>
    case Some(i) => ExpandLiteral(rep, p, s[..i], s[i + |p|..]);
  }

  /** A replacement of "$&" re-inserts the placeholder itself instead of the text "$&". */
  lemma DollarAmpersandCounterexample()
    ensures JsReplaceFirst("{name}", "{name}", "$&") == "{name}"
    ensures ReplaceFirst("{name}", "{name}", "$&") == "$&"
  {
    assert OccursAt("{name}", "{name}", 0);
    assert IndexOf("{name}", "{name}") == Some(0);
    assert ExpandReplacement("", "{name}", "", "") == "";
    assert ExpandReplacement("$&", "{name}", "", "") == "{name}" + ExpandReplacement("", "{name}", "", "");
  }

  /** The characters JavaScript's parseInt skips before the number. */
  predicate IsJsWhiteSpace(c: char) {
    c == '\t' || c == '\n' || c == '\U{000B}' || c == '\U{000C}' || c == '\r' || c == ' '
    || c == '\U{00A0}' || c == '\U{1680}' || ('\U{2000}' <= c <= '\U{200A}')
    || c == '\U{2028}' || c == '\U{2029}' || c == '\U{202F}' || c == '\U{205F}'
    || c == '\U{3000}' || c == '\U{FEFF}'
  }

  function TrimStart(s: string): (t: string)
    ensures |t| <= |s| && t == s[|s| - |t|..]
    ensures |t| > 0 ==> !IsJsWhiteSpace(t[0])
    decreases |s|
  {
    if |s| > 0 && IsJsWhiteSpace(s[0]) then TrimStart(s[1..]) else s
  }

  /** The value of c as a digit in base 10 or 16. */
  function DigitValue(c: char, radix: nat): (d: Option<nat>)
    requires radix == 10 || radix == 16
    ensures d.Some? ==> d.value < radix
  {
    if '0' <= c <= '9' then Some(c as int - '0' as int)
    else if radix == 16 && 'a' <= c <= 'f' then Some(c as int - 'a' as int + 10)
    else if radix == 16 && 'A' <= c <= 'F' then Some(c as int - 'A' as int + 10)
    else None
  }

  predicate AllDigits(ds: string, radix: nat)
    requires radix == 10 || radix == 16
  {
    forall i :: 0 <= i < |ds| ==> DigitValue(ds[i], radix).Some?
  }

  /** The length of the longest prefix of s made of digits. */
  function DigitRun(s: string, radix: nat): (n: nat)
    requires radix == 10 || radix == 16
    ensures n <= |s|
    ensures n < |s| ==> DigitValue(s[n], radix).None?
    decreases |s|
  {
    if |s| == 0 || DigitValue(s[0], radix).None? then 0
    else DigitRun(s[1..], radix) + 1
  }

  /** Every character before the end of the run is a digit. */
  lemma {:induction false} DigitRunDigits(s: string, radix: nat)
    requires radix == 10 || radix == 16
    ensures AllDigits(s[..DigitRun(s, radix)], radix)
    decreases |s|
  {
    if |s| > 0 && DigitValue(s[0], radix).Some? {
      var n := DigitRun(s[1..], radix);
      DigitRunDigits(s[1..], radix);
      assert s[..n + 1] == [s[0]] + s[1..][..n];
    }
  }

  /**
   * The number a string of digits denotes, most significant digit first
   * (only applied to digit runs; another character would count as 0).
   */
  function DigitsValue(ds: string, radix: nat): nat
    requires radix == 10 || radix == 16
    decreases |ds|
  {
    if |ds| == 0 then 0
    else
      var d := DigitValue(ds[|ds| - 1], radix);
      DigitsValue(ds[..|ds| - 1], radix) * radix + (if d.Some? then d.value else 0)
  }

  /**
   * The unsigned part of `parseInt`: "0x" or "0X" selects base 16, and the
   * longest run of digits that follows is the value; no digits is NaN.
   */
  function ParseUnsigned(u: string): Option<nat> {
    var hex := |u| >= 2 && u[0] == '0' && (u[1] == 'x' || u[1] == 'X');
    var radix := if hex then 16 else 10;
    var body := if hex then u[2..] else u;
    var n := DigitRun(body, radix);
    if n == 0 then None else Some(DigitsValue(body[..n], radix))
  }

  /** One sign, then the unsigned part. */
  function ParseSigned(s: string): Option<int> {
    var neg := |s| > 0 && s[0] == '-';
    var u := if |s| > 0 && (s[0] == '-' || s[0] == '+') then s[1..] else s;
    match ParseUnsigned(u)
    case None => None
    case Some(v) => Some(if neg then -(v as int) else v as int)
  }

  /**
   * `parseInt(tok)` with no radix, None standing for NaN: leading white
   * space is skipped, then a signed number is read. An undefined token reads
   * as "undefined", which is NaN.
   */
  function ParseInt(tok: Option<string>): Option<int> {
    match tok
    case None => None
    case Some(t) => ParseSigned(TrimStart(t))
  }

  /** The decimal digits of n, as `${n}` writes them. */
  function NatDigits(n: nat): (ds: string)
    ensures |ds| >= 1 && AllDigits(ds, 10)
    ensures ds[0] == '0' ==> n == 0 && |ds| == 1
    decreases n
  {
    var d := ['0' + (n % 10) as char];
    if n < 10 then d else NatDigits(n / 10) + d
  }

  /** `${n}` for an integer n. */
  function DecimalString(n: int): string {
    if n < 0 then "-" + NatDigits(-n) else NatDigits(n)
  }

  lemma {:induction false} NatDigitsValue(n: nat)
    ensures DigitsValue(NatDigits(n), 10) == n
    decreases n
  {
    var ds := NatDigits(n);
    if n >= 10 {
      NatDigitsValue(n / 10);
      assert ds[..|ds| - 1] == NatDigits(n / 10);
    }
  }

  /** A run over a string made only of digits covers all of it. */
  lemma {:induction false} DigitRunAll(ds: string, radix: nat)
    requires radix == 10 || radix == 16
    requires AllDigits(ds, radix)
    ensures DigitRun(ds, radix) == |ds|
    decreases |ds|
  {
    if |ds| > 0 {
      assert AllDigits(ds[1..], radix) by {
        forall i | 0 <= i < |ds[1..]| ensures DigitValue(ds[1..][i], radix).Some? {
          assert ds[1..][i] == ds[i + 1];
        }
      }
      DigitRunAll(ds[1..], radix);
    }
  }

  /** A run of decimal digits without a leading "0x" reads as its value. */
  lemma ParseUnsignedDigits(ds: string)
    requires |ds| >= 1 && AllDigits(ds, 10)
    requires ds[0] == '0' ==> |ds| == 1
    ensures ParseUnsigned(ds) == Some(DigitsValue(ds, 10))
  {
    DigitRunAll(ds, 10);
    assert ds[..|ds|] == ds;
  }

  /** A digit or a minus sign is not white space, so nothing is trimmed. */
  lemma TrimStartNumber(s: string)
    requires |s| > 0 && ('0' <= s[0] <= '9' || s[0] == '-')
    ensures TrimStart(s) == s
  {
    assert !IsJsWhiteSpace(s[0]);
  }

  /** A run of digits is read without a sign. */
  lemma ParseSignedDigits(ds: string)
    requires |ds| >= 1 && '0' <= ds[0] <= '9'
    ensures ParseSigned(ds) == (match ParseUnsigned(ds) case None => None case Some(v) => Some(v as int))
  {
    assert ds[0] != '-' && ds[0] != '+';
  }

  /** A minus sign negates what follows it. */
  lemma ParseSignedNegated(ds: string)
    ensures ParseSigned("-" + ds) == (match ParseUnsigned(ds) case None => None case Some(v) => Some(-(v as int)))
  {
    assert ("-" + ds)[0] == '-';
    assert ("-" + ds)[1..] == ds;
  }

  /** parseInt reads back every integer written in decimal. */
  lemma ParseIntDecimal(n: int)
    ensures ParseInt(Some(DecimalString(n))) == Some(n)
  {
    var m: nat := if n < 0 then -n else n;
    var ds := NatDigits(m);
    NatDigitsValue(m);
    ParseUnsignedDigits(ds);
    assert DigitValue(ds[0], 10).Some?;
    assert '0' <= ds[0] <= '9';
    var s := DecimalString(n);
    if n < 0 {
      assert s == "-" + ds;
      TrimStartNumber(s);
      ParseSignedNegated(ds);
    } else {
      assert s == ds;
      TrimStartNumber(s);
      ParseSignedDigits(ds);
    }
  }
}
