/** The JavaScript string operations the pages use, over `seq<char>`. */
module Text {

  /** JavaScript's WhiteSpace and LineTerminator code points: what `trim()` strips and `\s` matches. */
  predicate IsJsSpace(c: char) {
    || c == '\t' || c == '\n' || c == '\U{000B}' || c == '\U{000C}' || c == '\r'
    || c == ' ' || c == '\U{00A0}' || c == '\U{1680}' || '\U{2000}' <= c <= '\U{200A}'
    || c == '\U{2028}' || c == '\U{2029}' || c == '\U{202F}' || c == '\U{205F}'
    || c == '\U{3000}' || c == '\U{FEFF}'
  }

  /** Every character of `s` is whitespace (true of the empty string). */
  predicate AllSpace(s: string) {
    forall i :: 0 <= i < |s| ==> IsJsSpace(s[i])
  }

  lemma AllSpaceCons(c: char, t: string)
    requires IsJsSpace(c) && AllSpace(t)
    ensures AllSpace([c] + t)
  {
    forall i | 1 <= i < |[c] + t|
      ensures IsJsSpace(([c] + t)[i])
    {
      assert ([c] + t)[i] == t[i - 1];
    }
  }

  lemma AllSpaceSnoc(t: string, c: char)
    requires AllSpace(t) && IsJsSpace(c)
    ensures AllSpace(t + [c])
  {
    forall i | 0 <= i < |t|
      ensures IsJsSpace((t + [c])[i])
    {
      assert (t + [c])[i] == t[i];
    }
  }

  /** `s.trimStart()`: the suffix left after dropping leading whitespace. */
  function TrimStart(s: string): (r: string)
    ensures |r| <= |s| && r == s[|s| - |r|..]
    ensures r == [] || !IsJsSpace(r[0])
    ensures AllSpace(s[..|s| - |r|])
  {
    if s != [] && IsJsSpace(s[0]) then
      var r := TrimStart(s[1..]);
      assert s[..|s| - |r|] == [s[0]] + s[1..][..|s| - 1 - |r|];
      AllSpaceCons(s[0], s[1..][..|s| - 1 - |r|]);
      r
    else s
  }

  /** `s.trimEnd()`: the prefix left after dropping trailing whitespace. */
  function TrimEnd(s: string): (r: string)
    ensures |r| <= |s| && r == s[..|r|]
    ensures r == [] || !IsJsSpace(r[|r| - 1])
    ensures AllSpace(s[|r|..])
  {
    if s != [] && IsJsSpace(s[|s| - 1]) then
      var r := TrimEnd(s[..|s| - 1]);
      assert s[|r|..] == s[..|s| - 1][|r|..] + [s[|s| - 1]];
      AllSpaceSnoc(s[..|s| - 1][|r|..], s[|s| - 1]);
      r
    else s
  }

  /** `s.trim()`: `s` without leading and trailing whitespace; empty exactly when `s` is all whitespace. */
  function Trim(s: string): (r: string)
    ensures r == [] <==> AllSpace(s)
    ensures |r| <= |s|
  {
    TrimmedEmptyAllSpace(s);
    TrimmedNonEmpty(s);
    TrimEnd(TrimStart(s))
  }

  /** A character outside the Basic Multilingual Plane, which JavaScript stores as a surrogate pair. */
  predicate IsAstral(c: char) {
    c >= '\U{10000}'
  }

  /** JavaScript's `length`: UTF-16 code units, two for each astral character. */
  function Utf16Length(s: string): (n: nat)
    ensures |s| <= n <= 2 * |s|
  {
    if s == [] then 0 else (if IsAstral(s[0]) then 2 else 1) + Utf16Length(s[1..])
  }

  /** The UTF-16 length adds over concatenation. */
  lemma {:induction false} Utf16LengthAppend(a: string, b: string)
    ensures Utf16Length(a + b) == Utf16Length(a) + Utf16Length(b)
  {
    if a == [] {
      assert a + b == b;
    } else {
      assert (a + b)[1..] == a[1..] + b;
      Utf16LengthAppend(a[1..], b);
    }
  }

  /** Cutting a string in two splits its UTF-16 length. */
  lemma Utf16LengthSplit(s: string, k: nat)
    requires k <= |s|
    ensures Utf16Length(s) == Utf16Length(s[..k]) + Utf16Length(s[k..])
  {
    assert s == s[..k] + s[k..];
    Utf16LengthAppend(s[..k], s[k..]);
  }

  /** Trimming never lengthens a string in UTF-16 code units either. */
  lemma TrimUtf16Shorter(s: string)
    ensures Utf16Length(Trim(s)) <= Utf16Length(s)
  {
    var t := TrimStart(s);
    Utf16LengthSplit(s, |s| - |t|);
    var r := TrimEnd(t);
    Utf16LengthSplit(t, |r|);
    assert Trim(s) == r;
  }

  /** Leading whitespace before a non-space character is exactly what `trimStart` drops. */
  lemma TrimStartPadded(a: string, x: string)
    requires AllSpace(a) && x != [] && !IsJsSpace(x[0])
    ensures TrimStart(a + x) == x
  {
    var s := a + x;
    var r := TrimStart(s);
    var k := |s| - |r|;
    assert s[|a|..] == x;
  }

  /** Trailing whitespace after a non-space character is exactly what `trimEnd` drops. */
  lemma TrimEndPadded(x: string, b: string)
    requires AllSpace(b) && x != [] && !IsJsSpace(x[|x| - 1])
    ensures TrimEnd(x + b) == x
  {
    var s := x + b;
    var r := TrimEnd(s);
    var m := |r|;
    assert s[..|x|] == x;
  }

  /** `trim()` of a string padded with whitespace on both sides gives back its non-space core. */
  lemma TrimPadded(a: string, c: string, b: string)
    requires AllSpace(a) && AllSpace(b)
    requires c != [] && !IsJsSpace(c[0]) && !IsJsSpace(c[|c| - 1])
    ensures Trim(a + c + b) == c
  {
    assert a + c + b == a + (c + b);
    assert (c + b)[0] == c[0];
    TrimStartPadded(a, c + b);
    TrimEndPadded(c, b);
  }

  /** An empty trim means every character of `s` was whitespace. */
  lemma TrimmedEmptyAllSpace(s: string)
    ensures var t := TrimStart(s); var r := TrimEnd(t); r == [] ==> AllSpace(s)
  {
    var t := TrimStart(s);
    var r := TrimEnd(t);
    var k := |s| - |t|;
    if r == [] {
      assert t[|r|..] == t;
      assert AllSpace(t);
      var pre := s[..k];
      assert AllSpace(pre);
      forall i | 0 <= i < |s|
        ensures IsJsSpace(s[i])
      {
        if i < k {
          assert s[i] == pre[i];
        } else {
          assert s[i] == t[i - k];
        }
      }
    }
  }

  /** A non-empty trim starts with a character of `s` that is not whitespace. */
  lemma TrimmedNonEmpty(s: string)
    ensures var t := TrimStart(s); var r := TrimEnd(t); r != [] ==> !AllSpace(s)
  {
    var t := TrimStart(s);
    var r := TrimEnd(t);
    var k := |s| - |t|;
    if r != [] {
      assert s[k] == t[0] == r[0];
    }
  }

  /** `c.toLowerCase()` on the ASCII letters. */
  function LowerChar(c: char): char {
    if 'A' <= c <= 'Z' then (c as int + 32) as char else c
  }

  /** `c.toUpperCase()` on the ASCII letters. */
  function UpperChar(c: char): char {
    if 'a' <= c <= 'z' then (c as int - 32) as char else c
  }

  /** `s.toLowerCase()`: the same length, each character lowered. */
  function Lower(s: string): (r: string)
    ensures |r| == |s|
    ensures forall i :: 0 <= i < |s| ==> r[i] == LowerChar(s[i])
  {
    seq(|s|, i requires 0 <= i < |s| => LowerChar(s[i]))
  }

  /** `needle` occurs in `hay` starting at position `i`. */
  predicate OccursAt(hay: string, needle: string, i: int) {
    0 <= i && i + |needle| <= |hay| && hay[i..i + |needle|] == needle
  }

  /** `hay.includes(needle)`. */
  predicate Contains(hay: string, needle: string) {
    exists i :: 0 <= i <= |hay| && OccursAt(hay, needle, i)
  }

  /** Number of occurrences of the character `c` in `s`. */
  function CountChar(s: string, c: char): nat {
    if s == [] then 0 else CountChar(s[1..], c) + (if s[0] == c then 1 else 0)
  }

  lemma {:induction false} CountCharAppend(a: string, b: string, c: char)
    ensures CountChar(a + b, c) == CountChar(a, c) + CountChar(b, c)
  {
    if a == [] {
      assert a + b == b;
    } else {
      assert (a + b)[1..] == a[1..] + b;
      CountCharAppend(a[1..], b, c);
    }
  }

  lemma {:induction false} CountCharAbsent(s: string, c: char)
    requires c !in s
    ensures CountChar(s, c) == 0
  {
    if s != [] {
      CountCharAbsent(s[1..], c);
    }
  }

  /** `s.split(sep)` for a one-character separator: the pieces between separators, possibly empty. */
  function Split(s: string, sep: char): (parts: seq<string>)
    ensures |parts| >= 1
    ensures forall k :: 0 <= k < |parts| ==> sep !in parts[k]
  {
    if s == [] then [[]] else PutInFront(s[0], sep, Split(s[1..], sep))
  }

  /** The pieces of `[c] + t` from those of `t`: a new empty piece at a separator, else `c` joins the first piece. */
  function PutInFront(c: char, sep: char, rest: seq<string>): (parts: seq<string>)
    requires |rest| >= 1
    ensures |parts| >= 1
  {
    if c == sep then [[]] + rest else [[c] + rest[0]] + rest[1..]
  }

  /** Putting a character in front commutes with appending more pieces. */
  lemma PutInFrontAppend(c: char, sep: char, x: seq<string>, more: seq<string>)
    requires |x| >= 1
    ensures PutInFront(c, sep, x + more) == PutInFront(c, sep, x) + more
  {
    if c != sep {
      assert (x + more)[0] == x[0];
      assert (x + more)[1..] == x[1..] + more;
    } else {
      assert [[]] + (x + more) == [[]] + x + more;
    }
  }

  /** `parts.join(sep)`. */
  function Join(parts: seq<string>, sep: string): string {
    if |parts| == 0 then []
    else if |parts| == 1 then parts[0]
    else parts[0] + sep + Join(parts[1..], sep)
  }

  /** Joining the pieces of a split with the same separator gives back the string. */
  lemma {:induction false} JoinSplit(s: string, sep: char)
    ensures Join(Split(s, sep), [sep]) == s
  {
    if s != [] {
      var rest := Split(s[1..], sep);
      JoinSplit(s[1..], sep);
      if s[0] == sep {
        assert ([[]] + rest)[1..] == rest;
      } else if |rest| == 1 {
        assert s == [s[0]] + s[1..];
      } else {
        var parts := [[s[0]] + rest[0]] + rest[1..];
        assert parts[1..] == rest[1..];
        assert Join(rest, [sep]) == rest[0] + [sep] + Join(rest[1..], [sep]);
        assert s == [s[0]] + s[1..];
      }
    }
  }

  /** A string without the separator splits into itself alone. */
  lemma {:induction false} SplitNoSep(s: string, sep: char)
    requires sep !in s
    ensures Split(s, sep) == [s]
  {
    if s != [] {
      SplitNoSep(s[1..], sep);
      assert s == [s[0]] + s[1..];
    }
  }

  /** Splitting a string that starts with a given character. */
  lemma SplitCons(c: char, t: string, sep: char)
    ensures Split([c] + t, sep) == PutInFront(c, sep, Split(t, sep))
  {
    assert ([c] + t)[1..] == t;
  }

  /** Splitting around one separator splits each side independently. */
  lemma {:induction false} SplitConcat(a: string, b: string, sep: char)
    ensures Split(a + [sep] + b, sep) == Split(a, sep) + Split(b, sep)
  {
    if a == [] {
      assert a + [sep] + b == [sep] + b;
      SplitCons(sep, b, sep);
    } else {
      var t := a[1..];
      var u := t + [sep] + b;
      SplitConcat(t, b, sep);
      SplitCons(a[0], u, sep);
      SplitCons(a[0], t, sep);
      PutInFrontAppend(a[0], sep, Split(t, sep), Split(b, sep));
      assert a == [a[0]] + t;
      assert a + [sep] + b == [a[0]] + u;
    }
  }

  /** Splitting a join whose pieces avoid the separator gives back the pieces. */
  lemma {:induction false} SplitJoin(parts: seq<string>, sep: char)
    requires |parts| >= 1
    requires forall k :: 0 <= k < |parts| ==> sep !in parts[k]
    ensures Split(Join(parts, [sep]), sep) == parts
  {
    SplitNoSep(parts[0], sep);
    if |parts| > 1 {
      SplitJoin(parts[1..], sep);
      SplitConcat(parts[0], Join(parts[1..], [sep]), sep);
      assert parts == [parts[0]] + parts[1..];
    }
  }

  /** Every character of a piece of a split comes from the string that was split. */
  lemma {:induction false} SplitPieceChars(s: string, sep: char, ch: char)
    requires ch !in s
    ensures forall k :: 0 <= k < |Split(s, sep)| ==> ch !in Split(s, sep)[k]
  {
    if s != [] {
      SplitPieceChars(s[1..], sep, ch);
    }
  }

  /** Joining pieces free of `c` with a separator holding one `c` gives one `c` per separator. */
  lemma {:induction false} JoinCountChar(parts: seq<string>, sep: string, c: char)
    requires |parts| >= 1 && CountChar(sep, c) == 1
    requires forall k :: 0 <= k < |parts| ==> c !in parts[k]
    ensures CountChar(Join(parts, sep), c) == |parts| - 1
  {
    CountCharAbsent(parts[0], c);
    if |parts| > 1 {
      JoinCountChar(parts[1..], sep, c);
      CountCharAppend(parts[0], sep, c);
      CountCharAppend(parts[0] + sep, Join(parts[1..], sep), c);
    }
  }

  /** A character outside the pieces and the separator is outside their join. */
  lemma {:induction false} JoinAvoids(parts: seq<string>, sep: string, c: char)
    requires c !in sep
    requires forall k :: 0 <= k < |parts| ==> c !in parts[k]
    ensures c !in Join(parts, sep)
  {
    if |parts| > 1 {
      JoinAvoids(parts[1..], sep, c);
    }
  }

  predicate IsDigit(c: char) {
    '0' <= c <= '9'
  }

  function DigitChar(d: nat): (c: char)
    requires d < 10
    ensures IsDigit(c)
  {
    ('0' as int + d) as char
  }

  /** `String(n)` for a non-negative integer: its decimal digits, without leading zeros. */
  function NatToDecimal(n: nat): (r: string)
    ensures |r| >= 1
    ensures forall i :: 0 <= i < |r| ==> IsDigit(r[i])
    ensures r[0] == '0' ==> n == 0
    ensures n < 10 <==> |r| == 1
  {
    if n < 10 then [DigitChar(n)] else NatToDecimal(n / 10) + [DigitChar(n % 10)]
  }

  /** `String(i)` for an integer. */
  function IntToDecimal(i: int): string {
    if i < 0 then "-" + NatToDecimal(-i) else NatToDecimal(i)
  }

  /** The value of a string of decimal digits (the empty string reads as 0). */
  function DecimalValue(s: string): nat
    requires forall i :: 0 <= i < |s| ==> IsDigit(s[i])
  {
    if s == [] then 0
    else
      var last := s[|s| - 1];
      assert IsDigit(last);
      DecimalValue(s[..|s| - 1]) * 10 + (last as int - '0' as int)
  }

  /** Reading the digits of `n` gives `n` back. */
  lemma {:induction false} DecimalRoundTrip(n: nat)
    ensures DecimalValue(NatToDecimal(n)) == n
  {
    if n >= 10 {
      var r := NatToDecimal(n);
      assert r[..|r| - 1] == NatToDecimal(n / 10);
      DecimalRoundTrip(n / 10);
    }
  }

  /** Leading zeros do not change the value of a digit string. */
  lemma {:induction false} DecimalLeadingZero(s: string)
    requires forall i :: 0 <= i < |s| ==> IsDigit(s[i])
    ensures DecimalValue("0" + s) == DecimalValue(s)
  {
    if s != [] {
      assert ("0" + s)[..|s|] == "0" + s[..|s| - 1];
      DecimalLeadingZero(s[..|s| - 1]);
    }
  }

  /** `s.padStart(2, "0")`. */
  function PadStart2(s: string): (r: string)
    ensures |r| == if |s| >= 2 then |s| else 2
    ensures r[|r| - |s|..] == s
    ensures forall i :: 0 <= i < |r| - |s| ==> r[i] == '0'
  {
    if |s| >= 2 then s else if |s| == 1 then "0" + s else "00"
  }
}
