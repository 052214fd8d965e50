/** The string operations the routes and components rely on: JavaScript's
    whitespace class, `trim`, `split(/\s+/)`, whitespace removal, ASCII case
    mapping, substring search and decimal rendering of a number. */
module Text {
  import opened Common
  import opened Sequences

  /** The characters of the JavaScript regular-expression class `\s`, which are
      also the characters `String.prototype.trim` removes. */
  predicate IsWhitespace(c: char) {
    c == '\t' || c == '\n' || c == '\U{B}' || c == '\U{C}' || c == '\r' ||
    c == ' ' || c == '\U{A0}' || c == '\U{1680}' || ('\U{2000}' <= c <= '\U{200A}') ||
    c == '\U{2028}' || c == '\U{2029}' || c == '\U{202F}' || c == '\U{205F}' ||
    c == '\U{3000}' || c == '\U{FEFF}'
  }

  predicate AllWhitespace(s: string) {
    forall k :: 0 <= k < |s| ==> IsWhitespace(s[k])
  }

  predicate NoWhitespace(s: string) {
    forall k :: 0 <= k < |s| ==> !IsWhitespace(s[k])
  }

  function TrimStart(s: string): (r: string)
    ensures |r| <= |s| && r == s[|s| - |r|..]
    ensures r == "" || !IsWhitespace(r[0])
    ensures AllWhitespace(s[..|s| - |r|])
  {
    if |s| > 0 && IsWhitespace(s[0]) then
      var r := TrimStart(s[1..]);
      assert s[..|s| - |r|] == [s[0]] + s[1..][..|s| - 1 - |r|];
      r
    else s
  }

  function TrimEnd(s: string): (r: string)
    ensures |r| <= |s| && r == s[..|r|]
    ensures r == "" || !IsWhitespace(r[|r| - 1])
    ensures AllWhitespace(s[|r|..])
  {
    if |s| > 0 && IsWhitespace(s[|s| - 1]) then
      var r := TrimEnd(s[..|s| - 1]);
      assert s[|r|..] == s[..|s| - 1][|r|..] + [s[|s| - 1]];
      r
    else s
  }

  /** `s.trim()`: the text between the leading and the trailing whitespace. */
  function Trim(s: string): string {
    TrimEnd(TrimStart(s))
  }

  lemma {:induction false} TrimStartPadded(pad: string, s: string)
    requires AllWhitespace(pad)
    ensures TrimStart(pad + s) == TrimStart(s)
    decreases |pad|
  {
    if pad == [] {
      assert pad + s == s;
    } else {
      assert (pad + s)[0] == pad[0];
      assert (pad + s)[1..] == pad[1..] + s;
      TrimStartPadded(pad[1..], s);
    }
  }

  lemma {:induction false} TrimEndPadded(s: string, pad: string)
    requires AllWhitespace(pad)
    ensures TrimEnd(s + pad) == TrimEnd(s)
    decreases |pad|
  {
    if pad == [] {
      assert s + pad == s;
    } else {
      assert (s + pad)[|s + pad| - 1] == pad[|pad| - 1];
      assert (s + pad)[..|s + pad| - 1] == s + pad[..|pad| - 1];
      TrimEndPadded(s, pad[..|pad| - 1]);
    }
  }

  /** Trailing text survives TrimStart once a non-whitespace character precedes it. */
  lemma {:induction false} TrimStartAppend(s: string, tail: string)
    requires !AllWhitespace(s)
    ensures TrimStart(s + tail) == TrimStart(s) + tail
    decreases |s|
  {
    if IsWhitespace(s[0]) {
      assert (s + tail)[1..] == s[1..] + tail;
      assert !AllWhitespace(s[1..]) by {
        var k :| 0 <= k < |s| && !IsWhitespace(s[k]);
        assert s[1..][k - 1] == s[k];
      }
      TrimStartAppend(s[1..], tail);
    }
  }

  lemma {:induction false} TrimStartAllWhitespace(s: string)
    requires AllWhitespace(s)
    ensures TrimStart(s) == ""
    decreases |s|
  {
    if s != [] {
      TrimStartAllWhitespace(s[1..]);
    }
  }

  /** Whitespace around a text does not change what `trim` leaves of it. */
  lemma TrimPadded(pad: string, s: string, pad': string)
    requires AllWhitespace(pad) && AllWhitespace(pad')
    ensures Trim(pad + s + pad') == Trim(s)
  {
    assert pad + s + pad' == pad + (s + pad');
    TrimStartPadded(pad, s + pad');
    if AllWhitespace(s) {
      TrimStartAllWhitespace(s);
      assert AllWhitespace(s + pad');
      TrimStartAllWhitespace(s + pad');
    } else {
      TrimStartAppend(s, pad');
      TrimEndPadded(TrimStart(s), pad');
    }
  }

  /** A text that starts and ends with non-whitespace is its own trim. */
  lemma TrimOfTrimmed(s: string)
    requires s == "" || (!IsWhitespace(s[0]) && !IsWhitespace(s[|s| - 1]))
    ensures Trim(s) == s
  {
  }

  /** The end of the run of whitespace that starts at `i`. */
  function RunEnd(s: string, i: nat): (j: nat)
    requires i <= |s|
    ensures i <= j <= |s|
    ensures forall k :: i <= k < j ==> IsWhitespace(s[k])
    ensures j == |s| || !IsWhitespace(s[j])
    decreases |s| - i
  {
    if i < |s| && IsWhitespace(s[i]) then RunEnd(s, i + 1) else i
  }

  /** `s.split(/\s+/)`: the pieces between maximal runs of whitespace. A text
      with no whitespace, the empty text included, is one piece. */
  function SplitWhitespace(s: string): (r: seq<string>)
    ensures |r| >= 1
    decreases |s|
  {
    match FirstIndex(s, IsWhitespace)
    case None => [s]
    case Some(i) =>
      var j := RunEnd(s, i);
      [s[..i]] + SplitWhitespace(s[j..])
  }

  lemma SplitNoWhitespace(s: string)
    requires NoWhitespace(s)
    ensures SplitWhitespace(s) == [s]
  {
    assert FirstIndex(s, IsWhitespace).None?;
  }

  /** Pins down RunEnd from the shape of the text after `i`. */
  lemma {:induction false} RunEndAt(s: string, i: nat, j: nat)
    requires i <= j <= |s|
    requires forall k :: i <= k < j ==> IsWhitespace(s[k])
    requires j == |s| || !IsWhitespace(s[j])
    ensures RunEnd(s, i) == j
    decreases j - i
  {
    if i < j {
      RunEndAt(s, i + 1, j);
    }
  }

  /** The first piece of a split is the text up to the first whitespace. */
  lemma SplitFirstPiece(w: string, gap: string, rest: string)
    requires NoWhitespace(w) && gap != "" && AllWhitespace(gap)
    requires rest == "" || !IsWhitespace(rest[0])
    ensures SplitWhitespace(w + gap + rest) == [w] + SplitWhitespace(rest)
  {
    var s := w + gap + rest;
    var f := FirstIndex(s, IsWhitespace);
    assert forall k :: 0 <= k < |w| ==> s[k] == w[k];
    assert IsWhitespace(s[|w|]);
    assert f == Some(|w|);
    var j := |w| + |gap|;
    assert forall k :: |w| <= k < j ==> s[k] == gap[k - |w|];
    assert j < |s| ==> s[j] == rest[0];
    RunEndAt(s, |w|, j);
    assert s[..|w|] == w;
    assert s[j..] == rest;
  }

  /** A text that starts with non-whitespace has a non-empty first piece
      starting with that character. */
  lemma SplitFirstChar(s: string)
    requires s != "" && !IsWhitespace(s[0])
    ensures SplitWhitespace(s)[0] != "" && SplitWhitespace(s)[0][0] == s[0]
  {
  }

  function UpperChar(c: char): (r: char)
    ensures 'a' <= c <= 'z' ==> 'A' <= r <= 'Z' && r as int == c as int - 32
    ensures !('a' <= c <= 'z') ==> r == c
  {
    if 'a' <= c <= 'z' then (c as int - 32) as char else c
  }

  function LowerChar(c: char): (r: char)
    ensures 'A' <= c <= 'Z' ==> 'a' <= r <= 'z' && r as int == c as int + 32
    ensures !('A' <= c <= 'Z') ==> r == c
  {
    if 'A' <= c <= 'Z' then (c as int + 32) as char else c
  }

  /** `toUpperCase` restricted to ASCII letters. */
  function Upper(s: string): (r: string)
    ensures |r| == |s| && forall k :: 0 <= k < |s| ==> r[k] == UpperChar(s[k])
  {
    seq(|s|, k requires 0 <= k < |s| => UpperChar(s[k]))
  }

  /** `toLowerCase` restricted to ASCII letters. */
  function Lower(s: string): (r: string)
    ensures |r| == |s| && forall k :: 0 <= k < |s| ==> r[k] == LowerChar(s[k])
  {
    seq(|s|, k requires 0 <= k < |s| => LowerChar(s[k]))
  }

  /** Case mapping leaves whitespace where it was and adds none. */
  lemma LowerKeepsWhitespace(s: string)
    ensures NoWhitespace(s) <==> NoWhitespace(Lower(s))
  {
    assert forall k :: 0 <= k < |s| ==> (IsWhitespace(s[k]) <==> IsWhitespace(Lower(s)[k]));
  }

  /** `s.replace(/\s+/g, '')`: the text with every whitespace character removed. */
  function RemoveWhitespace(s: string): (r: string)
    ensures NoWhitespace(r) && |r| <= |s|
  {
    if s == "" then ""
    else if IsWhitespace(s[0]) then RemoveWhitespace(s[1..])
    else [s[0]] + RemoveWhitespace(s[1..])
  }

  /** Removing whitespace changes nothing in a text that has none, and a text
      that had only whitespace leaves nothing. */
  lemma {:induction false} RemoveWhitespaceKeeps(s: string)
    ensures NoWhitespace(s) ==> RemoveWhitespace(s) == s
    ensures AllWhitespace(s) ==> RemoveWhitespace(s) == ""
  {
    if s != "" {
      RemoveWhitespaceKeeps(s[1..]);
    }
  }

  /** Whitespace removal works piece by piece: on a concatenation it is the
      concatenation of the two results. With RemoveWhitespaceChar this fixes
      the result of every text: each non-whitespace character kept, in order. */
  lemma {:induction false} RemoveWhitespaceAppend(a: string, b: string)
    ensures RemoveWhitespace(a + b) == RemoveWhitespace(a) + RemoveWhitespace(b)
    decreases |a|
  {
    if a == "" {
      assert a + b == b;
    } else {
      assert (a + b)[0] == a[0];
      assert (a + b)[1..] == a[1..] + b;
      RemoveWhitespaceAppend(a[1..], b);
    }
  }

  /** A single character is dropped exactly when it is whitespace. */
  lemma RemoveWhitespaceChar(c: char)
    ensures RemoveWhitespace([c]) == if IsWhitespace(c) then "" else [c]
  {
    assert [c][1..] == "";
  }

  /** Substring search, as `includes` and Prisma's `contains`. */
  predicate Contains(hay: string, needle: string)
    decreases |hay|
  {
    needle <= hay || (hay != "" && Contains(hay[1..], needle))
  }

  /** `Contains` holds exactly when the needle occurs at some position. */
  lemma {:induction false} ContainsAt(hay: string, needle: string)
    ensures Contains(hay, needle) <==>
      exists i :: 0 <= i <= |hay| - |needle| && needle <= hay[i..]
    decreases |hay|
  {
    assert hay[0..] == hay;
    if hay != "" {
      ContainsAt(hay[1..], needle);
      if Contains(hay[1..], needle) {
        var i :| 0 <= i <= |hay[1..]| - |needle| && needle <= hay[1..][i..];
        assert hay[1..][i..] == hay[i + 1..];
        assert 0 <= i + 1 <= |hay| - |needle| && needle <= hay[i + 1..];
      }
      if exists i :: 0 <= i <= |hay| - |needle| && needle <= hay[i..] {
        var i :| 0 <= i <= |hay| - |needle| && needle <= hay[i..];
        if i > 0 {
          assert hay[1..][i - 1..] == hay[i..];
        }
      }
    }
  }

  /** Prisma's `contains` with `mode: "insensitive"`, on ASCII case. */
  predicate ContainsInsensitive(hay: string, needle: string) {
    Contains(Lower(hay), Lower(needle))
  }

  function DigitChar(d: nat): (c: char)
    requires d < 10
    ensures '0' <= c <= '9' && c as int - '0' as int == d
  {
    ('0' as int + d) as char
  }

  predicate AllDigits(s: string) {
    forall k :: 0 <= k < |s| ==> '0' <= s[k] <= '9'
  }

  /** A number written in decimal, as a template literal renders an integer. */
  function Decimal(n: nat): (r: string)
    ensures r != "" && AllDigits(r)
    ensures n > 0 ==> r[0] != '0'
  {
    if n < 10 then [DigitChar(n)] else Decimal(n / 10) + [DigitChar(n % 10)]
  }

  /** The number a string of decimal digits denotes. */
  function DecimalValue(s: string): nat
    requires AllDigits(s)
  {
    if s == "" then 0
    else 10 * DecimalValue(s[..|s| - 1]) + (s[|s| - 1] as int - '0' as int)
  }

  /** Reading a rendered number gives the number back. */
  lemma {:induction false} DecimalRoundTrip(n: nat)
    ensures DecimalValue(Decimal(n)) == n
  {
    if n >= 10 {
      DecimalRoundTrip(n / 10);
      var r := Decimal(n);
      assert r[..|r| - 1] == Decimal(n / 10);
    }
  }

  /** Numbers from 1000 to 9999 have exactly four digits. */
  lemma FourDigits(n: nat)
    requires 1000 <= n <= 9999
    ensures |Decimal(n)| == 4
  {
    var a := n / 10;
    var b := a / 10;
    var c := b / 10;
    assert 100 <= a < 1000 && 10 <= b < 100 && 1 <= c < 10;
    assert |Decimal(c)| == 1;
    assert |Decimal(b)| == 2;
    assert |Decimal(a)| == 3;
  }
}
