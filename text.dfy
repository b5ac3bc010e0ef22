/** String primitives of the Go and Python standard libraries that the system leans on:
    white-space classes, trimming, splitting and joining, strings.Fields, byte-order
    comparison of strings, decimal formatting of integers and strconv.Atoi. */
module Text {
  import opened Wrappers

  /** Which notion of white space a trimming function uses. */
  datatype Whitespace = GoSpace | PySpace

  /** Go's unicode.IsSpace, used by strings.TrimSpace and strings.Fields. */
  predicate IsSpace(c: char) {
    || c == '\t' || c == '\n' || c == '\U{0B}' || c == '\U{0C}' || c == '\r' || c == ' '
    || c == '\U{85}' || c == '\U{A0}' || c == '\U{1680}'
    || ('\U{2000}' <= c <= '\U{200A}')
    || c == '\U{2028}' || c == '\U{2029}' || c == '\U{202F}' || c == '\U{205F}' || c == '\U{3000}'
  }

  /** Python's str.isspace: Go's set plus the separators U+001C to U+001F. */
  predicate IsPySpace(c: char) {
    IsSpace(c) || ('\U{1C}' <= c <= '\U{1F}')
  }

  predicate IsWs(c: char, ws: Whitespace) {
    match ws
    case GoSpace => IsSpace(c)
    case PySpace => IsPySpace(c)
  }

  predicate AllWs(s: string, ws: Whitespace) {
    forall i :: 0 <= i < |s| ==> IsWs(s[i], ws)
  }

  /** s without its leading white space. */
  function TrimLeft(s: string, ws: Whitespace): (r: string)
    ensures |r| <= |s| && r == s[|s| - |r|..]
    ensures AllWs(s[..|s| - |r|], ws)
    ensures r == [] || !IsWs(r[0], ws)
    decreases |s|
  {
    if s != [] && IsWs(s[0], ws) then
      var r := TrimLeft(s[1..], ws);
      AllWsCons(s, |s| - |r|, ws);
      r
    else
      s
  }

  /** A white-space run at the front of s[1..], after a white-space s[0]. */
  lemma {:induction false} AllWsCons(s: string, k: nat, ws: Whitespace)
    requires 0 < k <= |s| && IsWs(s[0], ws) && AllWs(s[1..][..k - 1], ws)
    ensures AllWs(s[..k], ws)
  {
    forall i | 0 <= i < k ensures IsWs(s[..k][i], ws) {
      if i > 0 {
        assert s[..k][i] == s[1..][..k - 1][i - 1];
      }
    }
  }

  /** A white-space run at the end of s[..|s| - 1], before a white-space last character. */
  lemma {:induction false} AllWsSnoc(s: string, k: nat, ws: Whitespace)
    requires k < |s| && IsWs(s[|s| - 1], ws) && AllWs(s[..|s| - 1][k..], ws)
    ensures AllWs(s[k..], ws)
  {
    forall i | 0 <= i < |s| - k ensures IsWs(s[k..][i], ws) {
      if i < |s| - 1 - k {
        assert s[k..][i] == s[..|s| - 1][k..][i];
      }
    }
  }

  /** s without its trailing white space. */
  function TrimRight(s: string, ws: Whitespace): (r: string)
    ensures |r| <= |s| && r == s[..|r|]
    ensures AllWs(s[|r|..], ws)
    ensures r == [] || !IsWs(r[|r| - 1], ws)
    decreases |s|
  {
    if s != [] && IsWs(s[|s| - 1], ws) then
      var r := TrimRight(s[..|s| - 1], ws);
      AllWsSnoc(s, |r|, ws);
      r
    else
      s
  }

  /** strings.TrimSpace (GoSpace) and str.strip() (PySpace): a piece of s that neither
      starts nor ends with white space, empty exactly when s is all white space. */
  function Trim(s: string, ws: Whitespace): (r: string)
    ensures |r| <= |s|
    ensures r == [] || (!IsWs(r[0], ws) && !IsWs(r[|r| - 1], ws))
    ensures r == [] <==> AllWs(s, ws)
  {
    TrimEmpty(s, ws);
    var l := TrimLeft(s, ws);
    var r := TrimRight(l, ws);
    assert r != [] ==> r[0] == l[0];
    r
  }

  /** What Trim keeps is the contiguous piece of s between the leading and the trailing
      white space. */
  lemma {:induction false} TrimEmpty(s: string, ws: Whitespace)
    ensures TrimRight(TrimLeft(s, ws), ws) == [] <==> AllWs(s, ws)
  {
    var l := TrimLeft(s, ws);
    var r := TrimRight(l, ws);
    var k := |s| - |l|;
    if r == [] {
      assert l[|r|..] == l;
      forall i | 0 <= i < |s| ensures IsWs(s[i], ws) {
        if i < k {
          assert s[i] == s[..k][i];
        } else {
          assert s[i] == l[i - k];
        }
      }
    } else {
      assert s[k] == l[0];
    }
  }

  /** The characters of Trim(s) are a contiguous piece of s. */
  lemma {:induction false} TrimChars(s: string, ws: Whitespace)
    ensures var k := |s| - |TrimLeft(s, ws)|;
      k + |Trim(s, ws)| <= |s| && Trim(s, ws) == s[k..][..|Trim(s, ws)|]
  {
    var l := TrimLeft(s, ws);
    var r := TrimRight(l, ws);
    assert Trim(s, ws) == r;
    assert l == s[|s| - |l|..];
    assert r == l[..|r|];
  }

  /** Character i of Trim(s) is character k + i of s, k being the length of the leading
      white space. */
  lemma {:induction false} TrimIndex(s: string, ws: Whitespace, i: int)
    requires 0 <= i < |Trim(s, ws)|
    ensures |s| - |TrimLeft(s, ws)| + i < |s|
    ensures Trim(s, ws)[i] == s[|s| - |TrimLeft(s, ws)| + i]
  {
    TrimChars(s, ws);
    var k := |s| - |TrimLeft(s, ws)|;
    var u := s[k..];
    assert Trim(s, ws)[i] == u[..|Trim(s, ws)|][i] == u[i];
  }

  /** Padding a string with white space does not change what Trim returns. */
  lemma {:induction false} TrimPadded(p: string, s: string, q: string, ws: Whitespace)
    requires AllWs(p, ws) && AllWs(q, ws)
    ensures Trim(p + s + q, ws) == Trim(s, ws)
  {
    if AllWs(s, ws) {
      assert AllWs(p + s + q, ws);
    } else {
      TrimLeftPadded(p, s + q, ws);
      assert p + s + q == p + (s + q);
      var l := TrimLeft(s, ws);
      TrimLeftSuffix(s, q, ws);
      TrimRightPadded(l, q, ws);
    }
  }

  lemma {:induction false} TrimLeftPadded(p: string, t: string, ws: Whitespace)
    requires AllWs(p, ws)
    ensures TrimLeft(p + t, ws) == TrimLeft(t, ws)
    decreases |p|
  {
    if p == [] {
      assert p + t == t;
    } else {
      var pt := p + t;
      assert pt[0] == p[0] && IsWs(p[0], ws);
      assert pt[1..] == p[1..] + t;
      assert TrimLeft(pt, ws) == TrimLeft(pt[1..], ws);
      AllWsTail(p, ws);
      TrimLeftPadded(p[1..], t, ws);
    }
  }

  lemma {:induction false} AllWsTail(p: string, ws: Whitespace)
    requires p != [] && AllWs(p, ws)
    ensures AllWs(p[1..], ws)
  {
    forall i | 0 <= i < |p[1..]| ensures IsWs(p[1..][i], ws) {
      assert p[1..][i] == p[i + 1];
    }
  }

  lemma {:induction false} TrimLeftSuffix(s: string, q: string, ws: Whitespace)
    requires AllWs(q, ws) && !AllWs(s, ws)
    ensures TrimLeft(s + q, ws) == TrimLeft(s, ws) + q
    decreases |s|
  {
    assert s != [];
    var sq := s + q;
    assert sq[0] == s[0];
    if IsWs(s[0], ws) {
      NotAllWsTail(s, ws);
      assert sq[1..] == s[1..] + q;
      TrimLeftSuffix(s[1..], q, ws);
      assert TrimLeft(sq, ws) == TrimLeft(sq[1..], ws);
      assert TrimLeft(s, ws) == TrimLeft(s[1..], ws);
    } else {
      assert TrimLeft(sq, ws) == sq;
      assert TrimLeft(s, ws) == s;
    }
  }

  /** A string that starts with white space but is not all white space has a tail that is
      not all white space. */
  lemma {:induction false} NotAllWsTail(s: string, ws: Whitespace)
    requires s != [] && IsWs(s[0], ws) && !AllWs(s, ws)
    ensures !AllWs(s[1..], ws)
  {
    var i :| 0 <= i < |s| && !IsWs(s[i], ws);
    assert s[1..][i - 1] == s[i];
  }

  lemma {:induction false} TrimRightPadded(l: string, q: string, ws: Whitespace)
    requires AllWs(q, ws)
    ensures TrimRight(l + q, ws) == TrimRight(l, ws)
    decreases |q|
  {
    if q == [] {
      assert l + q == l;
    } else {
      assert (l + q)[..|l + q| - 1] == l + q[..|q| - 1];
      TrimRightPadded(l, q[..|q| - 1], ws);
    }
  }

  /** strings.Split(s, sep) and str.split(sep): the pieces between separators; there is
      always at least one piece. */
  function Split(s: string, sep: char): (parts: seq<string>)
    ensures |parts| >= 1
    decreases |s|
  {
    if s == [] then [[]]
    else
      var rest := Split(s[1..], sep);
      if s[0] == sep then [[]] + rest else [[s[0]] + rest[0]] + rest[1..]
  }

  /** No piece of a split contains the separator. */
  lemma {:induction false} SplitNoSep(s: string, sep: char)
    ensures forall i :: 0 <= i < |Split(s, sep)| ==> sep !in Split(s, sep)[i]
    decreases |s|
  {
    if s != [] {
      SplitNoSep(s[1..], sep);
    }
  }

  /** strings.Join(parts, sep). */
  function Join(parts: seq<string>, sep: string): string
  {
    if parts == [] then []
    else if |parts| == 1 then parts[0]
    else parts[0] + sep + Join(parts[1..], sep)
  }

  /** Joining the pieces of a split with the separator gives back the input. */
  lemma {:induction false} JoinSplit(s: string, sep: char)
    ensures Join(Split(s, sep), [sep]) == s
    decreases |s|
  {
    if s != [] {
      var rest := Split(s[1..], sep);
      JoinSplit(s[1..], sep);
      if s[0] == sep {
        assert s == [sep] + s[1..];
      } else if |rest| == 1 {
        assert s == [s[0]] + s[1..];
      } else {
        assert Join(rest, [sep]) == rest[0] + [sep] + Join(rest[1..], [sep]);
        assert s == [s[0]] + s[1..];
      }
    }
  }

  lemma {:induction false} SplitPrefix(a: string, b: string, sep: char)
    requires sep !in a
    ensures Split(a + b, sep) == [a + Split(b, sep)[0]] + Split(b, sep)[1..]
    decreases |a|
  {
    var B := Split(b, sep);
    if a == [] {
      assert a + b == b;
      assert B == [B[0]] + B[1..];
      assert a + B[0] == B[0];
    } else {
      assert (a + b)[1..] == a[1..] + b;
      assert (a + b)[0] == a[0] && a[0] != sep;
      assert sep !in a[1..];
      SplitPrefix(a[1..], b, sep);
      var rest := Split(a[1..] + b, sep);
      assert rest == [a[1..] + B[0]] + B[1..];
      assert rest[0] == a[1..] + B[0] && rest[1..] == B[1..];
      assert Split(a + b, sep) == [[a[0]] + rest[0]] + rest[1..];
      assert [a[0]] + (a[1..] + B[0]) == a + B[0];
    }
  }

  /** Splitting a join of separator-free pieces gives back the pieces. */
  lemma {:induction false} SplitJoin(parts: seq<string>, sep: char)
    requires |parts| >= 1
    requires forall i :: 0 <= i < |parts| ==> sep !in parts[i]
    ensures Split(Join(parts, [sep]), sep) == parts
    decreases |parts|
  {
    if |parts| == 1 {
      SplitPrefix(parts[0], [], sep);
      assert parts[0] + [] == parts[0];
    } else {
      SplitJoin(parts[1..], sep);
      var tail := [sep] + Join(parts[1..], [sep]);
      assert Join(parts, [sep]) == parts[0] + tail;
      SplitPrefix(parts[0], tail, sep);
      assert tail[1..] == Join(parts[1..], [sep]);
      assert tail[0] == sep;
      assert Split(tail, sep) == [[]] + parts[1..];
      assert parts[0] + [] == parts[0];
      assert parts == [parts[0]] + parts[1..];
    }
  }

  /** A string without white space at either end is its own trim. */
  lemma {:induction false} TrimUnpadded(t: string, ws: Whitespace)
    requires t != [] && !IsWs(t[0], ws) && !IsWs(t[|t| - 1], ws)
    ensures Trim(t, ws) == t
  {
    assert TrimLeft(t, ws) == t;
    assert TrimRight(t, ws) == t;
  }

  /** Trimming twice is trimming once. */
  lemma {:induction false} TrimIdempotent(s: string, ws: Whitespace)
    ensures Trim(Trim(s, ws), ws) == Trim(s, ws)
  {
    var t := Trim(s, ws);
    if t != [] {
      TrimUnpadded(t, ws);
    } else {
      TrimEmpty(t, ws);
    }
  }

  /** A non-empty string without white space at its ends (its own trim, by TrimUnpadded). */
  predicate IsTrimmed(t: string, ws: Whitespace) {
    t != [] && !IsWs(t[0], ws) && !IsWs(t[|t| - 1], ws)
  }

  /** The trimmed pieces that are not empty, in order (the split-and-trim loops). */
  function KeepTrimmed(parts: seq<string>, ws: Whitespace): seq<string>
    decreases |parts|
  {
    if parts == [] then []
    else
      var t := Trim(parts[|parts| - 1], ws);
      KeepTrimmed(parts[..|parts| - 1], ws) + (if t != [] then [t] else [])
  }

  /** The kept pieces are no more than the pieces, none is empty and none has white space
      at an end. */
  lemma {:induction false} KeepTrimmedShape(parts: seq<string>, ws: Whitespace)
    ensures |KeepTrimmed(parts, ws)| <= |parts|
    ensures forall i :: 0 <= i < |KeepTrimmed(parts, ws)| ==> IsTrimmed(KeepTrimmed(parts, ws)[i], ws)
    decreases |parts|
  {
    if parts != [] {
      var init := parts[..|parts| - 1];
      var t := Trim(parts[|parts| - 1], ws);
      KeepTrimmedShape(init, ws);
      var k := KeepTrimmed(init, ws);
      assert KeepTrimmed(parts, ws) == k + (if t != [] then [t] else []);
      assert t != [] ==> IsTrimmed(t, ws);
    }
  }

  lemma {:induction false} KeepTrimmedSnoc(parts: seq<string>, p: string, ws: Whitespace)
    ensures KeepTrimmed(parts + [p], ws) ==
      KeepTrimmed(parts, ws) + (if Trim(p, ws) != [] then [Trim(p, ws)] else [])
  {
    assert (parts + [p])[..|parts|] == parts;
  }

  /** Names that are non-empty, carry no white space at their ends and no comma come back
      unchanged from joining them with ',' and splitting and trimming the result. */
  lemma {:induction false} KeepTrimmedJoin(names: seq<string>, ws: Whitespace)
    requires forall i :: 0 <= i < |names| ==> IsTrimmed(names[i], ws)
    requires forall i :: 0 <= i < |names| ==> ',' !in names[i]
    ensures KeepTrimmed(Split(Join(names, ","), ','), ws) == names
  {
    if names == [] {
      assert Split(Join(names, ","), ',') == [[]];
      TrimEmpty([], ws);
      assert KeepTrimmed([[]], ws) == KeepTrimmed([], ws) + [];
    } else {
      SplitJoin(names, ',');
      KeepAll(names, ws);
    }
  }

  lemma {:induction false} KeepAll(names: seq<string>, ws: Whitespace)
    requires forall i :: 0 <= i < |names| ==> IsTrimmed(names[i], ws)
    ensures KeepTrimmed(names, ws) == names
    decreases |names|
  {
    if names != [] {
      var init := names[..|names| - 1];
      var last := names[|names| - 1];
      assert names == init + [last];
      KeepAll(init, ws);
      KeepTrimmedSnoc(init, last, ws);
      TrimUnpadded(last, ws);
    }
  }

  /** A non-empty run of characters none of which is white space. */
  predicate IsWord(w: string) {
    w != [] && forall i :: 0 <= i < |w| ==> !IsSpace(w[i])
  }

  /** Length of the leading run of non-white-space characters. */
  function WordLen(s: string): (n: nat)
    ensures n <= |s|
    ensures forall i :: 0 <= i < n ==> !IsSpace(s[i])
    ensures n < |s| ==> IsSpace(s[n])
    decreases |s|
  {
    if s == [] || IsSpace(s[0]) then 0 else 1 + WordLen(s[1..])
  }

  /** strings.Fields: the maximal runs of non-white-space characters, in order. */
  function Fields(s: string): (words: seq<string>)
    ensures forall i :: 0 <= i < |words| ==> IsWord(words[i])
    decreases |s|
  {
    if s == [] then []
    else if IsSpace(s[0]) then Fields(s[1..])
    else
      var n := WordLen(s);
      [s[..n]] + Fields(s[n..])
  }

  lemma {:induction false} WordLenOfWord(w: string, rest: string)
    requires IsWord(w)
    requires rest == [] || IsSpace(rest[0])
    ensures WordLen(w + rest) == |w|
    decreases |w|
  {
    if |w| > 1 {
      assert (w + rest)[1..] == w[1..] + rest;
      WordLenOfWord(w[1..], rest);
    } else {
      assert (w + rest)[1..] == rest;
    }
  }

  /** Words joined by single spaces split back into the same words. */
  lemma {:induction false} FieldsJoin(words: seq<string>)
    requires forall i :: 0 <= i < |words| ==> IsWord(words[i])
    ensures Fields(Join(words, " ")) == words
    decreases |words|
  {
    if |words| == 1 {
      var w := words[0];
      WordLenOfWord(w, []);
      assert w + [] == w;
      assert w[|w|..] == [];
    } else if |words| > 1 {
      var w := words[0];
      var rest := " " + Join(words[1..], " ");
      assert Join(words, " ") == w + rest;
      WordLenOfWord(w, rest);
      assert (w + rest)[..|w|] == w;
      assert (w + rest)[|w|..] == rest;
      assert rest[1..] == Join(words[1..], " ");
      FieldsJoin(words[1..]);
    }
  }

  /** Byte-wise string comparison of Go (for valid UTF-8 it orders by code point). */
  predicate LexLess(a: string, b: string)
    decreases |a|
  {
    b != [] && (a == [] || a[0] < b[0] || (a[0] == b[0] && LexLess(a[1..], b[1..])))
  }

  lemma {:induction false} LexLessIrreflexive(a: string)
    ensures !LexLess(a, a)
    decreases |a|
  {
    if a != [] {
      LexLessIrreflexive(a[1..]);
    }
  }

  lemma {:induction false} LexLessAsymmetric(a: string, b: string)
    requires LexLess(a, b)
    ensures !LexLess(b, a)
    decreases |a|
  {
    if a != [] && a[0] == b[0] {
      LexLessAsymmetric(a[1..], b[1..]);
    }
  }

  lemma {:induction false} LexLessTransitive(a: string, b: string, c: string)
    requires LexLess(a, b) && LexLess(b, c)
    ensures LexLess(a, c)
    decreases |a|
  {
    if a != [] && a[0] == b[0] && b[0] == c[0] {
      LexLessTransitive(a[1..], b[1..], c[1..]);
    }
  }

  lemma {:induction false} LexLessTotal(a: string, b: string)
    requires a != b
    ensures LexLess(a, b) || LexLess(b, a)
    decreases |a|
  {
    if a != [] && b != [] && a[0] == b[0] {
      assert a == [a[0]] + a[1..] && b == [b[0]] + b[1..];
      LexLessTotal(a[1..], b[1..]);
    }
  }

  predicate IsDigit(c: char) {
    '0' <= c <= '9'
  }

  predicate AllDigits(s: string) {
    forall i :: 0 <= i < |s| ==> IsDigit(s[i])
  }

  function DigitChar(d: nat): (c: char)
    requires d < 10
    ensures IsDigit(c)
  {
    ('0' as int + d) as char
  }

  /** Decimal digits of a natural number, most significant first, without leading zeros. */
  function Digits(n: nat): (s: string)
    ensures s != [] && AllDigits(s)
    decreases n
  {
    if n < 10 then [DigitChar(n)] else Digits(n / 10) + [DigitChar(n % 10)]
  }

  /** Go's strconv.Itoa and Python's str() on an int. */
  function DecimalString(n: int): string {
    if n < 0 then "-" + Digits(-n) else Digits(n)
  }

  function DigitsValue(s: string): nat
    requires AllDigits(s)
    decreases |s|
  {
    if s == [] then 0
    else DigitsValue(s[..|s| - 1]) * 10 + (s[|s| - 1] as int - '0' as int)
  }

  lemma {:induction false} DigitsValueOfDigits(n: nat)
    ensures DigitsValue(Digits(n)) == n
    decreases n
  {
    if n >= 10 {
      DigitsValueOfDigits(n / 10);
      var s := Digits(n);
      assert s[..|s| - 1] == Digits(n / 10);
    }
  }

  const MinInt64: int := -0x8000_0000_0000_0000
  const MaxInt64: int := 0x7FFF_FFFF_FFFF_FFFF

  /** strconv.Atoi on a 64-bit platform: an optional sign, then one or more decimal
      digits, with the value inside the int64 range; anything else is an error. */
  function Atoi(s: string): (r: Option<int>)
    ensures r.Some? ==> MinInt64 <= r.value <= MaxInt64
    ensures r.Some? ==> s != [] && (IsDigit(s[0]) || s[0] == '+' || s[0] == '-')
  {
    var signed := s != [] && (s[0] == '+' || s[0] == '-');
    var body := if signed then s[1..] else s;
    if body == [] || !AllDigits(body) then None
    else
      var v: int := if s[0] == '-' then 0 - DigitsValue(body) else DigitsValue(body);
      if MinInt64 <= v <= MaxInt64 then Some(v) else None
  }

  /** Atoi reads back every int64 that DecimalString writes. */
  lemma {:induction false} AtoiDecimalString(n: int)
    requires MinInt64 <= n <= MaxInt64
    ensures Atoi(DecimalString(n)) == Some(n)
  {
    var s := DecimalString(n);
    if n < 0 {
      var d := Digits(-n);
      DigitsValueOfDigits(-n);
      assert s == "-" + d && s[0] == '-' && s[1..] == d;
      assert !IsDigit('-');
    } else {
      DigitsValueOfDigits(n);
      assert IsDigit(s[0]);
    }
  }
}
