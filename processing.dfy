/** The text processor of the worker: URL extraction, text cleaning, keyword ranking,
    title generation and document IDs. */
module Processing {
  import opened Text
  import opened Urls
  import opened Platform

  // ---------------------------------------------------------------------------------
  // ExtractURLs

  /** The list with later repetitions dropped, kept in first-occurrence order. */
  function Dedup(ms: seq<string>): seq<string>
    decreases |ms|
  {
    if ms == [] then []
    else
      var d := Dedup(ms[..|ms| - 1]);
      if ms[|ms| - 1] in d then d else d + [ms[|ms| - 1]]
  }

  predicate Distinct(s: seq<string>) {
    forall i, j :: 0 <= i < j < |s| ==> s[i] != s[j]
  }

  /** Position of the first occurrence of x in ms. */
  function FirstIndex(ms: seq<string>, x: string): (k: nat)
    requires x in ms
    ensures k < |ms| && ms[k] == x && x !in ms[..k]
    decreases |ms|
  {
    var init := ms[..|ms| - 1];
    if x in init then
      var k := FirstIndex(init, x);
      assert ms[..k] == init[..k];
      k
    else
      assert ms[..|ms| - 1] == init;
      |ms| - 1
  }

  /** Dedup keeps exactly the elements of its input, each once, in the order in which
      they first occur. */
  lemma {:induction false} DedupSpec(ms: seq<string>)
    ensures Distinct(Dedup(ms))
    ensures forall x :: x in Dedup(ms) <==> x in ms
    ensures forall i, j :: 0 <= i < j < |Dedup(ms)| ==>
      FirstIndex(ms, Dedup(ms)[i]) < FirstIndex(ms, Dedup(ms)[j])
    decreases |ms|
  {
    if ms != [] {
      var init := ms[..|ms| - 1];
      var x := ms[|ms| - 1];
      var d := Dedup(init);
      DedupSpec(init);
      assert ms == init + [x];
      forall y | y in init ensures FirstIndex(ms, y) == FirstIndex(init, y) {
      }
      if x !in d {
        assert FirstIndex(ms, x) == |ms| - 1;
        forall i | 0 <= i < |d| ensures FirstIndex(ms, d[i]) < FirstIndex(ms, x) {
          assert d[i] in init;
        }
      }
    }
  }

  /** ExtractURLs: the matches of the URL pattern, first occurrences only, in order; the
      empty list (Go's nil) for empty input or when nothing matches. */
  method ExtractUrls(input: string) returns (urls: seq<string>)
    ensures urls == Dedup(FindUrls(input))
    ensures urls == [] <==> FindUrls(input) == []
    ensures Distinct(urls) && forall u :: u in urls ==> IsUrl(u) && u in FindUrls(input)
  {
    var matches := FindUrls(input);
    DedupSpec(matches);
    if input == [] {
      return [];
    }
    if |matches| == 0 {
      return [];
    }
    var seen: set<string> := {};
    urls := [];
    for i := 0 to |matches|
      invariant urls == Dedup(matches[..i])
      invariant forall u :: u in seen <==> u in urls
    {
      var url := matches[i];
      assert matches[..i + 1][..i] == matches[..i];
      if url !in seen {
        seen := seen + {url};
        urls := urls + [url];
      }
    }
    assert matches[..|matches|] == matches;
  }

  // ---------------------------------------------------------------------------------
  // CleanText

  /** A character of the class `[^\p{L}\p{N}\s]`. */
  predicate IsPunct(h: Host, c: char) {
    !IsLetterOrNumber(h, c) && !IsReSpace(c)
  }

  function PunctRun(h: Host, s: string): (n: nat)
    ensures n <= |s|
    ensures n < |s| ==> !IsPunct(h, s[n])
    ensures s != [] && IsPunct(h, s[0]) ==> n >= 1
  {
    if s == [] || !IsPunct(h, s[0]) then 0 else 1 + PunctRun(h, s[1..])
  }

  function SpaceRun(s: string): (n: nat)
    ensures n <= |s|
    ensures n < |s| ==> !IsReSpace(s[n])
    ensures s != [] && IsReSpace(s[0]) ==> n >= 1
  {
    if s == [] || !IsReSpace(s[0]) then 0 else 1 + SpaceRun(s[1..])
  }

  /** punctuation.ReplaceAllString(s, " "): every maximal run of punctuation becomes one
      space; what is left is letters, numbers and `\s`. */
  function Depunct(h: Host, s: string): (r: string)
    ensures forall i :: 0 <= i < |r| ==> IsLetterOrNumber(h, r[i]) || IsReSpace(r[i])
    decreases |s|
  {
    if s == [] then []
    else if IsPunct(h, s[0]) then " " + Depunct(h, s[PunctRun(h, s)..])
    else [s[0]] + Depunct(h, s[1..])
  }

  /** whitespace.ReplaceAllString(s, " "): every maximal run of `\s` becomes one space. */
  function Squeeze(s: string): (r: string)
    ensures forall i :: 0 <= i < |r| ==> r[i] == ' ' || (!IsReSpace(r[i]) && r[i] in s)
    ensures s == [] <==> r == []
    ensures s != [] ==> (IsReSpace(s[0]) <==> r[0] == ' ')
    ensures forall i :: 0 <= i < |r| - 1 ==> !(r[i] == ' ' && r[i + 1] == ' ')
    decreases |s|
  {
    if s == [] then []
    else if IsReSpace(s[0]) then
      var rest := s[SpaceRun(s)..];
      var r := " " + Squeeze(rest);
      assert forall c :: c in rest ==> c in s;
      r
    else
      var r := [s[0]] + Squeeze(s[1..]);
      assert forall c :: c in s[1..] ==> c in s;
      r
  }

  /** CleanText: "" stays ""; otherwise unescape HTML, remove URLs, turn punctuation runs
      and white-space runs into single spaces and trim. */
  function CleanText(h: Host, input: string): (r: string)
    ensures input == [] ==> r == []
    ensures r == [] || (!IsWs(r[0], GoSpace) && !IsWs(r[|r| - 1], GoSpace))
  {
    if input == [] then []
    else Trim(Squeeze(Depunct(h, RemoveUrls(h.unescapeHtml(input)))), GoSpace)
  }

  /** A text without ':' holds no URL. */
  lemma {:induction false} NoColonNoMatch(r: string)
    requires forall i :: 0 <= i < |r| ==> r[i] != ':'
    ensures NoMatch(r)
  {
    forall i | 0 <= i <= |r| ensures MatchLen(r[i..]) == 0 {
      var t := r[i..];
      if |t| > 8 {
        assert t[..8][5] == r[i + 5];
      }
      if |t| > 7 {
        assert t[..7][4] == r[i + 4];
      }
    }
  }

  /** Trimming keeps "only letters, numbers and spaces". */
  lemma {:induction false} TrimKeepsLetters(h: Host, w: string)
    requires forall i :: 0 <= i < |w| ==> IsLetterOrNumber(h, w[i]) || w[i] == ' '
    ensures var r := Trim(w, GoSpace);
      forall i :: 0 <= i < |r| ==> IsLetterOrNumber(h, r[i]) || r[i] == ' '
  {
    var r := Trim(w, GoSpace);
    forall i | 0 <= i < |r| ensures IsLetterOrNumber(h, r[i]) || r[i] == ' ' {
      TrimIndex(w, GoSpace, i);
    }
  }

  /** Letters, numbers and spaces hold no URL. */
  lemma {:induction false} LettersHaveNoMatch(h: Host, r: string)
    requires forall i :: 0 <= i < |r| ==> IsLetterOrNumber(h, r[i]) || r[i] == ' '
    ensures NoMatch(r)
  {
    forall i | 0 <= i < |r| ensures r[i] != ':' {
      assert IsLetterOrNumber(h, r[i]) || r[i] == ' ';
    }
    NoColonNoMatch(r);
  }

  /** Trimming keeps "no two spaces in a row". */
  lemma {:induction false} TrimKeepsSingleSpaces(w: string)
    requires forall i :: 0 <= i < |w| - 1 ==> !(w[i] == ' ' && w[i + 1] == ' ')
    ensures var r := Trim(w, GoSpace);
      forall i :: 0 <= i < |r| - 1 ==> !(r[i] == ' ' && r[i + 1] == ' ')
  {
    var r := Trim(w, GoSpace);
    forall i | 0 <= i < |r| - 1 ensures !(r[i] == ' ' && r[i + 1] == ' ') {
      TrimIndex(w, GoSpace, i);
      TrimIndex(w, GoSpace, i + 1);
    }
  }

  /** After punctuation removal, squeezing leaves letters, numbers and plain spaces. */
  lemma {:induction false} SqueezeLetters(h: Host, p: string)
    requires forall i :: 0 <= i < |p| ==> IsLetterOrNumber(h, p[i]) || IsReSpace(p[i])
    ensures forall i :: 0 <= i < |Squeeze(p)| ==> IsLetterOrNumber(h, Squeeze(p)[i]) || Squeeze(p)[i] == ' '
  {
    var w := Squeeze(p);
    forall i | 0 <= i < |w| ensures IsLetterOrNumber(h, w[i]) || w[i] == ' ' {
      if w[i] != ' ' {
        var j :| 0 <= j < |p| && p[j] == w[i];
      }
    }
  }

  /** Squeezing and trimming text made of letters, numbers and `\s` leaves letters,
      numbers and single inner spaces, and so no URL. */
  lemma {:induction false} SqueezedTrimShape(h: Host, p: string)
    requires forall i :: 0 <= i < |p| ==> IsLetterOrNumber(h, p[i]) || IsReSpace(p[i])
    ensures var r := Trim(Squeeze(p), GoSpace);
      && (forall i :: 0 <= i < |r| ==> IsLetterOrNumber(h, r[i]) || r[i] == ' ')
      && (forall i :: 0 <= i < |r| - 1 ==> !(r[i] == ' ' && r[i + 1] == ' '))
      && NoMatch(r)
  {
    var w := Squeeze(p);
    var r := Trim(w, GoSpace);
    SqueezeLetters(h, p);
    TrimKeepsLetters(h, w);
    TrimKeepsSingleSpaces(w);
    LettersHaveNoMatch(h, r);
  }

  /** What CleanText returns: "" for "", and otherwise only letters, numbers and single
      spaces between them: no space at either end, no two spaces in a row, no punctuation
      and no URL. */
  lemma {:induction false} CleanTextShape(h: Host, input: string)
    ensures input == [] ==> CleanText(h, input) == []
    ensures var r := CleanText(h, input);
      && (forall i :: 0 <= i < |r| ==> IsLetterOrNumber(h, r[i]) || r[i] == ' ')
      && (r == [] || (r[0] != ' ' && r[|r| - 1] != ' '))
      && (forall i :: 0 <= i < |r| - 1 ==> !(r[i] == ' ' && r[i + 1] == ' '))
      && NoMatch(r)
  {
    if input != [] {
      var p := Depunct(h, RemoveUrls(h.unescapeHtml(input)));
      assert CleanText(h, input) == Trim(Squeeze(p), GoSpace);
      SqueezedTrimShape(h, p);
    } else {
      NoColonNoMatch([]);
    }
  }

  // ---------------------------------------------------------------------------------
  // ExtractKeywords

  const Stopwords: set<string> := {
    "и", "в", "на", "с", "по", "к",
    "a", "an", "the", "to", "in", "for",
    "что", "как", "это", "из", "от", "до"
  }

  /** strings.TrimFunc with "neither a letter nor a number" on the left. */
  function DropLeft(h: Host, s: string): (r: string)
    ensures |r| <= |s| && r == s[|s| - |r|..]
    ensures r == [] || IsLetterOrNumber(h, r[0])
    decreases |s|
  {
    if s != [] && !IsLetterOrNumber(h, s[0]) then DropLeft(h, s[1..]) else s
  }

  /** strings.TrimFunc with "neither a letter nor a number" on the right. */
  function DropRight(h: Host, s: string): (r: string)
    ensures |r| <= |s| && r == s[..|r|]
    ensures r == [] || IsLetterOrNumber(h, r[|r| - 1])
    decreases |s|
  {
    if s != [] && !IsLetterOrNumber(h, s[|s| - 1]) then DropRight(h, s[..|s| - 1]) else s
  }

  /** The token with the characters that are neither letters nor numbers trimmed off. */
  function TrimToken(h: Host, s: string): (r: string)
    ensures |r| <= |s|
    ensures r == [] || (IsLetterOrNumber(h, r[0]) && IsLetterOrNumber(h, r[|r| - 1]))
  {
    var l := DropLeft(h, s);
    var r := DropRight(h, l);
    assert r != [] ==> r[0] == l[0];
    r
  }

  /** A trimmed token is counted when it has at least minLen runes and is no stop-word. */
  predicate Qualifies(token: string, minLen: int) {
    |token| >= minLen && token !in Stopwords
  }

  /** The counted tokens of a token list, in order. */
  function Qualifying(h: Host, tokens: seq<string>, minLen: int): seq<string>
    decreases |tokens|
  {
    if tokens == [] then []
    else
      var t := TrimToken(h, tokens[|tokens| - 1]);
      Qualifying(h, tokens[..|tokens| - 1], minLen) + (if Qualifies(t, minLen) then [t] else [])
  }

  /** Every word Qualifying keeps qualifies. */
  lemma {:induction false} QualifyingQualifies(h: Host, tokens: seq<string>, minLen: int)
    ensures forall i :: 0 <= i < |Qualifying(h, tokens, minLen)| ==> Qualifies(Qualifying(h, tokens, minLen)[i], minLen)
    decreases |tokens|
  {
    if tokens != [] {
      var init := tokens[..|tokens| - 1];
      var t := TrimToken(h, tokens[|tokens| - 1]);
      QualifyingQualifies(h, init, minLen);
      var q := Qualifying(h, init, minLen);
      assert Qualifying(h, tokens, minLen) == q + (if Qualifies(t, minLen) then [t] else []);
    }
  }

  /** The tokens ExtractKeywords looks at: the fields of the lower-cased clean text. */
  function Tokens(h: Host, text: string): seq<string> {
    Fields(ToLower(h, CleanText(h, text)))
  }

  /** The frequency table of a word list. */
  function Counts(ws: seq<string>): map<string, int>
    decreases |ws|
  {
    if ws == [] then map[]
    else
      var m := Counts(ws[..|ws| - 1]);
      var w := ws[|ws| - 1];
      m[w := (if w in m then m[w] else 0) + 1]
  }

  /** The table holds each word of the list with its number of occurrences. */
  lemma {:induction false} CountsSpec(ws: seq<string>)
    ensures forall w :: w in Counts(ws) <==> w in ws
    ensures forall w :: w in Counts(ws) ==> Counts(ws)[w] == multiset(ws)[w] >= 1
    decreases |ws|
  {
    if ws != [] {
      var init := ws[..|ws| - 1];
      CountsSpec(init);
      assert ws == init + [ws[|ws| - 1]];
    }
  }

  /** The ranking: higher count first, equal counts in byte order of the word. */
  predicate RankBefore(freq: map<string, int>, a: string, b: string)
    requires a in freq && b in freq
  {
    freq[a] > freq[b] || (freq[a] == freq[b] && LexLess(a, b))
  }

  lemma {:induction false} RankTotal(freq: map<string, int>, a: string, b: string)
    requires a in freq && b in freq && a != b
    ensures RankBefore(freq, a, b) || RankBefore(freq, b, a)
  {
    if freq[a] == freq[b] {
      LexLessTotal(a, b);
    }
  }

  lemma {:induction false} RankAsymmetric(freq: map<string, int>, a: string, b: string)
    requires a in freq && b in freq && RankBefore(freq, a, b)
    ensures !RankBefore(freq, b, a)
  {
    if freq[a] == freq[b] {
      LexLessAsymmetric(a, b);
    }
  }

  lemma {:induction false} RankTransitive(freq: map<string, int>, a: string, b: string, c: string)
    requires a in freq && b in freq && c in freq
    requires RankBefore(freq, a, b) && RankBefore(freq, b, c)
    ensures RankBefore(freq, a, c)
  {
    if freq[a] == freq[b] == freq[c] {
      LexLessTransitive(a, b, c);
    }
  }

  /** Words of the table in strictly ranked order. */
  predicate Ranked(freq: map<string, int>, ws: seq<string>) {
    && (forall i :: 0 <= i < |ws| ==> ws[i] in freq)
    && (forall i, j :: 0 <= i < j < |ws| ==> RankBefore(freq, ws[i], ws[j]))
  }

  /** Insert w into a ranked list at its place. */
  method Insert(freq: map<string, int>, ws: seq<string>, w: string) returns (r: seq<string>)
    requires w in freq && w !in ws && Ranked(freq, ws)
    ensures Ranked(freq, r) && multiset(r) == multiset(ws) + multiset{w}
  {
    var j := 0;
    while j < |ws| && RankBefore(freq, ws[j], w)
      invariant 0 <= j <= |ws|
      invariant forall i :: 0 <= i < j ==> RankBefore(freq, ws[i], w)
    {
      j := j + 1;
    }
    r := ws[..j] + [w] + ws[j..];
    RankedAfter(freq, ws, w, j);
    RankedInsertion(freq, ws, w, j);
    assert ws == ws[..j] + ws[j..];
  }

  /** In a ranked list, a word ranked before the entry at j is ranked before every entry
      from j on. */
  lemma {:induction false} RankedAfter(freq: map<string, int>, ws: seq<string>, w: string, j: nat)
    requires w in freq && w !in ws && Ranked(freq, ws) && j <= |ws|
    requires j < |ws| ==> !RankBefore(freq, ws[j], w)
    ensures forall k :: j <= k < |ws| ==> RankBefore(freq, w, ws[k])
  {
    if j < |ws| {
      RankTotal(freq, ws[j], w);
      forall k | j <= k < |ws| ensures RankBefore(freq, w, ws[k]) {
        if k > j {
          RankTransitive(freq, w, ws[j], ws[k]);
        }
      }
    }
  }

  /** Putting w between the entries ranked before it and those ranked after it keeps the
      list ranked. */
  lemma {:induction false} RankedInsertion(freq: map<string, int>, ws: seq<string>, w: string, j: nat)
    requires w in freq && Ranked(freq, ws) && j <= |ws|
    requires forall i :: 0 <= i < j ==> RankBefore(freq, ws[i], w)
    requires forall k :: j <= k < |ws| ==> RankBefore(freq, w, ws[k])
    ensures Ranked(freq, ws[..j] + [w] + ws[j..])
  {
    var r := ws[..j] + [w] + ws[j..];
    assert |r| == |ws| + 1;
    forall i | 0 <= i < |r| ensures r[i] in freq {
      if i < j {
        assert r[i] == ws[i];
      } else if i > j {
        assert r[i] == ws[i - 1];
      }
    }
    forall a, b | 0 <= a < b < |r| ensures RankBefore(freq, r[a], r[b]) {
      if b < j {
        assert r[a] == ws[a] && r[b] == ws[b];
      } else if a < j && b == j {
        assert r[a] == ws[a] && r[b] == w;
      } else if a < j {
        assert r[a] == ws[a] && r[b] == ws[b - 1];
      } else if a == j {
        assert r[a] == w && r[b] == ws[b - 1];
      } else {
        assert r[a] == ws[a - 1] && r[b] == ws[b - 1];
      }
    }
  }

  /** The words of the table, sorted by rank. The table's iteration order is left open
      (Go's map order is unspecified); RankedUnique shows that it does not matter. */
  method SortByRank(freq: map<string, int>) returns (pairs: seq<string>)
    ensures Ranked(freq, pairs) && Distinct(pairs)
    ensures forall w :: w in pairs <==> w in freq
  {
    var rest := freq.Keys;
    pairs := [];
    while rest != {}
      invariant rest <= freq.Keys && Ranked(freq, pairs)
      invariant forall w :: w in freq ==> (w in pairs <==> w !in rest)
      decreases |rest|
    {
      var w :| w in rest;
      rest := rest - {w};
      pairs := Insert(freq, pairs, w);
      assert forall x :: x in pairs <==> x in multiset(pairs);
    }
    forall i, j | 0 <= i < j < |pairs| ensures pairs[i] != pairs[j] {
      RankAsymmetric(freq, pairs[i], pairs[j]);
    }
  }

  /** A ranked list of all the words of the table is unique: whatever order the table is
      visited in, the sorted result is the same. */
  lemma {:induction false} RankedUnique(freq: map<string, int>, a: seq<string>, b: seq<string>)
    requires Ranked(freq, a) && Ranked(freq, b)
    requires forall w :: w in a <==> w in b
    ensures a == b
    decreases |a|
  {
    if b != [] {
      assert b[0] in a;
    }
    if a != [] {
      assert a[0] in b && b[0] in a;
      var i :| 0 <= i < |a| && a[i] == b[0];
      var j :| 0 <= j < |b| && b[j] == a[0];
      if i > 0 && j > 0 {
        RankAsymmetric(freq, a[0], a[i]);
      }
      assert a[0] == b[0];
      forall w ensures w in a[1..] <==> w in b[1..] {
        if w in a[1..] {
          var i :| 1 <= i < |a| && a[i] == w;
          RankAsymmetric(freq, a[0], a[i]);
          assert w in b;
          var j :| 0 <= j < |b| && b[j] == w;
          assert b[1..][j - 1] == w;
        }
        if w in b[1..] {
          var j :| 1 <= j < |b| && b[j] == w;
          RankAsymmetric(freq, b[0], b[j]);
          assert w in a;
          var i :| 0 <= i < |a| && a[i] == w;
          assert a[1..][i - 1] == w;
        }
      }
      RankedUnique(freq, a[1..], b[1..]);
      assert a == [a[0]] + a[1..] && b == [b[0]] + b[1..];
    }
  }

  /** How many keywords are returned: limit, unless it is <= 0 or above the number of
      distinct words, in which case all of them. */
  function KeywordCount(limit: int, distinct: nat): nat {
    if limit <= 0 || limit > distinct then distinct else limit
  }

  /** ks is the top of the ranking of freq: words of the table, each once, in rank order,
      as many as KeywordCount says, and no word left out ranks above a word kept. */
  predicate TopRanked(freq: map<string, int>, ks: seq<string>, limit: int) {
    && Distinct(ks) && Ranked(freq, ks)
    && |ks| == KeywordCount(limit, |freq|)
    && forall w, i :: w in freq && w !in ks && 0 <= i < |ks| ==> RankBefore(freq, ks[i], w)
  }

  /** The first KeywordCount words of the full ranking are its top. */
  lemma {:induction false} PrefixIsTop(freq: map<string, int>, pairs: seq<string>, limit: int)
    requires Ranked(freq, pairs) && Distinct(pairs) && forall w :: w in pairs <==> w in freq
    ensures |pairs| == |freq|
    ensures TopRanked(freq, pairs[..KeywordCount(limit, |freq|)], limit)
  {
    assert (set w | w in pairs) == freq.Keys;
    DistinctCard(pairs);
    var ks := pairs[..KeywordCount(limit, |freq|)];
    forall w, i | w in freq && w !in ks && 0 <= i < |ks| ensures RankBefore(freq, ks[i], w) {
      var m :| 0 <= m < |pairs| && pairs[m] == w;
      assert m >= |ks|;
      assert ks[i] == pairs[i];
    }
  }

  /** One iteration of the frequency loop on a trimmed token: skipped when it has fewer
      than minLen runes or is a stop-word, counted once more otherwise. */
  function Tally(freq: map<string, int>, token: string, minLen: int): (r: map<string, int>)
    ensures !Qualifies(token, minLen) ==> r == freq
    ensures Qualifies(token, minLen) ==> r.Keys == freq.Keys + {token}
    ensures Qualifies(token, minLen) ==> r[token] == (if token in freq then freq[token] else 0) + 1
    ensures forall w :: w in freq && w != token ==> w in r && r[w] == freq[w]
  {
    if |token| < minLen then freq
    else if token in Stopwords then freq
    else freq[token := (if token in freq then freq[token] else 0) + 1]
  }

  /** One step of the frequency loop: the table grows by the trimmed token exactly when
      it qualifies. */
  lemma {:induction false} CountStep(h: Host, tokens: seq<string>, i: nat, minLen: int)
    requires i < |tokens|
    ensures Counts(Qualifying(h, tokens[..i + 1], minLen))
      == Tally(Counts(Qualifying(h, tokens[..i], minLen)), TrimToken(h, tokens[i]), minLen)
  {
    var pre := tokens[..i + 1];
    assert pre[..i] == tokens[..i] && pre[i] == tokens[i];
    var qs := Qualifying(h, tokens[..i], minLen);
    var t := TrimToken(h, tokens[i]);
    var m := Counts(qs);
    if Qualifies(t, minLen) {
      assert Qualifying(h, pre, minLen) == qs + [t];
      assert (qs + [t])[..|qs|] == qs;
      assert Counts(qs + [t]) == m[t := (if t in m then m[t] else 0) + 1];
    } else {
      assert Qualifying(h, pre, minLen) == qs + [];
      assert qs + [] == qs;
    }
  }

  /** The frequency loop of ExtractKeywords: trim each token, skip short ones and
      stop-words, count the rest (the two skips are in Tally). */
  method CountTokens(h: Host, tokens: seq<string>, minLen: int) returns (freq: map<string, int>)
    ensures freq == Counts(Qualifying(h, tokens, minLen))
  {
    freq := map[];
    assert tokens[..0] == [];
    for i := 0 to |tokens|
      invariant freq == Counts(Qualifying(h, tokens[..i], minLen))
    {
      var token := TrimToken(h, tokens[i]);
      CountStep(h, tokens, i, minLen);
      freq := Tally(freq, token, minLen);
    }
    assert tokens[..|tokens|] == tokens;
  }

  /** What the keywords inherit from the table they are the top of. */
  lemma {:induction false} TopOfCounts(qs: seq<string>, ks: seq<string>, limit: int, minLen: int)
    requires forall i :: 0 <= i < |qs| ==> Qualifies(qs[i], minLen)
    requires TopRanked(Counts(qs), ks, limit)
    ensures forall w :: w in ks ==> w in qs && Qualifies(w, minLen)
    ensures ks == [] <==> qs == []
  {
    CountsSpec(qs);
    if qs != [] {
      assert qs[0] in Counts(qs);
    }
  }

  /** The ranking part of ExtractKeywords: sort the words of the table and keep the
      first `limit` (all of them when limit <= 0 or larger than the table). */
  method TopKeywords(freq: map<string, int>, limit: int) returns (keywords: seq<string>)
    ensures TopRanked(freq, keywords, limit)
  {
    var pairs := SortByRank(freq);
    PrefixIsTop(freq, pairs, limit);
    var max := limit;
    if max <= 0 || max > |pairs| {
      max := |pairs|;
    }
    keywords := [];
    for i := 0 to max
      invariant keywords == pairs[..i]
    {
      keywords := keywords + [pairs[i]];
    }
    assert max == KeywordCount(limit, |freq|);
  }

  /** ExtractKeywords: count the qualifying tokens, rank them, return the first `limit`.
      The result is made of qualifying words only and is the top of the ranking; it is
      empty (Go's nil) exactly when no token qualifies. */
  method ExtractKeywords(h: Host, text: string, limit: int, minLen: int) returns (keywords: seq<string>)
    ensures var qs := Qualifying(h, Tokens(h, text), minLen);
      && (forall w :: w in keywords ==> w in qs && Qualifies(w, minLen))
      && TopRanked(Counts(qs), keywords, limit)
      && (keywords == [] <==> qs == [])
  {
    var clean := ToLower(h, CleanText(h, text));
    var tokens := Fields(clean);
    ghost var qs := Qualifying(h, tokens, minLen);
    QualifyingQualifies(h, tokens, minLen);
    if clean == [] {
      assert tokens == [] && qs == [];
      keywords := [];
      NothingToRank(Counts(qs), limit);
      TopOfCounts(qs, keywords, limit, minLen);
      return;
    }
    var freq := CountTokens(h, tokens, minLen);
    if |freq| == 0 {
      keywords := [];
      NothingToRank(freq, limit);
      TopOfCounts(qs, keywords, limit, minLen);
      return;
    }
    keywords := TopKeywords(freq, limit);
    TopOfCounts(qs, keywords, limit, minLen);
  }

  /** An empty table ranks no keyword, whatever the limit. */
  lemma {:induction false} NothingToRank(freq: map<string, int>, limit: int)
    requires |freq| == 0
    ensures TopRanked(freq, [], limit)
  {
  }

  /** A list without repetitions has as many elements as its set. */
  lemma {:induction false} DistinctCard(s: seq<string>)
    requires Distinct(s)
    ensures |set x | x in s| == |s|
    decreases |s|
  {
    if s != [] {
      var t := s[..|s| - 1];
      DistinctCard(t);
      assert (set x | x in s) == (set x | x in t) + {s[|s| - 1]};
      assert s[|s| - 1] !in t;
    }
  }

  // ---------------------------------------------------------------------------------
  // GenerateTitleFromText and BuildDocumentID

  predicate IsSentenceEnd(c: char) {
    c == '.' || c == '!' || c == '?'
  }

  /** strings.IndexAny(s, ".!?"): the first sentence-ending character, or -1. */
  function IndexAny(s: string): (k: int)
    ensures -1 <= k < |s|
    ensures k >= 0 ==> IsSentenceEnd(s[k])
    ensures forall i :: 0 <= i < |s| && (k < 0 || i < k) ==> !IsSentenceEnd(s[i])
    decreases |s|
  {
    if s == [] then -1
    else if IsSentenceEnd(s[0]) then 0
    else
      var k := IndexAny(s[1..]);
      if k < 0 then -1 else k + 1
  }

  /** The part of the URL-free text the title is built from: up to the first sentence end
      (trimmed) when that end is not the very first character, otherwise everything. */
  function FirstSentence(t: string): string {
    var e := IndexAny(t);
    if e > 0 then Trim(t[..e], GoSpace) else t
  }

  /** GenerateTitleFromText. */
  function GenerateTitle(text: string, maxWords: int): (r: string)
    ensures text == [] ==> r == []
    ensures text != [] ==> (r == [] <==> Fields(FirstSentence(RemoveUrls(text))) == [])
  {
    if text == [] then []
    else
      var words := Fields(FirstSentence(RemoveUrls(text)));
      if words == [] then []
      else if maxWords > 0 && |words| > maxWords then
        var j := Join(words[..maxWords], " ");
        assert |words[..maxWords][0]| > 0;
        JoinNonEmpty(words[..maxWords]);
        j + "..."
      else
        JoinNonEmpty(words);
        Join(words, " ")
  }

  lemma {:induction false} JoinNonEmpty(words: seq<string>)
    requires |words| >= 1 && IsWord(words[0])
    ensures |Join(words, " ")| >= 1
  {
  }

  /** The title is the first maxWords words of the first sentence joined by single spaces,
      with "..." appended exactly when words were cut off; with maxWords <= 0 it is all the
      words. The words of the title (before any "...") read back as those words. */
  lemma {:induction false} TitleWords(text: string, maxWords: int)
    requires text != []
    ensures var words := Fields(FirstSentence(RemoveUrls(text)));
      var kept := if maxWords > 0 && |words| > maxWords then words[..maxWords] else words;
      && (words != [] && maxWords > 0 && |words| > maxWords ==>
            GenerateTitle(text, maxWords) == Join(kept, " ") + "...")
      && (words != [] && !(maxWords > 0 && |words| > maxWords) ==>
            GenerateTitle(text, maxWords) == Join(kept, " "))
      && Fields(Join(kept, " ")) == kept
  {
    var words := Fields(FirstSentence(RemoveUrls(text)));
    var kept := if maxWords > 0 && |words| > maxWords then words[..maxWords] else words;
    if words == [] {
      assert kept == [];
    } else {
      FieldsJoin(kept);
    }
  }

  /** The first sentence, cut before a sentence end past the first character, holds no
      sentence-ending character. */
  lemma {:induction false} FirstSentenceHasNoEnd(t: string)
    requires IndexAny(t) > 0
    ensures forall i :: 0 <= i < |FirstSentence(t)| ==> !IsSentenceEnd(FirstSentence(t)[i])
  {
    var p := t[..IndexAny(t)];
    assert forall i :: 0 <= i < |p| ==> !IsSentenceEnd(p[i]);
    TrimChars(p, GoSpace);
  }

  /** When the text has a sentence end after its first character, no title word contains
      a sentence-ending character. */
  lemma {:induction false} TitleStopsAtSentenceEnd(text: string)
    requires IndexAny(RemoveUrls(text)) > 0
    ensures forall w :: w in Fields(FirstSentence(RemoveUrls(text))) ==>
      forall i :: 0 <= i < |w| ==> !IsSentenceEnd(w[i])
  {
    FirstSentenceHasNoEnd(RemoveUrls(text));
    FieldsChars(FirstSentence(RemoveUrls(text)));
  }

  /** Every character of a word of Fields(s) is a character of s. */
  lemma {:induction false} FieldsChars(s: string)
    requires forall i :: 0 <= i < |s| ==> !IsSentenceEnd(s[i])
    ensures forall w :: w in Fields(s) ==> forall i :: 0 <= i < |w| ==> !IsSentenceEnd(w[i])
    decreases |s|
  {
    if s != [] {
      if IsSpace(s[0]) {
        FieldsChars(s[1..]);
      } else {
        var n := WordLen(s);
        assert forall i :: 0 <= i < |s[n..]| ==> s[n..][i] == s[n + i];
        FieldsChars(s[n..]);
        assert forall i :: 0 <= i < n ==> s[..n][i] == s[i];
      }
    }
  }

  /** The string BuildDocumentID hashes: title, text and the RFC 3339 time, joined by '|'.
      The time is its last part, after the title, the text and two separators. */
  function HashInput(h: Host, title: string, text: string, ts: int): (x: string)
    ensures |x| == |title| + |text| + 2 + |h.formatRfc3339Utc(ts)|
    ensures x[|title| + |text| + 2..] == h.formatRfc3339Utc(ts)
  {
    title + "|" + text + "|" + h.formatRfc3339Utc(ts)
  }

  /** BuildDocumentID: the hex SHA-1 of title|text|RFC 3339 time. */
  function BuildDocumentId(h: Host, title: string, text: string, ts: int): (id: string)
    ensures id == h.sha1Hex(HashInput(h, title, text, ts))
  {
    h.sha1Hex(title + "|" + text + "|" + h.formatRfc3339Utc(ts))
  }

  /** Two instants that format to different seconds give different strings to hash, for the
      same title and text. */
  lemma {:induction false} HashInputsDiffer(h: Host, title: string, text: string, t1: int, t2: int)
    requires h.formatRfc3339Utc(t1) != h.formatRfc3339Utc(t2)
    ensures HashInput(h, title, text, t1) != HashInput(h, title, text, t2)
  {
    var n := |title| + |text| + 2;
    assert HashInput(h, title, text, t1)[n..] != HashInput(h, title, text, t2)[n..];
  }

  /** The ID depends on the joined string only: moving a '|' between title and text gives
      the same ID, so such documents count as duplicates of each other. */
  lemma {:induction false} DocumentIdSeparatorAmbiguity(h: Host, a: string, b: string, c: string, ts: int)
    ensures BuildDocumentId(h, a + "|" + b, c, ts) == BuildDocumentId(h, a, b + "|" + c, ts)
  {
    assert a + "|" + b + "|" + c == a + "|" + (b + "|" + c);
  }
}
