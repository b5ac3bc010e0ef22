/** URL handling of the text processor: the pattern `https?://[^\s]+` of Go's RE2 engine,
    scanned leftmost-first over the text. `\s` in RE2 is the ASCII class [\t\n\f\r ]. */
module Urls {
  import Text

  /** RE2's `\s`. */
  predicate IsReSpace(c: char) {
    c == '\t' || c == '\n' || c == '\U{0C}' || c == '\r' || c == ' '
  }

  /** Length of the leading run of characters outside `\s`. */
  function RunLen(s: string): (n: nat)
    ensures n <= |s|
    ensures forall i :: 0 <= i < n ==> !IsReSpace(s[i])
    ensures n < |s| ==> IsReSpace(s[n])
  {
    if s == [] || IsReSpace(s[0]) then 0 else 1 + RunLen(s[1..])
  }

  /** Length of the scheme part of a match at the start of s: "https://" or "http://"
      followed by at least one character outside `\s`; 0 when no match starts here. */
  function SchemeLen(s: string): (n: nat)
    ensures n == 0 || n == 7 || n == 8
    ensures n > 0 ==> n < |s| && !IsReSpace(s[n])
  {
    if |s| > 8 && s[..8] == "https://" && !IsReSpace(s[8]) then 8
    else if |s| > 7 && s[..7] == "http://" && !IsReSpace(s[7]) then 7
    else 0
  }

  /** Length of the (greedy) match starting at the beginning of s, 0 when none starts here. */
  function MatchLen(s: string): (n: nat)
    ensures n <= |s|
    ensures n > 0 ==> SchemeLen(s) > 0 && n > SchemeLen(s)
    ensures n > 0 ==> n == |s| || IsReSpace(s[n])
  {
    var k := SchemeLen(s);
    if k == 0 then 0 else k + RunLen(s[k..])
  }

  /** A URL as the pattern defines it: a scheme, a non-empty tail, no `\s` anywhere. */
  predicate IsUrl(u: string) {
    && ((|u| > 8 && u[..8] == "https://") || (|u| > 7 && u[..7] == "http://"))
    && forall i :: 0 <= i < |u| ==> !IsReSpace(u[i])
  }

  lemma {:induction false} MatchIsUrl(s: string)
    requires MatchLen(s) > 0
    ensures IsUrl(s[..MatchLen(s)])
  {
    var k := SchemeLen(s);
    var n := MatchLen(s);
    assert s[..n][..k] == s[..k];
    forall i | 0 <= i < n ensures !IsReSpace(s[..n][i]) {
      if i >= k {
        assert s[..n][i] == s[k..][i - k];
      }
    }
  }

  /** urlRegex.FindAllString(s, -1): the successive non-overlapping matches, left to right.
      Every match is a URL: a scheme, a non-empty tail, no white space. */
  function FindUrls(s: string): (us: seq<string>)
    ensures forall i :: 0 <= i < |us| ==> IsUrl(us[i])
    decreases |s|
  {
    if s == [] then []
    else
      var n := MatchLen(s);
      if n > 0 then MatchIsUrl(s); [s[..n]] + FindUrls(s[n..]) else FindUrls(s[1..])
  }

  /** RemoveURLs: urlRegex.ReplaceAllString(s, " "). */
  function RemoveUrls(s: string): (r: string)
    ensures |r| <= |s|
    decreases |s|
  {
    if s == [] then []
    else
      var n := MatchLen(s);
      if n > 0 then " " + RemoveUrls(s[n..]) else [s[0]] + RemoveUrls(s[1..])
  }

  /** The pieces of s between the matches: one more piece than there are matches. */
  function Kept(s: string): (ks: seq<string>)
    ensures |ks| >= 1
    decreases |s|
  {
    if s == [] then [[]]
    else
      var n := MatchLen(s);
      if n > 0 then [[]] + Kept(s[n..])
      else
        var rest := Kept(s[1..]);
        [[s[0]] + rest[0]] + rest[1..]
  }

  lemma {:induction false} KeptLength(s: string)
    ensures |Kept(s)| == |FindUrls(s)| + 1
    decreases |s|
  {
    if s != [] {
      var n := MatchLen(s);
      if n > 0 { KeptLength(s[n..]); } else { KeptLength(s[1..]); }
    }
  }

  /** Pieces interleaved with matches: ks[0] + us[0] + ks[1] + ... + ks[|us|]. */
  function Weave(ks: seq<string>, us: seq<string>): string
    requires |ks| == |us| + 1
    decreases |us|
  {
    if us == [] then ks[0] else ks[0] + us[0] + Weave(ks[1..], us[1..])
  }

  lemma {:induction false} JoinPrefix(c: char, ks: seq<string>, sep: string)
    requires |ks| >= 1
    ensures Text.Join([[c] + ks[0]] + ks[1..], sep) == [c] + Text.Join(ks, sep)
  {
    var ks' := [[c] + ks[0]] + ks[1..];
    if |ks| > 1 {
      assert ks'[1..] == ks[1..];
    }
  }

  lemma {:induction false} WeavePrefix(c: char, ks: seq<string>, us: seq<string>)
    requires |ks| == |us| + 1
    ensures Weave([[c] + ks[0]] + ks[1..], us) == [c] + Weave(ks, us)
  {
    var ks' := [[c] + ks[0]] + ks[1..];
    if us != [] {
      assert ks'[1..] == ks[1..];
    }
  }

  lemma {:induction false} WeaveCons(k: string, u: string, ks: seq<string>, us: seq<string>)
    requires |ks| == |us| + 1
    ensures Weave([k] + ks, [u] + us) == k + u + Weave(ks, us)
  {
    assert ([k] + ks)[1..] == ks;
    assert ([u] + us)[1..] == us;
  }

  lemma {:induction false} JoinCons(k: string, ks: seq<string>, sep: string)
    requires |ks| >= 1
    ensures Text.Join([k] + ks, sep) == k + sep + Text.Join(ks, sep)
  {
    assert ([k] + ks)[1..] == ks;
  }

  lemma {:induction false} WeaveStepMatch(s: string, n: nat, ks: seq<string>, us: seq<string>, ks': seq<string>, us': seq<string>)
    requires 0 < n <= |s| && |ks| == |us| + 1
    requires ks' == [[]] + ks && us' == [s[..n]] + us
    requires Weave(ks, us) == s[n..]
    ensures |ks'| == |us'| + 1 && Weave(ks', us') == s
  {
    WeaveCons([], s[..n], ks, us);
    assert [] + s[..n] == s[..n];
    assert s == s[..n] + s[n..];
  }

  lemma {:induction false} WeaveStepCopy(s: string, ks: seq<string>, us: seq<string>, ks': seq<string>)
    requires s != [] && |ks| == |us| + 1
    requires ks' == [[s[0]] + ks[0]] + ks[1..]
    requires Weave(ks, us) == s[1..]
    ensures |ks'| == |us| + 1 && Weave(ks', us) == s
  {
    WeavePrefix(s[0], ks, us);
    assert s == [s[0]] + s[1..];
  }

  /** The text is its kept pieces interleaved with the matches, in order: the matches are
      substrings of the text and nothing is lost between them. */
  lemma {:induction false} WeaveKept(s: string)
    ensures |Kept(s)| == |FindUrls(s)| + 1
    ensures Weave(Kept(s), FindUrls(s)) == s
    decreases |s|
  {
    KeptLength(s);
    if s != [] {
      var n := MatchLen(s);
      if n > 0 {
        WeaveKept(s[n..]);
        WeaveStepMatch(s, n, Kept(s[n..]), FindUrls(s[n..]), Kept(s), FindUrls(s));
      } else {
        WeaveKept(s[1..]);
        WeaveStepCopy(s, Kept(s[1..]), FindUrls(s[1..]), Kept(s));
      }
    }
  }

  /** RemoveURLs puts exactly one space where each match was and keeps everything else. */
  lemma {:induction false} RemoveUrlsJoinsKept(s: string)
    ensures RemoveUrls(s) == Text.Join(Kept(s), " ")
    decreases |s|
  {
    if s != [] {
      var n := MatchLen(s);
      if n > 0 {
        RemoveUrlsJoinsKept(s[n..]);
        var ks := Kept(s[n..]);
        assert RemoveUrls(s) == " " + RemoveUrls(s[n..]);
        assert Kept(s) == [[]] + ks;
        JoinCons([], ks, " ");
      } else {
        RemoveUrlsJoinsKept(s[1..]);
        assert RemoveUrls(s) == [s[0]] + RemoveUrls(s[1..]);
        JoinPrefix(s[0], Kept(s[1..]), " ");
      }
    }
  }

  /** While RemoveURLs has written no space, it has copied its input. */
  lemma {:induction false} RemoveUrlsCopiesPrefix(t: string, k: nat)
    requires k <= |RemoveUrls(t)|
    requires forall i :: 0 <= i < k ==> RemoveUrls(t)[i] != ' '
    ensures k <= |t| && RemoveUrls(t)[..k] == t[..k]
    decreases |t|
  {
    if k > 0 {
      var n := MatchLen(t);
      var r := RemoveUrls(t);
      assert r[0] != ' ';
      if n == 0 {
        var r' := RemoveUrls(t[1..]);
        assert r == [t[0]] + r';
        forall i | 0 <= i < k - 1 ensures r'[i] != ' ' {
          assert r'[i] == r[i + 1];
        }
        RemoveUrlsCopiesPrefix(t[1..], k - 1);
        assert r[..k] == [t[0]] + r'[..k - 1];
        assert t[..k] == [t[0]] + t[1..][..k - 1];
      }
    }
  }

  /** Whether a match starts at the beginning of a string depends on its first
      SchemeLen + 1 characters only. */
  lemma {:induction false} SchemeOfPrefix(a: string, b: string, k: nat)
    requires SchemeLen(a) > 0 && k == SchemeLen(a) + 1
    requires k <= |b| && a[..k] == b[..k]
    ensures SchemeLen(b) > 0
  {
    var n := SchemeLen(a);
    assert a[..n] == b[..n] by {
      assert a[..n] == a[..k][..n] && b[..n] == b[..k][..n];
    }
    assert a[n] == a[..k][n] && b[n] == b[..k][n];
  }

  /** A match at the start of RemoveURLs' output would already have been a match in its
      input. */
  lemma {:induction false} RemovedHasNoNewMatch(s: string)
    ensures MatchLen(RemoveUrls(s)) > 0 ==> MatchLen(s) > 0
  {
    var r := RemoveUrls(s);
    if MatchLen(r) > 0 {
      var k := SchemeLen(r) + 1;
      assert r[..SchemeLen(r)] == "https://" || r[..SchemeLen(r)] == "http://";
      forall i | 0 <= i < k ensures r[i] != ' ' {
        if i < SchemeLen(r) {
          assert r[i] == r[..SchemeLen(r)][i];
        }
      }
      RemoveUrlsCopiesPrefix(s, k);
      SchemeOfPrefix(r, s, k);
    }
  }

  /** No match starts anywhere in r. */
  predicate NoMatch(r: string) {
    forall i :: 0 <= i <= |r| ==> MatchLen(r[i..]) == 0
  }

  lemma {:induction false} NoMatchCons(c: char, r': string)
    requires NoMatch(r') && MatchLen([c] + r') == 0
    ensures NoMatch([c] + r')
  {
    var r := [c] + r';
    forall i | 0 <= i <= |r| ensures MatchLen(r[i..]) == 0 {
      if i > 0 {
        assert r[i..] == r'[i - 1..];
      } else {
        assert r[0..] == r;
      }
    }
  }

  lemma {:induction false} SpaceStartsNoMatch(r': string)
    ensures MatchLen(" " + r') == 0
  {
    var r := " " + r';
    assert |r| > 8 ==> r[..8][0] == ' ';
    assert |r| > 7 ==> r[..7][0] == ' ';
  }

  /** RemoveURLs leaves no URL behind: no match starts anywhere in its output. */
  lemma {:induction false} NoUrlAfterRemove(s: string)
    ensures NoMatch(RemoveUrls(s))
    decreases |s|
  {
    if s != [] {
      var n := MatchLen(s);
      if n > 0 {
        NoUrlAfterRemove(s[n..]);
        SpaceStartsNoMatch(RemoveUrls(s[n..]));
        NoMatchCons(' ', RemoveUrls(s[n..]));
        assert RemoveUrls(s) == " " + RemoveUrls(s[n..]);
      } else {
        NoUrlAfterRemove(s[1..]);
        RemovedHasNoNewMatch(s);
        assert RemoveUrls(s) == [s[0]] + RemoveUrls(s[1..]);
        NoMatchCons(s[0], RemoveUrls(s[1..]));
      }
    }
  }

  /** Text in which no match starts is left as it is. */
  lemma {:induction false} RemoveUrlsWithoutMatch(s: string)
    requires NoMatch(s)
    ensures RemoveUrls(s) == s
    decreases |s|
  {
    if s != [] {
      assert MatchLen(s[0..]) == 0;
      assert s[0..] == s;
      assert NoMatch(s[1..]) by {
        forall i | 0 <= i <= |s[1..]| ensures MatchLen(s[1..][i..]) == 0 {
          assert s[1..][i..] == s[i + 1..];
        }
      }
      RemoveUrlsWithoutMatch(s[1..]);
    }
  }

  /** Removing URLs twice is the same as removing them once. */
  lemma {:induction false} RemoveUrlsIdempotent(s: string)
    ensures RemoveUrls(RemoveUrls(s)) == RemoveUrls(s)
  {
    NoUrlAfterRemove(s);
    RemoveUrlsWithoutMatch(RemoveUrls(s));
  }
}
