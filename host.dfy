/** Library behaviour the system relies on but does not implement: Unicode letter and
    number classes, case mapping, HTML entity decoding, SHA-1, time formatting and parsing.
    Each is a field of `Host`, an uninterpreted function; the ASCII parts of the character
    classes, and durations of the plain "<digits><unit>" form, are spelled out. */
module Platform {
  import opened Wrappers
  import Text

  /** The time layouts the worker tries, in order: time.RFC3339Nano, time.RFC3339 and
      "2006-01-02 15:04:05". */
  datatype Layout = Rfc3339Nano | Rfc3339 | DateTime

  datatype Host = Host(
    /** unicode.IsLetter(r) || unicode.IsNumber(r), for runes beyond ASCII. */
    isLetterOrNumber: char -> bool,
    /** unicode.ToLower, for runes beyond ASCII. */
    lowerRune: char -> char,
    /** html.UnescapeString. */
    unescapeHtml: string -> string,
    /** Lower-case hex of the SHA-1 digest of the UTF-8 bytes of a string. */
    sha1Hex: string -> string,
    /** t.UTC().Format(time.RFC3339), t in nanoseconds since Go's zero time. */
    formatRfc3339Utc: int -> string,
    /** time.Parse(layout, s): the instant in nanoseconds since Go's zero time, or None. */
    parseTime: (Layout, string) -> Option<int>,
    /** time.ParseDuration for the forms not spelled out by ParseDuration below. */
    parseDuration: string -> Option<int>)

  predicate IsAsciiLetterOrDigit(c: char) {
    ('a' <= c <= 'z') || ('A' <= c <= 'Z') || ('0' <= c <= '9')
  }

  /** unicode.IsLetter || unicode.IsNumber. No white-space rune is a letter or a number. */
  predicate IsLetterOrNumber(h: Host, c: char) {
    if c < '\U{80}' then IsAsciiLetterOrDigit(c) else !Text.IsSpace(c) && h.isLetterOrNumber(c)
  }

  lemma {:induction false} LetterOrNumberIsNotSpace(h: Host, c: char)
    requires IsLetterOrNumber(h, c)
    ensures !Text.IsSpace(c) && c != ' '
  {
  }

  /** unicode.ToLower: ASCII upper-case letters move down by 32, other ASCII is unchanged. */
  function LowerRune(h: Host, c: char): (r: char)
    ensures c < '\U{80}' ==> r < '\U{80}'
    ensures 'A' <= c <= 'Z' ==> 'a' <= r <= 'z' && r as int == c as int + 32
    ensures c < '\U{80}' && !('A' <= c <= 'Z') ==> r == c
  {
    if 'A' <= c <= 'Z' then (c as int + 32) as char
    else if c < '\U{80}' then c
    else h.lowerRune(c)
  }

  /** strings.ToLower: rune by rune. */
  function ToLower(h: Host, s: string): (r: string)
    ensures |r| == |s|
    ensures forall i :: 0 <= i < |s| ==> r[i] == LowerRune(h, s[i])
  {
    if s == [] then [] else [LowerRune(h, s[0])] + ToLower(h, s[1..])
  }

  /** Nanoseconds per unit of a time.ParseDuration unit suffix. */
  function UnitNanos(u: string): Option<int> {
    if u == "ns" then Some(1)
    else if u == "us" then Some(1_000)
    else if u == "ms" then Some(1_000_000)
    else if u == "s" then Some(1_000_000_000)
    else if u == "m" then Some(60_000_000_000)
    else if u == "h" then Some(3_600_000_000_000)
    else None
  }

  /** Length of the leading run of decimal digits. */
  function DigitRun(s: string): (n: nat)
    ensures n <= |s| && Text.AllDigits(s[..n])
    ensures n < |s| ==> !Text.IsDigit(s[n])
  {
    if s == [] || !Text.IsDigit(s[0]) then 0
    else
      var n := 1 + DigitRun(s[1..]);
      assert s[..n] == [s[0]] + s[1..][..n - 1];
      n
  }

  /** time.ParseDuration. A string of decimal digits followed by one unit suffix is read
      here (an error when the value does not fit in int64); every other form (signs,
      fractions, several components, "0") is left to the host. */
  function ParseDuration(h: Host, s: string): (r: Option<int>)
    ensures var n := DigitRun(s);
      0 < n < |s| && UnitNanos(s[n..]).Some? ==>
        && (r.Some? ==> 0 <= r.value <= Text.MaxInt64)
        && (r.None? <==> Text.DigitsValue(s[..n]) * UnitNanos(s[n..]).value > Text.MaxInt64)
    ensures var n := DigitRun(s);
      !(0 < n < |s| && UnitNanos(s[n..]).Some?) ==> r == h.parseDuration(s)
  {
    var n := DigitRun(s);
    if 0 < n < |s| && UnitNanos(s[n..]).Some? then
      var v := Text.DigitsValue(s[..n]) * UnitNanos(s[n..]).value;
      if v <= Text.MaxInt64 then Some(v) else None
    else h.parseDuration(s)
  }

  /** The durations the configuration uses as defaults parse to what they say. */
  lemma {:induction false} DefaultDurations(h: Host)
    ensures ParseDuration(h, "24h") == Some(24 * 3_600_000_000_000)
    ensures ParseDuration(h, "168h") == Some(168 * 3_600_000_000_000)
    ensures ParseDuration(h, "2s") == Some(2 * 1_000_000_000)
  {
    assert DigitRun("24h") == 2 by {
      assert "24h"[1..] == "4h" && "4h"[1..] == "h";
    }
    assert "24h"[..2] == "24" && "24h"[2..] == "h";
    assert Text.DigitsValue("24") == 24 by {
      assert "24"[..1] == "2";
      assert "2"[..0] == [];
    }
    assert DigitRun("168h") == 3 by {
      assert "168h"[1..] == "68h" && "68h"[1..] == "8h" && "8h"[1..] == "h";
    }
    assert "168h"[..3] == "168" && "168h"[3..] == "h";
    assert Text.DigitsValue("168") == 168 by {
      assert "168"[..2] == "16" && "16"[..1] == "1" && "1"[..0] == [];
    }
    assert DigitRun("2s") == 1 by {
      assert "2s"[1..] == "s";
    }
    assert "2s"[..1] == "2" && "2s"[1..] == "s";
    assert Text.DigitsValue("2") == 2 by {
      assert "2"[..0] == [];
    }
  }
}
