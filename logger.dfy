/** The log-level choice of the backend services: LOG_LEVEL read without regard to case
    or surrounding white space. */
module Logger {
  import opened Text
  import opened Platform

  /** slog.LevelDebug, LevelInfo, LevelWarn and LevelError. */
  datatype Level = Debug | Info | Warn | Error

  /** The switch in parseLevel, on the normalised string. */
  function LevelOf(s: string): (l: Level)
    ensures l == Debug <==> s == "debug"
    ensures l == Warn <==> s == "warn"
    ensures l == Error <==> s == "error"
  {
    if s == "debug" then Debug
    else if s == "warn" then Warn
    else if s == "error" then Error
    else Info
  }

  /** parseLevel: "debug", "warn" and "error", once trimmed and lower-cased, pick their
      level; everything else, "" and "info" included, is Info. */
  function ParseLevel(h: Host, raw: string): (l: Level)
    ensures l != Info ==> ToLower(h, Trim(raw, GoSpace)) == LevelName(l)
    ensures l == Info <==> ToLower(h, Trim(raw, GoSpace)) !in {"debug", "warn", "error"}
  {
    LevelOf(ToLower(h, Trim(raw, GoSpace)))
  }

  /** The name each level is configured by. */
  function LevelName(l: Level): string {
    match l
    case Debug => "debug"
    case Info => "info"
    case Warn => "warn"
    case Error => "error"
  }

  /** Lower-case ASCII text is its own lower case. */
  lemma {:induction false} ToLowerOfLower(h: Host, s: string)
    requires forall i :: 0 <= i < |s| ==> 'a' <= s[i] <= 'z'
    ensures ToLower(h, s) == s
  {
  }

  /** Lower-case ASCII letters with nothing around them are matched as they are. */
  lemma {:induction false} ParseLevelOfLower(h: Host, raw: string)
    requires raw != []
    requires forall i :: 0 <= i < |raw| ==> 'a' <= raw[i] <= 'z'
    ensures ToLower(h, Trim(raw, GoSpace)) == raw
  {
    TrimUnpadded(raw, GoSpace);
    ToLowerOfLower(h, raw);
  }

  /** Each level's name is a non-empty run of lower-case ASCII letters. */
  lemma {:induction false} NameIsLower(l: Level)
    ensures |LevelName(l)| > 0
    ensures forall i :: 0 <= i < |LevelName(l)| ==> 'a' <= LevelName(l)[i] <= 'z'
  {
    match l
    case Debug =>
    case Info =>
    case Warn =>
    case Error =>
  }

  /** The switch maps each level's name back to the level. */
  lemma {:induction false} LevelOfName(l: Level)
    ensures LevelOf(LevelName(l)) == l
  {
    match l
    case Debug =>
    case Info =>
      assert |"info"| == 4 && "info"[0] != "warn"[0];
    case Warn =>
    case Error =>
  }

  /** Every level's name reads back as that level. */
  lemma {:induction false} ParseLevelName(h: Host, l: Level)
    ensures ParseLevel(h, LevelName(l)) == l
  {
    NameIsLower(l);
    ParseLevelOfLower(h, LevelName(l));
    LevelOfName(l);
  }

  /** Surrounding white space is ignored. */
  lemma {:induction false} ParseLevelIgnoresPadding(h: Host, raw: string)
    ensures ParseLevel(h, Trim(raw, GoSpace)) == ParseLevel(h, raw)
  {
    TrimIdempotent(raw, GoSpace);
  }

  /** ASCII case is ignored: ASCII text whose lower case is a level's name picks that
      level. */
  lemma {:induction false} ParseLevelIgnoresCase(h: Host, raw: string, l: Level)
    requires forall i :: 0 <= i < |raw| ==> raw[i] < '\U{80}'
    requires ToLower(h, raw) == LevelName(l)
    ensures ParseLevel(h, raw) == l
  {
    var n := LevelName(l);
    NameIsLower(l);
    LevelOfName(l);
    LowerLetterIsNoSpace(h, raw[0]);
    LowerLetterIsNoSpace(h, raw[|raw| - 1]);
    TrimUnpadded(raw, GoSpace);
  }

  /** An ASCII character whose lower case is a letter is no white space. */
  lemma {:induction false} LowerLetterIsNoSpace(h: Host, c: char)
    requires c < '\U{80}' && 'a' <= LowerRune(h, c) <= 'z'
    ensures !IsSpace(c)
  {
  }

  /** An upper-case name picks its level. */
  lemma {:induction false} ParseLevelUpperCase(h: Host)
    ensures ParseLevel(h, "DEBUG") == Debug
  {
    var u := "DEBUG";
    var l := ToLower(h, u);
    assert l[0] == 'd' && l[1] == 'e' && l[2] == 'b' && l[3] == 'u' && l[4] == 'g';
    ParseLevelIgnoresCase(h, u, Debug);
  }

  /** "warning" is not "warn": it picks Info. */
  lemma {:induction false} ParseLevelWarning(h: Host)
    ensures ParseLevel(h, "warning") == Info
  {
    var w := "warning";
    assert IsTrimmed(w, GoSpace) by {
      assert w[0] == 'w' && w[|w| - 1] == 'g';
    }
    TrimUnpadded(w, GoSpace);
    assert |ToLower(h, w)| == 7;
  }
}
