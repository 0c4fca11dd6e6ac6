/**
 * The pure parts of the zap logger set-up in zap.go and src/zap.go (the two
 * files agree on everything modelled here): the level-name parser `toLevel`,
 * the four level-enabler predicates that route each entry to one core, and
 * the choice between the JSON and the console encoder.
 */
module Logging {
  import opened Configs

  /** zapcore.Level is an int8. */
  newtype Level = x: int | -128 <= x < 128

  const DebugLevel: Level := -1
  const InfoLevel: Level := 0
  const WarnLevel: Level := 1
  const ErrorLevel: Level := 2
  const DPanicLevel: Level := 3
  const PanicLevel: Level := 4
  const FatalLevel: Level := 5

  /** The name zap gives each of its seven levels (Level.String). */
  function LevelName(l: Level): string
    requires DebugLevel <= l <= FatalLevel
  {
    if l == DebugLevel then "debug"
    else if l == InfoLevel then "info"
    else if l == WarnLevel then "warn"
    else if l == ErrorLevel then "error"
    else if l == DPanicLevel then "dpanic"
    else if l == PanicLevel then "panic"
    else "fatal"
  }

  // ---------------------------------------------------------------------
  // strings.ToLower
  // ---------------------------------------------------------------------

  /**
   * unicode.ToLower on the runes that matter here: the ASCII capitals, and the two
   * non-ASCII runes Go lowers to an ASCII letter (U+0130 to 'i', the Kelvin sign
   * U+212A to 'k'). Every other rune is kept.
   */
  function LowerChar(c: char): char {
    if 'A' <= c <= 'Z' then (c as int - 'A' as int + 'a' as int) as char
    else if c == '\U{130}' then 'i'
    else if c == '\U{212A}' then 'k'
    else c
  }

  function ToLower(s: string): (r: string)
    ensures |r| == |s|
    ensures forall i :: 0 <= i < |s| ==> r[i] == LowerChar(s[i])
    ensures forall i :: 0 <= i < |r| ==> !('A' <= r[i] <= 'Z')
  {
    seq(|s|, i requires 0 <= i < |s| => LowerChar(s[i]))
  }

  /** Lower-casing twice changes nothing more. */
  lemma ToLowerIdempotent(s: string)
    ensures ToLower(ToLower(s)) == ToLower(s)
  {
    var l := ToLower(s);
    forall i | 0 <= i < |s| ensures ToLower(l)[i] == l[i] {
      assert LowerChar(LowerChar(s[i])) == LowerChar(s[i]);
    }
  }

  // ---------------------------------------------------------------------
  // toLevel
  // ---------------------------------------------------------------------

  /** toLevel: the level named by the lower-cased text, Info for anything else. */
  function ToLevel(level: string): (l: Level)
    ensures DebugLevel <= l <= FatalLevel
  {
    var name := ToLower(level);
    if name == "debug" then DebugLevel
    else if name == "info" then InfoLevel
    else if name == "warn" then WarnLevel
    else if name == "error" then ErrorLevel
    else if name == "dpanic" then DPanicLevel
    else if name == "panic" then PanicLevel
    else if name == "fatal" then FatalLevel
    else InfoLevel
  }

  /** Each of the seven names, written in any case, parses to its level. */
  lemma ToLevelOfName(s: string, l: Level)
    requires DebugLevel <= l <= FatalLevel
    requires ToLower(s) == LevelName(l)
    ensures ToLevel(s) == l
  {
  }

  /** Anything whose lower-cased form is no level name, the empty string included, is Info. */
  lemma ToLevelDefault(s: string)
    requires forall l: Level :: DebugLevel <= l <= FatalLevel ==> ToLower(s) != LevelName(l)
    ensures ToLevel(s) == InfoLevel
  {
    assert ToLower(s) != LevelName(DebugLevel);
    assert ToLower(s) != LevelName(WarnLevel);
    assert ToLower(s) != LevelName(ErrorLevel);
    assert ToLower(s) != LevelName(DPanicLevel);
    assert ToLower(s) != LevelName(PanicLevel);
    assert ToLower(s) != LevelName(FatalLevel);
  }

  /** Letters' case never matters: lower-casing first gives the same level. */
  lemma ToLevelCaseInsensitive(s: string)
    ensures ToLevel(ToLower(s)) == ToLevel(s)
  {
    ToLowerIdempotent(s);
  }

  /** Rendering a level by name and parsing it back is the identity. */
  lemma ToLevelRoundTrip(l: Level)
    requires DebugLevel <= l <= FatalLevel
    ensures ToLevel(LevelName(l)) == l
  {
    var n := LevelName(l);
    forall i | 0 <= i < |n| ensures LowerChar(n[i]) == n[i] {
    }
    assert ToLower(n) == n;
  }

  // ---------------------------------------------------------------------
  // The four cores
  // ---------------------------------------------------------------------

  datatype Core = DebugCore | InfoCore | WarnCore | ErrorCore

  /** The LevelEnablerFunc each core is built with. */
  predicate Enabled(core: Core, l: Level): (accepted: bool)
    ensures accepted ==> l >= DebugLevel
    ensures accepted && l >= ErrorLevel ==> core == ErrorCore
  {
    match core
    case DebugCore => l == DebugLevel
    case InfoCore => l == InfoLevel
    case WarnCore => l == WarnLevel
    case ErrorCore => l >= ErrorLevel
  }

  /** The one core an entry at level `l` (Debug or above) goes to. */
  function Route(l: Level): Core
    requires l >= DebugLevel
  {
    if l == DebugLevel then DebugCore
    else if l == InfoLevel then InfoCore
    else if l == WarnLevel then WarnCore
    else ErrorCore
  }

  /**
   * The enablers partition the levels from Debug up: each such level is accepted
   * by exactly one core, and a level below Debug by none.
   */
  lemma EnablersPartition(l: Level)
    ensures l >= DebugLevel ==> forall c :: Enabled(c, l) <==> c == Route(l)
    ensures l < DebugLevel ==> forall c :: !Enabled(c, l)
  {
  }

  /** Whatever the configured level text, its level is written by exactly one core. */
  lemma ParsedLevelHasOneCore(s: string)
    ensures forall c :: Enabled(c, ToLevel(s)) <==> c == Route(ToLevel(s))
  {
    EnablersPartition(ToLevel(s));
  }

  // ---------------------------------------------------------------------
  // The encoder
  // ---------------------------------------------------------------------

  datatype Encoder = JsonEncoder | ConsoleEncoder

  /** JSON exactly for the case-sensitive format "json"; console otherwise. */
  function EncoderFor(format: string): (e: Encoder)
    ensures e == JsonEncoder <==> format == "json"
  {
    if format == "json" then JsonEncoder else ConsoleEncoder
  }

  /** src/zap.go takes the whole application config and reads its logger format. */
  function EncoderForApp(conf: AppConfig): (e: Encoder)
    ensures e == JsonEncoder <==> conf.logger.format == "json"
  {
    EncoderFor(conf.logger.format)
  }

  /** The choice is case-sensitive: "JSON" gets the console encoder. */
  lemma EncoderCaseSensitive()
    ensures EncoderFor("JSON") == ConsoleEncoder && ToLower("JSON") == "json"
  {
  }
}
