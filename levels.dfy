/**
 Severities and the parsing of level tokens (`zapLevel` in library/logger/logger.go).
 Severities follow zapcore: an ordered enumeration whose numeric values run from
 Debug = -1 to Fatal = 5.
 */
module Levels {

  import opened Wrappers

  datatype Level = Debug | Info | Warn | Error | DPanic | Panic | Fatal

  /** `zapcore.Level` is an 8-bit signed integer; the enablers receive any value of it. */
  newtype Int8 = x: int | -128 <= x < 128

  /** The numeric value zapcore gives each severity; all comparisons go through it. */
  function Rank(l: Level): Int8
  {
    match l
    case Debug => -1
    case Info => 0
    case Warn => 1
    case Error => 2
    case DPanic => 3
    case Panic => 4
    case Fatal => 5
  }

  /** The lower-case name of a severity (zapcore's String form). */
  function LowerName(l: Level): string
  {
    match l
    case Debug => "debug"
    case Info => "info"
    case Warn => "warn"
    case Error => "error"
    case DPanic => "dpanic"
    case Panic => "panic"
    case Fatal => "fatal"
  }

  /** The upper-case name of a severity (zapcore's CapitalString form, which the
      capital level encoder writes into every record). */
  function UpperName(l: Level): string
  {
    match l
    case Debug => "DEBUG"
    case Info => "INFO"
    case Warn => "WARN"
    case Error => "ERROR"
    case DPanic => "DPANIC"
    case Panic => "PANIC"
    case Fatal => "FATAL"
  }

  /** A token the parser accepts for severity `l`. */
  predicate Spells(token: string, l: Level)
  {
    token == LowerName(l) || token == UpperName(l) || (token == "" && l == Info)
  }

  /** The message of the error returned for an unrecognised token. */
  function InvalidLevelMessage(level: string): string
  {
    "error level:" + level
  }

  /** `zapLevel`: exact lower-case or upper-case spellings only, plus the empty
      string for Info; anything else is an error quoting the token. */
  function ParseLevel(level: string): (r: Result<Level, string>)
    ensures r.Ok? ==> Spells(level, r.value)
    ensures r.Err? ==> r.error == InvalidLevelMessage(level)
    ensures r.Err? ==> forall l :: !Spells(level, l)
  {
    if level == "debug" || level == "DEBUG" then Ok(Debug)
    else if level == "info" || level == "INFO" || level == "" then Ok(Info)
    else if level == "warn" || level == "WARN" then Ok(Warn)
    else if level == "error" || level == "ERROR" then Ok(Error)
    else if level == "dpanic" || level == "DPANIC" then Ok(DPanic)
    else if level == "panic" || level == "PANIC" then Ok(Panic)
    else if level == "fatal" || level == "FATAL" then Ok(Fatal)
    else Err(InvalidLevelMessage(level))
  }

  /** Parsing succeeds on a token exactly when the token spells some severity,
      and then yields that severity. */
  lemma ParseLevelExact(token: string, l: Level)
    ensures ParseLevel(token) == Ok(l) <==> Spells(token, l)
  {
    if Spells(token, l) {
      match ParseLevel(token)
      case Ok(m) =>
        if m != l {
          NoTokenSpellsTwoLevels(token, l, m);
        }
      case Err(_) =>
    }
  }

  /** No token spells two different severities. */
  lemma NoTokenSpellsTwoLevels(token: string, a: Level, b: Level)
    requires Spells(token, a) && Spells(token, b)
    ensures a == b
  {
    NamesDiffer(a, b);
  }

  /** The names of distinct severities differ in every combination of case and
      are never empty. */
  lemma NamesDiffer(a: Level, b: Level)
    ensures |LowerName(a)| > 0 && |UpperName(a)| > 0
    ensures a != b ==> LowerName(a) != LowerName(b) && UpperName(a) != UpperName(b)
    ensures LowerName(a) != UpperName(b)
  {
  }

  /** The two names of every severity parse back to it: the upper-case name the
      encoder emits is itself an accepted configuration token. */
  lemma NamesRoundTrip(l: Level)
    ensures ParseLevel(LowerName(l)) == Ok(l)
    ensures ParseLevel(UpperName(l)) == Ok(l)
  {
    ParseLevelExact(LowerName(l), l);
    ParseLevelExact(UpperName(l), l);
  }

  /** Exactly fifteen tokens are accepted. */
  lemma AcceptedTokens(token: string)
    ensures ParseLevel(token).Ok? <==>
      token in {"debug", "DEBUG", "info", "INFO", "", "warn", "WARN", "error", "ERROR",
                "dpanic", "DPANIC", "panic", "PANIC", "fatal", "FATAL"}
  {
  }

  /** Mixed case is rejected: the match is on exact spellings. */
  lemma MixedCaseRejected()
    ensures ParseLevel("Info") == Err("error level:Info")
    ensures ParseLevel("Debug").Err? && ParseLevel("Warn").Err? && ParseLevel("wArN").Err?
    ensures ParseLevel("verbose") == Err("error level:verbose")
  {
    assert InvalidLevelMessage("Info") == "error level:Info";
    assert InvalidLevelMessage("verbose") == "error level:verbose";
  }
}
