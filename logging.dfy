/**
 The `Logger` and its constructor `NewLogger` (library/logger/logger.go).
 `NewLogger` starts from the default options record, runs every option on it
 in call order, parses the resulting level string and, on success, fixes the
 threshold and the options for the logger's lifetime.
 */
module Logging {

  import opened Wrappers
  import opened Levels
  import opened Settings
  import opened Routing

  /** A constructed logger: the options it was built with and its threshold.
      Both are fixed once the logger exists. */
  class Logger {
    const opts: OptionValues
    const level: Level

    /** The threshold is the parse of the options' level string. */
    ghost predicate Valid()
    {
      ParseLevel(opts.level) == Ok(level)
    }

    constructor (opts: OptionValues, level: Level)
      requires ParseLevel(opts.level) == Ok(level)
      ensures this.opts == opts && this.level == level && Valid()
    {
      this.opts := opts;
      this.level := level;
    }

    /** `GetLevel`: the severity parsed from the effective level string. */
    function GetLevel(): (r: Level)
      requires Valid()
      ensures ParseLevel(opts.level) == Ok(r)
      ensures Spells(opts.level, r)
    {
      level
    }

    /** The sinks of this logger's tee that accept a record of level `lvl`: its
        info and error enablers applied with the logger's threshold. At most
        one accepts, and a stack trace goes with the error sink alone. */
    function Sinks(lvl: Int8): (s: set<Sink>)
      requires Valid()
      ensures InfoSink in s <==> Rank(GetLevel()) <= lvl <= Rank(Info)
      ensures ErrorSink in s <==> Rank(GetLevel()) <= lvl && Rank(Warn) <= lvl
      ensures |s| <= 1
      ensures ErrorSink in s <==> StacktraceEnabled(GetLevel(), lvl)
    {
      ExactlyOneSink(level, lvl);
      Destinations(level, lvl)
    }
  }

  /** `NewLogger`: an error with no logger when the effective level string is
      not a level token, otherwise a fresh logger holding the effective options
      and their parsed level. */
  method NewLogger(options: seq<Option>) returns (r: Result<Logger, string>)
    ensures ParseLevel(Effective(options).level).Err? ==>
              r == Err(InvalidLevelMessage(Effective(options).level))
    ensures ParseLevel(Effective(options).level).Ok? ==>
              && r.Ok? && fresh(r.value) && r.value.Valid()
              && r.value.opts == Effective(options)
              && r.value.GetLevel() == ParseLevel(Effective(options).level).value
  {
    var opts := new Options();
    for i := 0 to |options|
      invariant opts.Value() == ApplyAll(Defaults(), options[..i])
    {
      assert options[..i + 1][..i] == options[..i];
      opts.Apply(options[i]);
    }
    assert options[..|options|] == options;
    var values := opts.Value();
    match ParseLevel(values.level)
    case Err(msg) =>
      r := Err(msg);
    case Ok(level) =>
      var l := new Logger(values, level);
      r := Ok(l);
  }
}

/** A client of the module: what a caller can conclude from the contracts of
    `NewLogger` and `Logger.Sinks` alone. */
module LoggingClient {

  import opened Wrappers
  import opened Levels
  import opened Settings
  import opened Routing
  import opened Logging

  /** A logger configured with level "warn" drops Debug and Info records and
      sends Warn and Error records to the error sink. */
  method WarnLoggerRouting() returns (l: Logger)
    ensures l.Valid() && l.GetLevel() == Warn && l.opts.moduleName == "orders"
    ensures l.Sinks(Rank(Info)) == {} && l.Sinks(Rank(Debug)) == {}
    ensures l.Sinks(Rank(Warn)) == {ErrorSink} && l.Sinks(Rank(Error)) == {ErrorSink}
  {
    var ops := [WithModule("orders"), WithLevel("warn")];
    assert ops[..1] == [WithModule("orders")] && ops[..1][..0] == [];
    var eff := Effective(ops);
    assert eff.level == "warn" && eff.moduleName == "orders";
    assert ParseLevel("warn") == Ok(Warn);
    var r := NewLogger(ops);
    l := r.value;
  }

  /** A logger configured with the mixed-case level "Warn" is refused. */
  method MixedCaseLevelRefused() returns (r: Result<Logger, string>)
    ensures r == Err("error level:Warn")
  {
    assert [WithLevel("Warn")][..0] == [];
    assert Effective([WithLevel("Warn")]).level == "Warn";
    assert ParseLevel("Warn").Err? && InvalidLevelMessage("Warn") == "error level:Warn";
    r := NewLogger([WithLevel("Warn")]);
  }
}
