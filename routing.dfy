/**
 Dual-sink routing: the info enabler and the error enabler of
 library/logger/logger.go, which decide for a record's level and the
 logger's threshold whether the info core and the error core of the tee accept it.
 The record's level is any `zapcore.Level` value, not only a named severity:
 the embedded engine's `Check` passes whatever level its caller gives.
 */
module Routing {

  import opened Levels

  /** `infoEnabler`: at or above the threshold, and no higher than Info. */
  predicate InfoEnabled(threshold: Level, lvl: Int8)
    ensures InfoEnabled(threshold, lvl) <==> Rank(threshold) <= lvl <= Rank(Info)
  {
    if lvl < Rank(threshold) then false else lvl <= Rank(Info)
  }

  /** `errorEnabler`: at or above the threshold, and at least Warn. */
  predicate ErrorEnabled(threshold: Level, lvl: Int8)
    ensures ErrorEnabled(threshold, lvl) <==> Rank(threshold) <= lvl && Rank(Warn) <= lvl
  {
    if lvl < Rank(threshold) then false else lvl >= Rank(Warn)
  }

  /** The error enabler is also what decides whether a stack trace is attached. */
  predicate StacktraceEnabled(threshold: Level, lvl: Int8)
    ensures StacktraceEnabled(threshold, lvl) <==> Rank(threshold) <= lvl && Rank(Warn) <= lvl
  {
    ErrorEnabled(threshold, lvl)
  }

  /** The two cores of the tee. */
  datatype Sink = InfoSink | ErrorSink

  /** The sinks a record of level `lvl` is written to. */
  function Destinations(threshold: Level, lvl: Int8): (sinks: set<Sink>)
    ensures InfoSink in sinks <==> InfoEnabled(threshold, lvl)
    ensures ErrorSink in sinks <==> ErrorEnabled(threshold, lvl)
  {
    (if InfoEnabled(threshold, lvl) then {InfoSink} else {}) +
    (if ErrorEnabled(threshold, lvl) then {ErrorSink} else {})
  }

  /** Below the threshold both enablers reject; at or above it exactly one
      accepts. No level lies strictly between Info and Warn, so the two
      enablers cover everything from the threshold up without overlap. */
  lemma RoutingPartition(threshold: Level, lvl: Int8)
    ensures lvl < Rank(threshold) ==>
              !InfoEnabled(threshold, lvl) && !ErrorEnabled(threshold, lvl)
    ensures lvl >= Rank(threshold) ==>
              (InfoEnabled(threshold, lvl) <==> !ErrorEnabled(threshold, lvl))
  {
  }

  /** Every record at or above the threshold lands in exactly one sink, and a
      record below it in none. */
  lemma {:induction false} ExactlyOneSink(threshold: Level, lvl: Int8)
    ensures |Destinations(threshold, lvl)| == if lvl < Rank(threshold) then 0 else 1
  {
    RoutingPartition(threshold, lvl);
    var d := Destinations(threshold, lvl);
    if lvl < Rank(threshold) {
      assert d == {};
    } else if InfoEnabled(threshold, lvl) {
      assert d == {InfoSink};
    } else {
      assert d == {ErrorSink};
    }
  }

  /** Levels outside the named severities: one below Debug is below every
      threshold and is dropped; one above Fatal goes to the error sink alone. */
  lemma UnnamedLevels(threshold: Level, lvl: Int8)
    ensures lvl < Rank(Debug) ==> Destinations(threshold, lvl) == {}
    ensures lvl > Rank(Fatal) ==> Destinations(threshold, lvl) == {ErrorSink}
  {
  }

  /** A stack trace is attached exactly to the records the error sink takes:
      levels from Warn on, never to a record only the info sink takes. */
  lemma StacktraceOnlyOnErrorSink(threshold: Level, lvl: Int8)
    ensures StacktraceEnabled(threshold, lvl) <==> ErrorSink in Destinations(threshold, lvl)
    ensures InfoSink in Destinations(threshold, lvl) ==> !StacktraceEnabled(threshold, lvl)
  {
  }

  /** A logger at threshold Warn drops Info and sends Warn and Error to the
      error sink; one at Debug sends Debug to the info sink. */
  lemma RoutingExamples()
    ensures Destinations(Warn, Rank(Info)) == {}
    ensures Destinations(Warn, Rank(Warn)) == {ErrorSink} && StacktraceEnabled(Warn, Rank(Warn))
    ensures Destinations(Warn, Rank(Error)) == {ErrorSink} && StacktraceEnabled(Warn, Rank(Error))
    ensures Destinations(Debug, Rank(Debug)) == {InfoSink} && !StacktraceEnabled(Debug, Rank(Debug))
    ensures Destinations(Debug, Rank(Warn)) == {ErrorSink}
  {
  }
}
