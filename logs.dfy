/** The attribute rewriter of pkg/log/logs.go, installed as the slog
    ReplaceAttr hook: it drops the time, renames the level key to "sev" and
    replaces the numeric level by a severity name chosen by thresholds. */
module Logs {

  /** slog.Level values (slog.LevelDebug = -4, Info = 0, Warn = 4, Error = 8). */
  const LevelTrace: int := -8
  const LevelDebug: int := -4
  const LevelInfo: int := 0
  const LevelNotice: int := 2
  const LevelWarning: int := 4
  const LevelError: int := 8
  const LevelEmergency: int := 12

  const TimeKey: string := "time"
  const LevelKey: string := "level"

  /** The seven names the rewriter can produce, in increasing order. */
  datatype Severity = Trace | Debug | Info | Notice | Warning | Error | Emergency

  function Rank(s: Severity): nat {
    match s
    case Trace => 0
    case Debug => 1
    case Info => 2
    case Notice => 3
    case Warning => 4
    case Error => 5
    case Emergency => 6
  }

  function Name(s: Severity): string {
    match s
    case Trace => "TRACE"
    case Debug => "DEBUG"
    case Info => "INFO"
    case Notice => "NOTICE"
    case Warning => "WARNING"
    case Error => "ERROR"
    case Emergency => "EMERGENCY"
  }

  /** The named level constant of each severity (logs.go:9-17). */
  function LevelOf(s: Severity): int {
    match s
    case Trace => LevelTrace
    case Debug => LevelDebug
    case Info => LevelInfo
    case Notice => LevelNotice
    case Warning => LevelWarning
    case Error => LevelError
    case Emergency => LevelEmergency
  }

  /** The threshold switch of logs.go:39-54. The result is the highest
      severity whose lower threshold the level reaches: Trace has no lower
      threshold, every other severity starts at its own named constant. */
  function Classify(level: int): (r: Severity)
    ensures r == Trace || LevelOf(r) <= level
    ensures forall s :: Rank(s) > Rank(r) ==> s != Trace && level < LevelOf(s)
  {
    if level < LevelDebug then Trace
    else if level < LevelInfo then Debug
    else if level < LevelNotice then Info
    else if level < LevelWarning then Notice
    else if level < LevelError then Warning
    else if level < LevelEmergency then Error
    else Emergency
  }

  /** Attribute values the rewriter sees or produces. */
  datatype Value = LevelValue(level: int) | StringValue(s: string) | OtherValue | Empty

  datatype Attr = Attr(key: string, value: Value)

  /** CustomLogLevel (logs.go:20-58). The Go code asserts the level key's
      value to slog.Level, which panics on anything else. slog also hands
      user attributes to the hook, so a user attribute keyed "level" with
      another value would panic; the Logger wrapper (logs.go:75-110) only
      passes messages, so at every call site of this program the level key
      holds a Level, hence the requires. */
  function CustomLogLevel(groups: seq<string>, a: Attr): (r: Attr)
    requires a.key == LevelKey ==> a.value.LevelValue?
    ensures a.key == TimeKey ==> r == Attr("", Empty)
    ensures a.key == LevelKey ==> r == Attr("sev", StringValue(Name(Classify(a.value.level))))
    ensures a.key != TimeKey && a.key != LevelKey ==> r == a
  {
    if a.key == TimeKey then Attr("", Empty)
    else if a.key == LevelKey then
      a.(key := "sev", value := StringValue(Name(Classify(a.value.level))))
    else a
  }

  /** Each named constant maps to its own name. */
  lemma ClassifyLevelOf(s: Severity)
    ensures Classify(LevelOf(s)) == s
  {
  }

  /** A higher level never gets a lower-ranked name. */
  lemma ClassifyMonotone(l1: int, l2: int)
    requires l1 <= l2
    ensures Rank(Classify(l1)) <= Rank(Classify(l2))
  {
  }
}
