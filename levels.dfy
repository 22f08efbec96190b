/**
 * `ReportPortalLogHandler.LOGGING_LEVEL_CONVERSION`: the five Python logging
 * severities collapsed onto the four levels Report Portal accepts.
 */
module Levels {
  import opened Common

  /** The numeric values of Python's standard logging levels. */
  const DEBUG := 10
  const INFO := 20
  const WARNING := 30
  const ERROR := 40
  const CRITICAL := 50

  /** A Report Portal log level. */
  datatype Level = Debug | Info | Warn | Error {
    /** The level's name on the wire. */
    function Name(): string {
      match this
      case Debug => "DEBUG"
      case Info => "INFO"
      case Warn => "WARN"
      case Error => "ERROR"
    }

    /** Position in increasing severity. */
    function Rank(): nat {
      match this
      case Debug => 0
      case Info => 1
      case Warn => 2
      case Error => 3
    }
  }

  /** A standard Python level number. */
  predicate IsStandard(levelno: int) {
    levelno == DEBUG || levelno == INFO || levelno == WARNING || levelno == ERROR || levelno == CRITICAL
  }

  /**
   * The dictionary lookup `LOGGING_LEVEL_CONVERSION[levelno]`; `None` is the
   * KeyError raised for any other level number.
   */
  function Convert(levelno: int): (level: Option<Level>)
    ensures level.Some? <==> IsStandard(levelno)
    ensures level == Some(Error) <==> levelno == ERROR || levelno == CRITICAL
  {
    if levelno == DEBUG then Some(Debug)
    else if levelno == INFO then Some(Info)
    else if levelno == WARNING then Some(Warn)
    else if levelno == ERROR then Some(Error)
    else if levelno == CRITICAL then Some(Error)
    else None
  }

  /** The conversion table, entry by entry, with the wire names. */
  lemma ConversionTable()
    ensures Convert(DEBUG) == Some(Debug) && Debug.Name() == "DEBUG"
    ensures Convert(INFO) == Some(Info) && Info.Name() == "INFO"
    ensures Convert(WARNING) == Some(Warn) && Warn.Name() == "WARN"
    ensures Convert(ERROR) == Some(Error) && Error.Name() == "ERROR"
    ensures Convert(CRITICAL) == Some(Error)
  {
  }

  /** The Python level each Report Portal level stands for. */
  function Canonical(level: Level): (levelno: int)
    ensures IsStandard(levelno) && levelno != CRITICAL
  {
    match level
    case Debug => DEBUG
    case Info => INFO
    case Warn => WARNING
    case Error => ERROR
  }

  /** Every Report Portal level is reached, from its canonical Python level. */
  lemma ConvertCanonical(level: Level)
    ensures Convert(Canonical(level)) == Some(level)
  {
  }

  /** The conversion never reorders severities. */
  lemma ConvertMonotone(a: int, b: int)
    requires IsStandard(a) && IsStandard(b) && a <= b
    ensures Convert(a).value.Rank() <= Convert(b).value.Rank()
  {
  }

  /** ERROR and CRITICAL are the only two levels the conversion merges. */
  lemma OnlyErrorAndCriticalMerge(a: int, b: int)
    requires a < b && Convert(a).Some? && Convert(a) == Convert(b)
    ensures a == ERROR && b == CRITICAL
  {
  }
}
