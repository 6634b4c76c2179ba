/** The reporting levels of `trail.go`, their lookup tables and the
    threshold gate of `Trail`. The zap logger itself is outside the model:
    an emission records the backend level and the message handed to it. */
module Logging {
  import opened Base

  /** The nine reporting levels, in increasing severity. */
  datatype Level = DEBUG | WORKING | INFO | OK | WARNING | ERROR | CRITICAL | ALERT | EMERGENCY

  /** The integer constant each level is declared as. */
  function Code(l: Level): (n: int)
    ensures 0 <= n <= 8
  {
    match l
    case DEBUG => 0
    case WORKING => 1
    case INFO => 2
    case OK => 3
    case WARNING => 4
    case ERROR => 5
    case CRITICAL => 6
    case ALERT => 7
    case EMERGENCY => 8
  }

  /** The levels in declaration order. */
  const Levels: seq<Level> := [DEBUG, WORKING, INFO, OK, WARNING, ERROR, CRITICAL, ALERT, EMERGENCY]

  /** The level an integer stands for, if any. */
  function FromCode(n: int): (r: Option<Level>)
    ensures r.Some? <==> 0 <= n <= 8
    ensures r.Some? ==> Code(r.value) == n
  {
    if 0 <= n <= 8 then Some(Levels[n]) else None
  }

  /** The declared constants are exactly 0..8, in declaration order, so the
      levels are strictly increasing and every level is listed. */
  lemma LevelsAreZeroToEight()
    ensures |Levels| == 9
    ensures forall i :: 0 <= i < |Levels| ==> Code(Levels[i]) == i
    ensures forall i, j :: 0 <= i < j < |Levels| ==> Code(Levels[i]) < Code(Levels[j])
    ensures forall l: Level :: l in Levels
  {
    forall l: Level ensures l in Levels {
      assert Levels[Code(l)] == l;
    }
  }

  /** Code and FromCode are inverse to each other. */
  lemma CodeRoundTrip(l: Level)
    ensures FromCode(Code(l)) == Some(l)
  {
  }

  /** The zap backend levels that `zapMap` uses. */
  datatype ZapLevel = DebugLevel | InfoLevel | WarnLevel | ErrorLevel

  /** The numeric value zapcore assigns to each backend level. */
  function Severity(z: ZapLevel): int
  {
    match z
    case DebugLevel => -1
    case InfoLevel => 0
    case WarnLevel => 1
    case ErrorLevel => 2
  }

  /** `zapMap[level]`: a Go map lookup, so an integer that is not one of
      the nine levels reads the zero `zapcore.Level`, which is InfoLevel. */
  function ZapFor(level: int): (z: ZapLevel)
    ensures FromCode(level).None? ==> z == InfoLevel
  {
    match FromCode(level)
    case None => InfoLevel
    case Some(l) =>
      match l
      case DEBUG => DebugLevel
      case WORKING => DebugLevel
      case INFO => InfoLevel
      case OK => InfoLevel
      case WARNING => WarnLevel
      case ERROR => ErrorLevel
      case CRITICAL => ErrorLevel
      case ALERT => WarnLevel
      case EMERGENCY => ErrorLevel
  }

  /** The two lowest levels go to debug, the next two to info. */
  lemma ZapLowLevels()
    ensures ZapFor(Code(DEBUG)) == DebugLevel && ZapFor(Code(WORKING)) == DebugLevel
    ensures ZapFor(Code(INFO)) == InfoLevel && ZapFor(Code(OK)) == InfoLevel
  {
  }

  /** ALERT sits between CRITICAL and EMERGENCY but is sent as a warning,
      so the level-to-backend mapping is not monotone. */
  lemma ZapNotMonotone()
    ensures Code(CRITICAL) < Code(ALERT) < Code(EMERGENCY)
    ensures ZapFor(Code(ALERT)) == WarnLevel
    ensures ZapFor(Code(CRITICAL)) == ErrorLevel && ZapFor(Code(EMERGENCY)) == ErrorLevel
    ensures Severity(ZapFor(Code(CRITICAL))) > Severity(ZapFor(Code(ALERT)))
  {
  }

  /** Leaving ALERT aside, a higher level never maps to a less severe
      backend level. */
  lemma ZapMonotoneWithoutAlert(a: Level, b: Level)
    requires a != ALERT && b != ALERT && Code(a) <= Code(b)
    ensures Severity(ZapFor(Code(a))) <= Severity(ZapFor(Code(b)))
  {
  }

  /** `levelMap[level]`: the fixed-width label of a level, "" for any other
      integer. */
  function Label(level: int): (s: string)
    ensures FromCode(level).Some? ==> |s| == 13 && s[0] == '[' && s[9] == ']' && s[10..] == "   "
    ensures FromCode(level).None? ==> s == ""
  {
    match FromCode(level)
    case None => ""
    case Some(l) =>
      match l
      case DEBUG => "[  DEBUG ]   "
      case WORKING => "[ WORKING]   "
      case INFO => "[  INFO  ]   "
      case OK => "[   OK   ]   "
      case WARNING => "[ WARNING]   "
      case ERROR => "[  ERROR ]   "
      case CRITICAL => "[CRITICAL]   "
      case ALERT => "[  ALERT ]   "
      case EMERGENCY => "[  EMERG ]   "
  }

  /** No two levels share a label. */
  lemma LabelsDistinct(a: Level, b: Level)
    requires a != b
    ensures Label(Code(a)) != Label(Code(b))
  {
  }

  /** The colour constants of the `colors` package that `trailTag` uses;
      their escape sequences are not part of this model. */
  datatype Color = DebugColor | WorkingColor | InfoColor | OKColor | WarningColor
                 | ErrorColor | CriticalColor | AlertColor | EmergencyColor

  /** `trailTag[level]`: the colour tag of a level; None for any other integer. */
  function TrailTag(level: int): (t: Option<Color>)
    ensures t.Some? <==> FromCode(level).Some?
  {
    match FromCode(level)
    case None => None
    case Some(l) =>
      match l
      case DEBUG => Some(DebugColor)
      case WORKING => Some(WorkingColor)
      case INFO => Some(InfoColor)
      case OK => Some(OKColor)
      case WARNING => Some(WarningColor)
      case ERROR => Some(ErrorColor)
      case CRITICAL => Some(CriticalColor)
      case ALERT => Some(AlertColor)
      case EMERGENCY => Some(EmergencyColor)
  }

  /** Every level has its own colour tag. */
  lemma TrailTagsDistinct(a: Level, b: Level)
    requires a != b
    ensures TrailTag(Code(a)) != TrailTag(Code(b))
  {
  }

  /** What `Trail` hands to the backend logger. */
  datatype Emission<M> = Emission(zap: ZapLevel, msg: M)

  /** `Trail(level, msg)` under the global threshold `reportingLevel`:
      the message reaches the backend, at the level `zapMap` gives, exactly
      when `level >= reportingLevel`; below the threshold nothing happens. */
  function Trail<M>(level: int, reportingLevel: int, msg: M): (e: Option<Emission<M>>)
    ensures e.Some? <==> level >= reportingLevel
    ensures e.Some? ==> e.value.msg == msg && e.value.zap == ZapFor(level)
  {
    if level >= reportingLevel then Some(Emission(ZapFor(level), msg)) else None
  }

  /** Lowering the threshold never silences a message that was emitted. */
  lemma ThresholdMonotone<M>(level: int, lower: int, higher: int, msg: M)
    requires lower <= higher
    ensures Trail(level, higher, msg).Some? ==> Trail(level, lower, msg) == Trail(level, higher, msg)
  {
  }
}
