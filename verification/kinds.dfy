/**
 * The enumerations of the MSR score model, the diagnostics the visitor reports,
 * and the string-to-kind conversions the visitor applies to MusicXML attribute
 * and element values.
 *
 * Each conversion returns the kind it settles on together with the diagnostic it
 * reports, if any: an unknown value is reported and conversion goes on with a
 * default (or, where the visitor leaves its kind variable uninitialised, with an
 * unspecified kind, written None). For every conversion a Name function maps each
 * kind back to the MusicXML string that produces it, which pins down which string
 * yields which kind.
 */
module Kinds {
  import opened Wrappers

  // ---------------------------------------------------------------------------
  // Diagnostics

  datatype Severity = Error | Warning

  /** What an unknown-value diagnostic is about. */
  datatype Subject =
    | PartgroupTypeSubject | PartgroupSymbolSubject | PartgroupBarlineSubject
    | BarlineLocationSubject | BarStyleSubject | EndingTypeSubject
    | RepeatDirectionSubject | RepeatWingedSubject
    | TiedTypeSubject | SlurTypeSubject | WedgeTypeSubject | SyllabicSubject
    | StemSubject | BeamSubject | PedalTypeSubject | PedalLineSubject
    | OctaveShiftSizeSubject | OctaveShiftTypeSubject | GraceSlashSubject
    | RehearsalEnclosureSubject | TupletTypeSubject | ParenthesesSubject
    | ClefLineSubject | DirectionPlacementSubject

  /** The decoration queues that can be found pending on a rest. */
  datatype Pending = PendingDynamics | PendingWords | PendingSlur | PendingWedge

  datatype Issue =
    | UnknownValue(subject: Subject, value: string)
    | UnknownNumber(subject: Subject, number: int)
    | DivisionsNotPositive(divisions: int)
    | LyricNumberNegative(lyricNumber: int)
    | StaffOutOfContext(staffNumber: int)
    | VoiceOutOfContext(voiceNumber: int)
    | MultipleBeats
    | PerMinuteMissing
    | AttachedToRest(pending: Pending)
    | RestInChord
    | StepNotSingleLetter(step: string)
    | DurationOutOfContext(duration: int)
    | UnhandledBarline(location: string, style: string, endingType: string,
                       endingNumber: string, repeatDirection: string, repeatWinged: string)

  datatype Diagnostic = Diagnostic(severity: Severity, issue: Issue)

  /** The outcome of converting one MusicXML string. */
  datatype Conversion<K> = Conversion(value: K, report: Option<Diagnostic>)

  function UnknownError<K>(value: K, subject: Subject, s: string): Conversion<K> {
    Conversion(value, Some(Diagnostic(Error, UnknownValue(subject, s))))
  }

  // ---------------------------------------------------------------------------
  // Part groups

  datatype PartgroupType = StartPartgroupType | StopPartgroupType | NoPartgroupType

  /** `<part-group type=...>`: the type may be absent, which is not reported. */
  function PartgroupTypeOf(s: string): (r: Conversion<PartgroupType>)
    ensures r.report.None? <==> s in {"start", "stop", ""}
    ensures r.value == NoPartgroupType <==> s !in {"start", "stop"}
    ensures r.report.Some? ==> r == UnknownError(NoPartgroupType, PartgroupTypeSubject, s)
  {
    if s == "start" then Conversion(StartPartgroupType, None)
    else if s == "stop" then Conversion(StopPartgroupType, None)
    else if |s| > 0 then UnknownError(NoPartgroupType, PartgroupTypeSubject, s)
    else Conversion(NoPartgroupType, None)
  }

  function PartgroupTypeName(k: PartgroupType): (s: string)
    ensures PartgroupTypeOf(s) == Conversion(k, None)
  {
    match k
    case StartPartgroupType => "start"
    case StopPartgroupType => "stop"
    case NoPartgroupType => ""
  }

  datatype PartgroupSymbol = BracePartgroupSymbol | BracketPartgroupSymbol
                           | LinePartgroupSymbol | SquarePartgroupSymbol | NoPartgroupSymbol

  /** `<group-symbol>`: "none" and an absent symbol both give no symbol, silently. */
  function PartgroupSymbolOf(s: string): (r: Conversion<PartgroupSymbol>)
    ensures r.report.None? <==> s in {"brace", "bracket", "line", "square", "none", ""}
    ensures r.value == NoPartgroupSymbol <==> s !in {"brace", "bracket", "line", "square"}
    ensures r.report.Some? ==> r == UnknownError(NoPartgroupSymbol, PartgroupSymbolSubject, s)
  {
    if s == "brace" then Conversion(BracePartgroupSymbol, None)
    else if s == "bracket" then Conversion(BracketPartgroupSymbol, None)
    else if s == "line" then Conversion(LinePartgroupSymbol, None)
    else if s == "square" then Conversion(SquarePartgroupSymbol, None)
    else if s == "none" then Conversion(NoPartgroupSymbol, None)
    else if |s| > 0 then UnknownError(NoPartgroupSymbol, PartgroupSymbolSubject, s)
    else Conversion(NoPartgroupSymbol, None)
  }

  function PartgroupSymbolName(k: PartgroupSymbol): (s: string)
    ensures PartgroupSymbolOf(s) == Conversion(k, None)
  {
    match k
    case BracePartgroupSymbol => "brace"
    case BracketPartgroupSymbol => "bracket"
    case LinePartgroupSymbol => "line"
    case SquarePartgroupSymbol => "square"
    case NoPartgroupSymbol => "none"
  }

  /** `<group-barline>`: only "yes" and "no" are accepted; anything else is reported and read as no. */
  function PartgroupBarlineOf(s: string): (r: Conversion<bool>)
    ensures r.value <==> s == "yes"
    ensures r.report.None? <==> s in {"yes", "no"}
    ensures r.report.Some? ==> r == UnknownError(false, PartgroupBarlineSubject, s)
  {
    if s == "yes" then Conversion(true, None)
    else if s == "no" then Conversion(false, None)
    else UnknownError(false, PartgroupBarlineSubject, s)
  }

  function PartgroupBarlineName(b: bool): (s: string)
    ensures PartgroupBarlineOf(s) == Conversion(b, None)
  {
    if b then "yes" else "no"
  }

  // ---------------------------------------------------------------------------
  // Barline attributes

  datatype BarlineLocation = LeftLocation | MiddleLocation | RightLocation

  /** `<barline location=...>`: right by default, and anything but left/middle/right (even absent) is reported. */
  function BarlineLocationOf(s: string): (r: Conversion<BarlineLocation>)
    ensures r.report.None? <==> s in {"left", "middle", "right"}
    ensures r.report.Some? ==> r == UnknownError(RightLocation, BarlineLocationSubject, s)
  {
    if s == "left" then Conversion(LeftLocation, None)
    else if s == "middle" then Conversion(MiddleLocation, None)
    else if s == "right" then Conversion(RightLocation, None)
    else UnknownError(RightLocation, BarlineLocationSubject, s)
  }

  function BarlineLocationName(k: BarlineLocation): (s: string)
    ensures BarlineLocationOf(s) == Conversion(k, None)
  {
    match k
    case LeftLocation => "left"
    case MiddleLocation => "middle"
    case RightLocation => "right"
  }

  datatype BarStyle = Regular | Dotted | Dashed | Heavy | LightLight | LightHeavy
                    | HeavyLight | HeavyHeavy | Tick | Short | NoStyle

  const BarStyleNames: set<string> :=
    {"regular", "dotted", "dashed", "heavy", "light-light", "light-heavy",
     "heavy-light", "heavy-heavy", "tick", "short"}

  /** `<bar-style>`: the ten MusicXML styles; anything else is reported and leaves no style. */
  function BarStyleOf(s: string): (r: Conversion<BarStyle>)
    ensures r.report.None? <==> s in BarStyleNames
    ensures r.value == NoStyle <==> r.report.Some?
    ensures r.report.Some? ==> r == UnknownError(NoStyle, BarStyleSubject, s)
  {
    if s == "regular" then Conversion(Regular, None)
    else if s == "dotted" then Conversion(Dotted, None)
    else if s == "dashed" then Conversion(Dashed, None)
    else if s == "heavy" then Conversion(Heavy, None)
    else if s == "light-light" then Conversion(LightLight, None)
    else if s == "light-heavy" then Conversion(LightHeavy, None)
    else if s == "heavy-light" then Conversion(HeavyLight, None)
    else if s == "heavy-heavy" then Conversion(HeavyHeavy, None)
    else if s == "tick" then Conversion(Tick, None)
    else if s == "short" then Conversion(Short, None)
    else UnknownError(NoStyle, BarStyleSubject, s)
  }

  function BarStyleName(k: BarStyle): (s: string)
    requires k != NoStyle
    ensures s in BarStyleNames
    ensures BarStyleOf(s) == Conversion(k, None)
  {
    match k
    case Regular => "regular"
    case Dotted => "dotted"
    case Dashed => "dashed"
    case Heavy => "heavy"
    case LightLight => "light-light"
    case LightHeavy => "light-heavy"
    case HeavyLight => "heavy-light"
    case HeavyHeavy => "heavy-heavy"
    case Tick => "tick"
    case Short => "short"
  }

  datatype EndingType = EndingStart | EndingStop | EndingDiscontinue | NoEndingType

  /**
   * `<ending type=...>`: an unknown type is reported and the ending type the
   * barline had so far is kept.
   */
  function EndingTypeOf(s: string, previous: EndingType): (r: Conversion<EndingType>)
    ensures r.report.None? <==> s in {"start", "stop", "discontinue"}
    ensures r.report.Some? ==> r == UnknownError(previous, EndingTypeSubject, s)
  {
    if s == "start" then Conversion(EndingStart, None)
    else if s == "stop" then Conversion(EndingStop, None)
    else if s == "discontinue" then Conversion(EndingDiscontinue, None)
    else UnknownError(previous, EndingTypeSubject, s)
  }

  function EndingTypeName(k: EndingType): (s: string)
    requires k != NoEndingType
    ensures forall previous :: EndingTypeOf(s, previous) == Conversion(k, None)
  {
    match k
    case EndingStart => "start"
    case EndingStop => "stop"
    case EndingDiscontinue => "discontinue"
  }

  datatype RepeatDirection = Forward | Backward | NoRepeatDirection

  /** `<repeat direction=...>`: anything but forward/backward is reported and leaves no direction. */
  function RepeatDirectionOf(s: string): (r: Conversion<RepeatDirection>)
    ensures r.report.None? <==> s in {"forward", "backward"}
    ensures r.value == NoRepeatDirection <==> r.report.Some?
    ensures r.report.Some? ==> r == UnknownError(NoRepeatDirection, RepeatDirectionSubject, s)
  {
    if s == "forward" then Conversion(Forward, None)
    else if s == "backward" then Conversion(Backward, None)
    else UnknownError(NoRepeatDirection, RepeatDirectionSubject, s)
  }

  function RepeatDirectionName(k: RepeatDirection): (s: string)
    requires k != NoRepeatDirection
    ensures RepeatDirectionOf(s) == Conversion(k, None)
  {
    match k
    case Forward => "forward"
    case Backward => "backward"
  }

  datatype RepeatWinged = NoneWinged | Straight | Curved | DoubleStraight | DoubleCurved | NoRepeatWinged

  /** `<repeat winged=...>`: only checked when present; an unknown value is reported. */
  function RepeatWingedOf(s: string): (r: Conversion<RepeatWinged>)
    ensures r.report.None? <==> s in {"", "none", "straight", "curved", "doubleStraight", "doubleCurved"}
    ensures r.value == NoRepeatWinged <==> s !in {"none", "straight", "curved", "doubleStraight", "doubleCurved"}
    ensures r.report.Some? ==> r == UnknownError(NoRepeatWinged, RepeatWingedSubject, s)
  {
    if |s| == 0 then Conversion(NoRepeatWinged, None)
    else if s == "none" then Conversion(NoneWinged, None)
    else if s == "straight" then Conversion(Straight, None)
    else if s == "curved" then Conversion(Curved, None)
    else if s == "doubleStraight" then Conversion(DoubleStraight, None)
    else if s == "doubleCurved" then Conversion(DoubleCurved, None)
    else UnknownError(NoRepeatWinged, RepeatWingedSubject, s)
  }

  function RepeatWingedName(k: RepeatWinged): (s: string)
    ensures RepeatWingedOf(s) == Conversion(k, None)
  {
    match k
    case NoneWinged => "none"
    case Straight => "straight"
    case Curved => "curved"
    case DoubleStraight => "doubleStraight"
    case DoubleCurved => "doubleCurved"
    case NoRepeatWinged => ""
  }

  datatype PedalType = PedalStart | PedalContinue | PedalChange | PedalStop

  /** `<pedal type=...>`: an unknown type is reported and the kind is left unspecified (None). */
  function PedalTypeOf(s: string): (r: Conversion<Option<PedalType>>)
    ensures r.report.None? <==> s in {"start", "continue", "change", "stop"}
    ensures r.value.None? <==> r.report.Some?
    ensures r.report.Some? ==> r == UnknownError(None, PedalTypeSubject, s)
  {
    if s == "start" then Conversion(Some(PedalStart), None)
    else if s == "continue" then Conversion(Some(PedalContinue), None)
    else if s == "change" then Conversion(Some(PedalChange), None)
    else if s == "stop" then Conversion(Some(PedalStop), None)
    else UnknownError(None, PedalTypeSubject, s)
  }

  function PedalTypeName(k: PedalType): (s: string)
    ensures PedalTypeOf(s) == Conversion(Some(k), None)
  {
    match k
    case PedalStart => "start"
    case PedalContinue => "continue"
    case PedalChange => "change"
    case PedalStop => "stop"
  }

  /** `<pedal line=...>`: yes/no; anything else (even absent) is reported and the line is left unspecified. */
  function PedalLineOf(s: string): (r: Conversion<Option<bool>>)
    ensures r.report.None? <==> s in {"yes", "no"}
    ensures r.report.None? ==> r.value == Some(s == "yes")
    ensures r.report.Some? ==> r == UnknownError(None, PedalLineSubject, s)
  {
    if s == "yes" then Conversion(Some(true), None)
    else if s == "no" then Conversion(Some(false), None)
    else UnknownError(None, PedalLineSubject, s)
  }

  // ---------------------------------------------------------------------------
  // Notations attached to notes

  /**
   * `<step>` and `<display-step>`: the first character of the value, the null
   * character when it is empty; a value that is not a single character is reported.
   */
  function StepOf(s: string): (r: Conversion<char>)
    ensures r.report.None? <==> |s| == 1
    ensures r.report.Some? ==> r.report.value == Diagnostic(Error, StepNotSingleLetter(s))
    ensures |s| > 0 ==> r.value == s[0]
    ensures |s| == 0 ==> r.value == '\0'
  {
    var c := if |s| > 0 then s[0] else '\0';
    if |s| != 1 then Conversion(c, Some(Diagnostic(Error, StepNotSingleLetter(s)))) else Conversion(c, None)
  }

  datatype TieKind = StartTie | ContinueTie | StopTie | NoTie

  /**
   * `<tied type=...>`: an unknown type gives no tie; it is reported only outside
   * a slur and only when present. The visitor's message quotes the current slur
   * type rather than the tied type, which the report reproduces.
   */
  function TieKindOf(s: string, onGoingSlur: bool, currentSlurType: string): (r: Conversion<TieKind>)
    ensures r.value == NoTie <==> s !in {"start", "continue", "stop"}
    ensures r.report.Some? <==> r.value == NoTie && !onGoingSlur && s != ""
    ensures r.report.Some? ==> r == UnknownError(NoTie, TiedTypeSubject, currentSlurType)
  {
    if s == "start" then Conversion(StartTie, None)
    else if s == "continue" then Conversion(ContinueTie, None)
    else if s == "stop" then Conversion(StopTie, None)
    else if !onGoingSlur && |s| > 0 then UnknownError(NoTie, TiedTypeSubject, currentSlurType)
    else Conversion(NoTie, None)
  }

  function TieKindName(k: TieKind): (s: string)
    requires k != NoTie
    ensures forall onGoingSlur, slurType :: TieKindOf(s, onGoingSlur, slurType) == Conversion(k, None)
  {
    match k
    case StartTie => "start"
    case ContinueTie => "continue"
    case StopTie => "stop"
  }

  datatype SlurKind = StartSlur | ContinueSlur | StopSlur | NoSlur

  /** The outcome of `<slur type=...>`: the slur kind, the new ongoing-slur flag and the report. */
  datatype SlurReading = SlurReading(kind: SlurKind, onGoingSlur: bool, report: Option<Diagnostic>)

  /**
   * `<slur type=...>`: start opens the ongoing slur and stop closes it; continue
   * leaves it as it is. An unknown type keeps the previous slur kind and is
   * reported only outside a slur and only when present.
   */
  function SlurOf(s: string, previous: SlurKind, onGoingSlur: bool): (r: SlurReading)
    ensures s == "start" ==> r.onGoingSlur
    ensures s == "stop" ==> !r.onGoingSlur
    ensures s != "start" && s != "stop" ==> r.onGoingSlur == onGoingSlur
    ensures s !in {"start", "continue", "stop"} ==> r.kind == previous
    ensures r.report.Some? <==> s !in {"start", "continue", "stop"} && !onGoingSlur && s != ""
    ensures r.report.Some? ==> r.report.value == Diagnostic(Error, UnknownValue(SlurTypeSubject, s))
  {
    if s == "start" then SlurReading(StartSlur, true, None)
    else if s == "continue" then SlurReading(ContinueSlur, onGoingSlur, None)
    else if s == "stop" then SlurReading(StopSlur, false, None)
    else if !onGoingSlur && |s| > 0 then
      SlurReading(previous, onGoingSlur, Some(Diagnostic(Error, UnknownValue(SlurTypeSubject, s))))
    else SlurReading(previous, onGoingSlur, None)
  }

  function SlurKindName(k: SlurKind): (s: string)
    requires k != NoSlur
    ensures forall previous, onGoingSlur :: SlurOf(s, previous, onGoingSlur).kind == k
  {
    match k
    case StartSlur => "start"
    case ContinueSlur => "continue"
    case StopSlur => "stop"
  }

  datatype WedgeKind = CrescendoWedge | DecrescendoWedge | StopWedge

  /** `<wedge type=...>`: an unknown type leaves the kind unspecified and is reported when present. */
  function WedgeKindOf(s: string): (r: Conversion<Option<WedgeKind>>)
    ensures r.value.None? <==> s !in {"crescendo", "diminuendo", "stop"}
    ensures r.report.Some? <==> r.value.None? && s != ""
    ensures r.report.Some? ==> r == UnknownError(None, WedgeTypeSubject, s)
  {
    if s == "crescendo" then Conversion(Some(CrescendoWedge), None)
    else if s == "diminuendo" then Conversion(Some(DecrescendoWedge), None)
    else if s == "stop" then Conversion(Some(StopWedge), None)
    else if |s| > 0 then UnknownError(None, WedgeTypeSubject, s)
    else Conversion(None, None)
  }

  function WedgeKindName(k: WedgeKind): (s: string)
    ensures WedgeKindOf(s) == Conversion(Some(k), None)
  {
    match k
    case CrescendoWedge => "crescendo"
    case DecrescendoWedge => "diminuendo"
    case StopWedge => "stop"
  }

  datatype StemKind = StemUp | StemDown | StemNone | StemDouble

  /**
   * `<stem>`: an unknown value is reported and the stem kind is left unspecified.
   * The visitor's message quotes the current beam value rather than the stem.
   */
  function StemKindOf(s: string, currentBeamValue: string): (r: Conversion<Option<StemKind>>)
    ensures r.report.None? <==> s in {"up", "down", "none", "double"}
    ensures r.value.None? <==> r.report.Some?
    ensures r.report.Some? ==> r == UnknownError(None, StemSubject, currentBeamValue)
  {
    if s == "up" then Conversion(Some(StemUp), None)
    else if s == "down" then Conversion(Some(StemDown), None)
    else if s == "none" then Conversion(Some(StemNone), None)
    else if s == "double" then Conversion(Some(StemDouble), None)
    else UnknownError(None, StemSubject, currentBeamValue)
  }

  function StemKindName(k: StemKind): (s: string)
    ensures forall beamValue :: StemKindOf(s, beamValue) == Conversion(Some(k), None)
  {
    match k
    case StemUp => "up"
    case StemDown => "down"
    case StemNone => "none"
    case StemDouble => "double"
  }

  datatype BeamKind = BeginBeam | ContinueBeam | EndBeam | ForwardHookBeam | BackwardHookBeam

  /** `<beam>`: an unknown value draws a warning and no beam is created. */
  function BeamKindOf(s: string): (r: Conversion<Option<BeamKind>>)
    ensures r.value.None? <==> s !in {"begin", "continue", "end", "forward hook", "backward hook"}
    ensures r.value.None? <==> r.report.Some?
    ensures r.report.Some? ==> r == Conversion(None, Some(Diagnostic(Warning, UnknownValue(BeamSubject, s))))
  {
    if s == "begin" then Conversion(Some(BeginBeam), None)
    else if s == "continue" then Conversion(Some(ContinueBeam), None)
    else if s == "end" then Conversion(Some(EndBeam), None)
    else if s == "forward hook" then Conversion(Some(ForwardHookBeam), None)
    else if s == "backward hook" then Conversion(Some(BackwardHookBeam), None)
    else Conversion(None, Some(Diagnostic(Warning, UnknownValue(BeamSubject, s))))
  }

  function BeamKindName(k: BeamKind): (s: string)
    ensures BeamKindOf(s) == Conversion(Some(k), None)
  {
    match k
    case BeginBeam => "begin"
    case ContinueBeam => "continue"
    case EndBeam => "end"
    case ForwardHookBeam => "forward hook"
    case BackwardHookBeam => "backward hook"
  }

  /**
   * `<grace slash=...>`: yes/no set the slash flag; anything else keeps the
   * previous flag and is reported when present.
   */
  function GraceSlashOf(s: string, previous: bool): (r: Conversion<bool>)
    ensures s == "yes" ==> r.value
    ensures s == "no" ==> !r.value
    ensures s !in {"yes", "no"} ==> r.value == previous
    ensures r.report.Some? <==> s !in {"yes", "no", ""}
    ensures r.report.Some? ==> r.report.value == Diagnostic(Error, UnknownValue(GraceSlashSubject, s))
  {
    if s == "yes" then Conversion(true, None)
    else if s == "no" then Conversion(false, None)
    else if |s| > 0 then UnknownError(previous, GraceSlashSubject, s)
    else Conversion(previous, None)
  }

  datatype TupletKind = StartTuplet | ContinueTuplet | StopTuplet | NoTuplet

  /** `<tuplet type=...>`: anything but start/continue/stop (even absent) is reported and gives no tuplet kind. */
  function TupletKindOf(s: string): (r: Conversion<TupletKind>)
    ensures r.report.None? <==> s in {"start", "continue", "stop"}
    ensures r.value == NoTuplet <==> r.report.Some?
    ensures r.report.Some? ==> r == UnknownError(NoTuplet, TupletTypeSubject, s)
  {
    if s == "start" then Conversion(StartTuplet, None)
    else if s == "continue" then Conversion(ContinueTuplet, None)
    else if s == "stop" then Conversion(StopTuplet, None)
    else UnknownError(NoTuplet, TupletTypeSubject, s)
  }

  function TupletKindName(k: TupletKind): (s: string)
    requires k != NoTuplet
    ensures TupletKindOf(s) == Conversion(k, None)
  {
    match k
    case StartTuplet => "start"
    case ContinueTuplet => "continue"
    case StopTuplet => "stop"
  }

  datatype ArticulationKind =
    | Accent | BreathMark | Caesura | Spiccato | Staccato | Staccatissimo | Stress
    | Unstress | DetachedLegato | StrongAccent | Tenuto | Fermata | Arpeggiato
    | Doit | Falloff | Plop | Scoop

  datatype OrnamentKind =
    | TrillMark | WavyLine | Turn | InvertedTurn | DelayedTurn | DelayedInvertedTurn
    | VerticalTurn | Mordent | InvertedMordent | Schleifer | Shake

  datatype DynamicsKind =
    | F | FF | FFF | FFFF | FFFFF | FFFFFF | P | PP | PPP | PPPP | PPPPP | PPPPPP
    | FP | FZ | RF | SF | RFZ | SFZ | SFP | SFPP | SFFZ

  const DynamicsElements: set<string> :=
    {"f", "ff", "fff", "ffff", "fffff", "ffffff", "p", "pp", "ppp", "pppp", "ppppp",
     "pppppp", "fp", "fz", "rf", "sf", "rfz", "sfz", "sfp", "sfpp", "sffz"}

  /**
   * The dynamics kind created for each MusicXML dynamics element. The element
   * `ppp` creates the kind PP, as `pp` does, so no element yields PPP.
   */
  function DynamicsKindOf(element: string): (r: Option<DynamicsKind>)
    ensures r.None? <==> element !in DynamicsElements
    ensures r != Some(PPP)
  {
    if element == "f" then Some(F)
    else if element == "ff" then Some(FF)
    else if element == "fff" then Some(FFF)
    else if element == "ffff" then Some(FFFF)
    else if element == "fffff" then Some(FFFFF)
    else if element == "ffffff" then Some(FFFFFF)
    else if element == "p" then Some(P)
    else if element == "pp" then Some(PP)
    else if element == "ppp" then Some(PP)
    else if element == "pppp" then Some(PPPP)
    else if element == "ppppp" then Some(PPPPP)
    else if element == "pppppp" then Some(PPPPPP)
    else if element == "fp" then Some(FP)
    else if element == "fz" then Some(FZ)
    else if element == "rf" then Some(RF)
    else if element == "sf" then Some(SF)
    else if element == "rfz" then Some(RFZ)
    else if element == "sfz" then Some(SFZ)
    else if element == "sfp" then Some(SFP)
    else if element == "sfpp" then Some(SFPP)
    else if element == "sffz" then Some(SFFZ)
    else None
  }

  /** The element that creates each dynamics kind; PPP has none. */
  function DynamicsElementName(k: DynamicsKind): (s: string)
    requires k != PPP
    ensures DynamicsKindOf(s) == Some(k)
  {
    if IsAccentDynamics(k) then AccentElementName(k) else LevelElementName(k)
  }

  /** The dynamics that are accents rather than loudness levels. */
  predicate IsAccentDynamics(k: DynamicsKind) {
    k in {FP, FZ, RF, SF, RFZ, SFZ, SFP, SFPP, SFFZ}
  }

  /** The element of each loudness level. */
  function LevelElementName(k: DynamicsKind): (s: string)
    requires k != PPP && !IsAccentDynamics(k)
    ensures DynamicsKindOf(s) == Some(k)
  {
    match k
    case F => "f"
    case FF => "ff"
    case FFF => "fff"
    case FFFF => "ffff"
    case FFFFF => "fffff"
    case FFFFFF => "ffffff"
    case P => "p"
    case PP => "pp"
    case PPPP => "pppp"
    case PPPPP => "ppppp"
    case PPPPPP => "pppppp"
  }

  /** The element of each accent-like dynamics. */
  function AccentElementName(k: DynamicsKind): (s: string)
    requires IsAccentDynamics(k)
    ensures DynamicsKindOf(s) == Some(k)
  {
    match k
    case FP => "fp"
    case FZ => "fz"
    case RF => "rf"
    case SF => "sf"
    case RFZ => "rfz"
    case SFZ => "sfz"
    case SFP => "sfp"
    case SFPP => "sfpp"
    case SFFZ => "sffz"
  }

  // ---------------------------------------------------------------------------
  // Directions

  datatype Placement = Above | Below

  /**
   * `<direction placement=...>`: above and below set the placement of the
   * words that follow; any other present value is reported and keeps the
   * placement as it was, which an absent value also does.
   */
  function DirectionPlacementOf(s: string, previous: Option<Placement>): (r: Conversion<Option<Placement>>)
    ensures s == "above" ==> r == Conversion(Some(Above), None)
    ensures s == "below" ==> r == Conversion(Some(Below), None)
    ensures s !in {"above", "below"} ==> r.value == previous
    ensures r.report.Some? <==> s !in {"above", "below", ""}
    ensures r.report.Some? ==> r == UnknownError(previous, DirectionPlacementSubject, s)
  {
    if s == "above" then Conversion(Some(Above), None)
    else if s == "below" then Conversion(Some(Below), None)
    else if |s| > 0 then UnknownError(previous, DirectionPlacementSubject, s)
    else Conversion(previous, None)
  }

  datatype OctaveShiftKind = OctaveShiftUp | OctaveShiftDown | OctaveShiftStop

  /** `<octave-shift size=...>`: a size other than 8 or 15 is reported (and kept). */
  function OctaveShiftSizeReport(size: int): (r: Option<Diagnostic>)
    ensures r.None? <==> size == 8 || size == 15
    ensures r.Some? ==> r.value == Diagnostic(Error, UnknownNumber(OctaveShiftSizeSubject, size))
  {
    if size != 8 && size != 15 then Some(Diagnostic(Error, UnknownNumber(OctaveShiftSizeSubject, size)))
    else None
  }

  /** `<octave-shift type=...>`: up/down/stop; anything else is reported and the kind is left unspecified. */
  function OctaveShiftKindOf(s: string): (r: Conversion<Option<OctaveShiftKind>>)
    ensures r.report.None? <==> s in {"up", "down", "stop"}
    ensures r.value.None? <==> r.report.Some?
    ensures r.report.Some? ==> r == UnknownError(None, OctaveShiftTypeSubject, s)
  {
    if s == "up" then Conversion(Some(OctaveShiftUp), None)
    else if s == "down" then Conversion(Some(OctaveShiftDown), None)
    else if s == "stop" then Conversion(Some(OctaveShiftStop), None)
    else UnknownError(None, OctaveShiftTypeSubject, s)
  }

  function OctaveShiftKindName(k: OctaveShiftKind): (s: string)
    ensures OctaveShiftKindOf(s) == Conversion(Some(k), None)
  {
    match k
    case OctaveShiftUp => "up"
    case OctaveShiftDown => "down"
    case OctaveShiftStop => "stop"
  }

  datatype RehearsalKind = RehearsalNone | Rectangle | Oval | Circle | Bracket | Triangle | Diamond

  /**
   * `<rehearsal enclosure=...>`: the visitor compares against the spellings
   * "kRectangle", "kOval", ... rather than the MusicXML values "rectangle",
   * "oval", ...; any other enclosure draws a warning when present and gives no enclosure.
   */
  function RehearsalKindOf(s: string): (r: Conversion<RehearsalKind>)
    ensures r.value == RehearsalNone <==>
      s !in {"kRectangle", "kOval", "kCircle", "kBracket", "kTriangle", "kDiamond"}
    ensures r.report.Some? <==>
      s !in {"", "none", "kRectangle", "kOval", "kCircle", "kBracket", "kTriangle", "kDiamond"}
    ensures r.report.Some? ==>
      r.report.value == Diagnostic(Warning, UnknownValue(RehearsalEnclosureSubject, s))
  {
    if s == "none" then Conversion(RehearsalNone, None)
    else if s == "kRectangle" then Conversion(Rectangle, None)
    else if s == "kOval" then Conversion(Oval, None)
    else if s == "kCircle" then Conversion(Circle, None)
    else if s == "kBracket" then Conversion(Bracket, None)
    else if s == "kTriangle" then Conversion(Triangle, None)
    else if s == "kDiamond" then Conversion(Diamond, None)
    else if |s| > 0 then Conversion(RehearsalNone, Some(Diagnostic(Warning, UnknownValue(RehearsalEnclosureSubject, s))))
    else Conversion(RehearsalNone, None)
  }

  function RehearsalKindName(k: RehearsalKind): (s: string)
    ensures RehearsalKindOf(s) == Conversion(k, None)
  {
    match k
    case RehearsalNone => "none"
    case Rectangle => "kRectangle"
    case Oval => "kOval"
    case Circle => "kCircle"
    case Bracket => "kBracket"
    case Triangle => "kTriangle"
    case Diamond => "kDiamond"
  }

  /**
   * `<metronome parentheses=...>`: when present, both "yes" and "no" set the
   * parentheses flag; any other present value is reported and keeps the flag.
   */
  function ParenthesesOf(s: string, previous: bool): (r: Conversion<bool>)
    ensures s in {"yes", "no"} ==> r.value
    ensures s !in {"yes", "no"} ==> r.value == previous
    ensures r.report.Some? <==> s !in {"yes", "no", ""}
    ensures r.report.Some? ==> r.report.value == Diagnostic(Error, UnknownValue(ParenthesesSubject, s))
  {
    if |s| == 0 then Conversion(previous, None)
    else if s == "yes" then Conversion(true, None)
    else if s == "no" then Conversion(true, None)
    else UnknownError(previous, ParenthesesSubject, s)
  }

  /**
   * The two guards of `</metronome>`: exactly one beat unit and a non-zero
   * per-minute value are needed; otherwise a warning is issued and no tempo is made.
   */
  function MetronomeGuard(beatsCount: nat, perMinute: int): (r: Option<Diagnostic>)
    ensures r.None? <==> beatsCount == 1 && perMinute != 0
    ensures beatsCount != 1 ==> r == Some(Diagnostic(Warning, MultipleBeats))
    ensures beatsCount == 1 && perMinute == 0 ==> r == Some(Diagnostic(Warning, PerMinuteMissing))
  {
    if beatsCount != 1 then Some(Diagnostic(Warning, MultipleBeats))
    else if perMinute == 0 then Some(Diagnostic(Warning, PerMinuteMissing))
    else None
  }

  // ---------------------------------------------------------------------------
  // Clefs

  datatype ClefKind =
    | TrebleClef | TrebleMinus15Clef | TreblePlus15Clef | TrebleLine1Clef
    | BassClef | BassMinus15Clef | BassPlus15Clef | TenorClef | AltoClef

  /**
   * The reading of `</clef>` restricted to its unambiguous rows. Rows whose
   * switch labels are duplicated, and every sign other than G, F and C (which
   * all fall into the tablature branch), are not modelled.
   */
  datatype ClefReading = ClefOf(kind: ClefKind) | ClefLineUnknown(report: Diagnostic) | ClefNotModelled

  function UpperChar(c: char): char {
    if 'a' <= c <= 'z' then (c as int - 'a' as int + 'A' as int) as char else c
  }

  /** The clef sign is upper-cased before it is examined. */
  function Upper(s: string): (r: string)
    ensures |r| == |s|
    ensures forall i :: 0 <= i < |s| ==> r[i] == UpperChar(s[i])
  {
    if |s| == 0 then "" else [UpperChar(s[0])] + Upper(s[1..])
  }

  function ClefReadingOf(sign: string, line: int, octaveChange: int): (r: ClefReading)
    ensures Upper(sign) == "G" && line == 2 && octaveChange == 0 ==> r == ClefOf(TrebleClef)
    ensures Upper(sign) == "G" && line == 1 ==> r == ClefOf(TrebleLine1Clef)
    ensures Upper(sign) == "F" && line == 4 && octaveChange == 0 ==> r == ClefOf(BassClef)
    ensures Upper(sign) == "C" && line == 4 ==> r == ClefOf(TenorClef)
    ensures Upper(sign) == "C" && line == 3 ==> r == ClefOf(AltoClef)
    ensures r.ClefLineUnknown? <==>
      (Upper(sign) == "G" && line != 1 && line != 2) ||
      (Upper(sign) == "F" && line != 4) ||
      (Upper(sign) == "C" && line != 3 && line != 4)
    ensures r.ClefLineUnknown? ==> r.report == Diagnostic(Error, UnknownNumber(ClefLineSubject, line))
    ensures Upper(sign) !in {"G", "F", "C"} ==> r == ClefNotModelled
  {
    var u := Upper(sign);
    if u == "G" then
      if line == 2 then
        if octaveChange == -2 then ClefOf(TrebleMinus15Clef)
        else if octaveChange == 0 then ClefOf(TrebleClef)
        else if octaveChange == 2 then ClefOf(TreblePlus15Clef)
        else ClefNotModelled
      else if line == 1 then ClefOf(TrebleLine1Clef)
      else ClefLineUnknown(Diagnostic(Error, UnknownNumber(ClefLineSubject, line)))
    else if u == "F" then
      if line == 4 then
        if octaveChange == -2 then ClefOf(BassMinus15Clef)
        else if octaveChange == 0 then ClefOf(BassClef)
        else if octaveChange == 2 then ClefOf(BassPlus15Clef)
        else ClefNotModelled
      else ClefLineUnknown(Diagnostic(Error, UnknownNumber(ClefLineSubject, line)))
    else if u == "C" then
      if line == 4 then ClefOf(TenorClef)
      else if line == 3 then ClefOf(AltoClef)
      else ClefLineUnknown(Diagnostic(Error, UnknownNumber(ClefLineSubject, line)))
    else ClefNotModelled
  }

  // ---------------------------------------------------------------------------
  // Divisions

  /**
   * `<divisions>`: a part's divisions per whole note are four times the
   * divisions per quarter note; a non-positive value is reported but still used.
   */
  function DivisionsOf(divisionsPerQuarterNote: int): (r: Conversion<int>)
    ensures r.value == 4 * divisionsPerQuarterNote
    ensures r.value > 0 <==> r.report.None?
    ensures r.report.Some? ==>
      r.report.value == Diagnostic(Error, DivisionsNotPositive(divisionsPerQuarterNote))
  {
    Conversion(divisionsPerQuarterNote * 4,
      if divisionsPerQuarterNote <= 0 then Some(Diagnostic(Error, DivisionsNotPositive(divisionsPerQuarterNote)))
      else None)
  }
}
