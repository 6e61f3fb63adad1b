/**
 * MSR barlines and the rule by which the end of a MusicXML `<barline>` decides
 * what the barline is: a repeat start, the end of a hooked or hookless ending,
 * a repeat end, an ending start, or a plain bar.
 */
module Barlines {
  import opened Wrappers
  import opened Kinds

  datatype Category =
    | RepeatStartCategory
    | HookedEndingEndCategory
    | RepeatEndCategory
    | EndingStartCategory
    | HooklessEndingEndCategory
    | StandaloneBarCategory

  datatype Barline = Barline(
    hasSegno: bool,
    hasCoda: bool,
    location: BarlineLocation,
    style: BarStyle,
    endingType: EndingType,
    endingNumber: string,
    repeatDirection: RepeatDirection,
    repeatWinged: RepeatWinged,
    category: Option<Category>)

  /**
   * The category chosen at the end of a `<barline>`, tested in this order, the
   * first test that holds deciding:
   *   left and forward repeat                   -> repeat start
   *   right and ending stop                     -> hooked ending end
   *   right and backward repeat                 -> repeat end
   *   left and ending start                     -> ending start
   *   right and ending discontinue              -> hookless ending end
   *   otherwise, any of the ten bar styles      -> standalone bar
   * and None when there is no bar style either: that barline is not handled.
   *
   * The contract states the same decision without the ordering: each category
   * holds exactly when its own test holds and no earlier test does.
   */
  function Classify(location: BarlineLocation, style: BarStyle, ending: EndingType,
                    direction: RepeatDirection): (r: Option<Category>)
    ensures r == Some(RepeatStartCategory) <==> location == LeftLocation && direction == Forward
    ensures r == Some(HookedEndingEndCategory) <==> location == RightLocation && ending == EndingStop
    ensures r == Some(RepeatEndCategory) <==>
      location == RightLocation && direction == Backward && ending != EndingStop
    ensures r == Some(EndingStartCategory) <==>
      location == LeftLocation && ending == EndingStart && direction != Forward
    ensures r == Some(HooklessEndingEndCategory) <==>
      location == RightLocation && ending == EndingDiscontinue && direction != Backward
    ensures r == Some(StandaloneBarCategory) <==> style != NoStyle && !IsRepeatOrEnding(location, ending, direction)
    ensures r.None? <==> style == NoStyle && !IsRepeatOrEnding(location, ending, direction)
  {
    if location == LeftLocation && direction == Forward then Some(RepeatStartCategory)
    else if location == RightLocation && ending == EndingStop then Some(HookedEndingEndCategory)
    else if location == RightLocation && direction == Backward then Some(RepeatEndCategory)
    else if location == LeftLocation && ending == EndingStart then Some(EndingStartCategory)
    else if location == RightLocation && ending == EndingDiscontinue then Some(HooklessEndingEndCategory)
    else if style != NoStyle then Some(StandaloneBarCategory)
    else None
  }

  /** Whether the barline carries any repeat or ending information the classifier reacts to. */
  predicate IsRepeatOrEnding(location: BarlineLocation, ending: EndingType, direction: RepeatDirection) {
    match location
    case LeftLocation => direction == Forward || ending == EndingStart
    case RightLocation => ending in {EndingStop, EndingDiscontinue} || direction == Backward
    case MiddleLocation => false
  }

  /**
   * The barline the visitor invents when an ending or repeat end is met with no
   * pending barline: a left, heavy-light, forward repeat with an ending start
   * carrying the current ending number and winged attribute, categorised as a
   * repeat start, which is the category the classifier gives its attributes.
   */
  function ImplicitRepeatStart(endingNumber: string, winged: RepeatWinged): (b: Barline)
    ensures b.location == LeftLocation && b.repeatDirection == Forward && b.style == HeavyLight
    ensures b.endingType == EndingStart && b.endingNumber == endingNumber && b.repeatWinged == winged
    ensures !b.hasSegno && !b.hasCoda
    ensures b.category == Some(RepeatStartCategory)
    ensures Classify(b.location, b.style, b.endingType, b.repeatDirection) == b.category
  {
    Barline(false, false, LeftLocation, HeavyLight, EndingStart, endingNumber, Forward, winged,
            Some(RepeatStartCategory))
  }
}
