/**
 * Lyric chunks: the kind of chunk a `<lyric>` produces and the text it carries.
 */
module Lyrics {
  import opened Wrappers
  import opened Kinds

  datatype ChunkKind =
    | SingleChunk | BeginChunk | MiddleChunk | EndChunk
    | SkipChunk | SlurChunk | SlurBeyondEndChunk | TiedChunk
    | NoChunk

  /** The four chunk kinds that carry a syllable of text. */
  predicate IsTextKind(k: ChunkKind) {
    k.SingleChunk? || k.BeginChunk? || k.MiddleChunk? || k.EndChunk?
  }

  /**
   * `<syllabic>` as first met: single/begin/middle/end; anything else (even an
   * empty value) is reported and the chunk kind is left as it was.
   */
  function SyllabicOf(s: string, previous: ChunkKind): (r: Conversion<ChunkKind>)
    ensures r.report.None? <==> s in {"single", "begin", "middle", "end"}
    ensures r.report.None? ==> IsTextKind(r.value) && SyllabicName(r.value) == s
    ensures r.report.Some? ==> r == UnknownError(previous, SyllabicSubject, s)
  {
    if s == "single" then Conversion(SingleChunk, None)
    else if s == "begin" then Conversion(BeginChunk, None)
    else if s == "middle" then Conversion(MiddleChunk, None)
    else if s == "end" then Conversion(EndChunk, None)
    else UnknownError(previous, SyllabicSubject, s)
  }

  /** The `<syllabic>` value of each text kind. */
  function SyllabicName(k: ChunkKind): string
    requires IsTextKind(k)
  {
    match k
    case SingleChunk => "single"
    case BeginChunk => "begin"
    case MiddleChunk => "middle"
    case EndChunk => "end"
  }

  /**
   * `<syllabic>` as read again at the end of the lyric: no report this time,
   * and no text kind when the value is none of the four.
   */
  function SyllabicChunkKind(s: string): (r: ChunkKind)
    ensures r != NoChunk <==> s in {"single", "begin", "middle", "end"}
    ensures r != NoChunk ==> IsTextKind(r) && SyllabicName(r) == s
    ensures r == NoChunk || IsTextKind(r)
  {
    if s == "single" then SingleChunk
    else if s == "begin" then BeginChunk
    else if s == "middle" then MiddleChunk
    else if s == "end" then EndChunk
    else NoChunk
  }

  /** The slur chunk kind: beyond the end of a slur whose first chunk ended a word. */
  function SlurKindFor(firstInSlur: ChunkKind): ChunkKind {
    if firstInSlur == EndChunk then SlurBeyondEndChunk else SlurChunk
  }

  /**
   * The chunk a `</lyric>` creates, NoChunk when it creates none. A syllabic
   * value wins; failing that, in this order: a tie gives a tied chunk, a rest a
   * skip chunk, an empty text within a slur that already has lyrics a slur
   * chunk, an ongoing slur a slur chunk. The contract states each outcome
   * independently of that order.
   */
  function ChooseChunkKind(syllabic: string, tie: TieKind, isRest: bool, slurHasLyrics: bool,
                           text: string, onGoingSlur: bool, firstInSlur: ChunkKind): (r: ChunkKind)
    ensures IsTextKind(r) <==> syllabic in {"single", "begin", "middle", "end"}
    ensures IsTextKind(r) ==> r == SyllabicChunkKind(syllabic)
    ensures r == TiedChunk <==> SyllabicChunkKind(syllabic) == NoChunk && tie != NoTie
    ensures r == SkipChunk <==> SyllabicChunkKind(syllabic) == NoChunk && tie == NoTie && isRest
    ensures r in {SlurChunk, SlurBeyondEndChunk} <==>
      SyllabicChunkKind(syllabic) == NoChunk && tie == NoTie && !isRest &&
      ((slurHasLyrics && text == "") || onGoingSlur)
    ensures r == SlurBeyondEndChunk ==> firstInSlur == EndChunk
    ensures r == SlurChunk ==> firstInSlur != EndChunk
    ensures r == NoChunk <==>
      SyllabicChunkKind(syllabic) == NoChunk && tie == NoTie && !isRest &&
      !(slurHasLyrics && text == "") && !onGoingSlur
  {
    var k := SyllabicChunkKind(syllabic);
    if k != NoChunk then k
    else if tie != NoTie then TiedChunk
    else if isRest then SkipChunk
    else if slurHasLyrics && |text| == 0 then SlurKindFor(firstInSlur)
    else if onGoingSlur then SlurKindFor(firstInSlur)
    else NoChunk
  }

  /**
   * The text of a `<text>` element with its spaces removed: the result has no
   * space left, and every other character keeps its number of occurrences.
   */
  function StripSpaces(s: string): (r: string)
    ensures ' ' !in r
    ensures |r| <= |s|
    ensures forall c :: c != ' ' ==> multiset(r)[c] == multiset(s)[c]
  {
    if |s| == 0 then ""
    else
      assert s == [s[0]] + s[1..];
      if s[0] == ' ' then StripSpaces(s[1..]) else [s[0]] + StripSpaces(s[1..])
  }

  /** A text without spaces is left as it is, so stripping twice is stripping once. */
  lemma {:induction false} StripSpacesKeepsSpaceless(s: string)
    requires ' ' !in s
    ensures StripSpaces(s) == s
  {
    if |s| > 0 {
      assert s[0] in s;
      assert forall c :: c in s[1..] ==> c in s;
      StripSpacesKeepsSpaceless(s[1..]);
    }
  }

  lemma StripSpacesIdempotent(s: string)
    ensures StripSpaces(StripSpaces(s)) == StripSpaces(s)
  {
    StripSpacesKeepsSpaceless(StripSpaces(s));
  }

  /** Stripping works character by character, so it distributes over concatenation. */
  lemma {:induction false} StripSpacesConcat(a: string, b: string)
    ensures StripSpaces(a + b) == StripSpaces(a) + StripSpaces(b)
  {
    if |a| > 0 {
      assert (a + b)[0] == a[0];
      assert (a + b)[1..] == a[1..] + b;
      StripSpacesConcat(a[1..], b);
      if a[0] != ' ' {
        assert [a[0]] + (StripSpaces(a[1..]) + StripSpaces(b))
            == ([a[0]] + StripSpaces(a[1..])) + StripSpaces(b);
      }
    } else {
      assert a + b == b;
    }
  }

  /**
   * The lyric text after a `<text>` element: after an elision the stripped
   * fragment is appended to the text so far, separated by a space; otherwise it
   * replaces it.
   */
  function NextText(current: string, fragment: string, elision: bool): (r: string)
    ensures !elision ==> r == StripSpaces(fragment) && ' ' !in r
    ensures elision ==> |r| > |current| && r[..|current|] == current && r[|current|] == ' '
    ensures elision ==> r[|current| + 1..] == StripSpaces(fragment)
  {
    if elision then current + " " + StripSpaces(fragment) else StripSpaces(fragment)
  }
}
