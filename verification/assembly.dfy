/**
 * The value-level steps of note assembly that the visitor performs with
 * loops: draining a queue onto a note, copying a note's decorations onto a
 * chord, warning once per decoration found pending on a rest, closing every
 * open tuplet into the one beneath it, and pointing lyric chunks at their note.
 */
module Assembly {
  import opened Wrappers
  import opened Kinds
  import opened Msr

  // ---------------------------------------------------------------------------
  // Pending decorations

  /** The warning issued for each pending decoration found on a rest. */
  function RestWarning(p: Pending): Diagnostic {
    Diagnostic(Warning, AttachedToRest(p))
  }

  /**
   * The note after the pending dynamics, words, slurs and wedges have been
   * attached to it: a rest keeps its decorations and the queues stay as they
   * are; any other note receives every queue, in order, after what it has.
   */
  function WithPending(n: Note, dynamics: seq<DynamicsKind>, words: seq<Words>, slurs: seq<Slur>,
                       wedges: seq<Wedge>, isRest: bool): (r: Note)
    ensures isRest ==> r == n
    ensures !isRest ==> r.dynamics == n.dynamics + dynamics && r.words == n.words + words
    ensures !isRest ==> r.slurs == n.slurs + slurs && r.wedges == n.wedges + wedges
    ensures r.(dynamics := n.dynamics, words := n.words, slurs := n.slurs, wedges := n.wedges) == n
  {
    if isRest then n
    else n.(dynamics := n.dynamics + dynamics, words := n.words + words,
            slurs := n.slurs + slurs, wedges := n.wedges + wedges)
  }

  /**
   * The warnings attaching to a rest produces, unless rests' dynamics are to be
   * delayed: one for the dynamics queue as a whole, one per pending word, slur
   * and wedge.
   */
  function RestWarnings(dynamics: seq<DynamicsKind>, words: seq<Words>, slurs: seq<Slur>,
                        wedges: seq<Wedge>, isRest: bool, delay: bool): (r: seq<Diagnostic>)
    ensures !isRest || delay ==> r == []
    ensures isRest && !delay ==>
      |r| == (if |dynamics| > 0 then 1 else 0) + |words| + |slurs| + |wedges|
    ensures forall d :: d in r ==> d.severity == Warning && d.issue.AttachedToRest?
  {
    if !isRest || delay then []
    else
      (if |dynamics| > 0 then [RestWarning(PendingDynamics)] else []) +
      seq(|words|, _ => RestWarning(PendingWords)) +
      seq(|slurs|, _ => RestWarning(PendingSlur)) +
      seq(|wedges|, _ => RestWarning(PendingWedge))
  }

  /**
   * A decoration left pending on a rest is not lost: attaching the queues to
   * a rest and then to a note gives that note everything, in the order it was
   * queued, whatever was queued in between.
   */
  lemma PendingSurvivesRest(rest: Note, n: Note, dynamics: seq<DynamicsKind>, words: seq<Words>,
                            slurs: seq<Slur>, wedges: seq<Wedge>,
                            moreDynamics: seq<DynamicsKind>, moreWords: seq<Words>,
                            moreSlurs: seq<Slur>, moreWedges: seq<Wedge>)
    ensures WithPending(rest, dynamics, words, slurs, wedges, true) == rest
    ensures var r := WithPending(n, dynamics + moreDynamics, words + moreWords, slurs + moreSlurs,
                                 wedges + moreWedges, false);
      r.dynamics[..|n.dynamics| + |dynamics|] == n.dynamics + dynamics &&
      r.words[..|n.words| + |words|] == n.words + words &&
      r.slurs[..|n.slurs| + |slurs|] == n.slurs + slurs &&
      r.wedges[..|n.wedges| + |wedges|] == n.wedges + wedges
  {
    var r := WithPending(n, dynamics + moreDynamics, words + moreWords, slurs + moreSlurs,
                         wedges + moreWedges, false);
    assert r.dynamics == (n.dynamics + dynamics) + moreDynamics;
    assert r.words == (n.words + words) + moreWords;
    assert r.slurs == (n.slurs + slurs) + moreSlurs;
    assert r.wedges == (n.wedges + wedges) + moreWedges;
  }

  /** The while/pop_front loop: the items, taken from the front, appended in turn to `acc`. */
  method AppendAll<T>(acc: seq<T>, items: seq<T>) returns (r: seq<T>)
    ensures r == acc + items
  {
    r := acc;
    var rest := items;
    while |rest| > 0
      invariant r + rest == acc + items
    {
      assert rest == [rest[0]] + rest[1..];
      r := r + [rest[0]];
      rest := rest[1..];
    }
  }

  /** The loop over a pending list on a rest: one warning per item. */
  method WarnEach(count: nat, p: Pending) returns (ds: seq<Diagnostic>)
    ensures ds == seq(count, _ => RestWarning(p))
  {
    ds := [];
    var i := 0;
    while i < count
      invariant 0 <= i <= count
      invariant ds == seq(i, _ => RestWarning(p))
    {
      ds := ds + [RestWarning(p)];
      i := i + 1;
    }
  }

  // ---------------------------------------------------------------------------
  // Chords

  /** `copyNoteElementsToChord`: one loop per kind of decoration, each appending the note's to the chord's. */
  method CopyNoteElements(n: Note, c: Chord) returns (r: Chord)
    ensures r == CopyNoteElementsToChord(c, n)
  {
    var articulations := AppendAll(c.articulations, n.articulations);
    var ornaments := AppendAll(c.ornaments, n.ornaments);
    var dynamics := AppendAll(c.dynamics, n.dynamics);
    var words := AppendAll(c.words, n.words);
    var slurs := AppendAll(c.slurs, n.slurs);
    var wedges := AppendAll(c.wedges, n.wedges);
    r := c.(articulations := articulations, ornaments := ornaments, dynamics := dynamics,
            words := words, slurs := slurs, wedges := wedges);
  }

  /**
   * `createChordFromItsFirstNote`: a chord with the note's duration, divisions
   * per whole note and tie, the note as its member and copies of its decorations.
   */
  method CreateChord(first: Note) returns (c: Chord)
    ensures c == ChordFromFirstNote(first)
  {
    var empty := Chord(first.data.divisions, first.divisionsPerWholeNote, first.tie, [], [], [], [], [], [], []);
    c := CopyNoteElements(first, AddNoteToChord(empty, first));
  }

  // ---------------------------------------------------------------------------
  // Tuplets

  /**
   * The flushing loop over the tuplet stack (innermost last): each popped
   * tuplet is added to the one beneath it; what is left at the bottom is the
   * tuplet that goes to the voice, None when the stack was empty.
   */
  method NestAll(stack: seq<Tuplet>) returns (top: Option<Tuplet>)
    ensures top.None? <==> |stack| == 0
    ensures |stack| > 0 ==> top == Some(NestChain(stack))
  {
    if |stack| == 0 {
      return None;
    }
    var s := stack;
    while |s| > 1
      invariant 0 < |s| <= |stack|
      invariant NestChain(s) == NestChain(stack)
      decreases |s|
    {
      s := PopIntoNext(s);
    }
    top := Some(s[0]);
  }

  /**
   * A stop followed by the flush nests exactly as the flush alone would with
   * the stopping note added to the innermost tuplet: the tuplet that reaches
   * the voice is the same either way.
   */
  lemma StopThenFlush(stack: seq<Tuplet>, m: TupletMember)
    requires |stack| > 0
    ensures var r := CloseTop(stack, m);
      (|stack| == 1 ==> r.1 == Some(NestChain(AddToTop(stack, m)))) &&
      (|stack| > 1 ==> NestChain(r.0) == NestChain(AddToTop(stack, m)))
  {
    var s := AddToTop(stack, m);
    if |stack| > 1 {
      var below := stack[..|stack| - 1];
      assert s[..|s| - 2] == below[..|below| - 1];
      assert s[|s| - 2] == below[|below| - 1];
      var p := PopIntoNext(s);
      assert p == CloseTop(stack, m).0;
    }
  }

  // ---------------------------------------------------------------------------
  // Lyrics

  /**
   * `handleLyrics`: every listed lyric chunk gets the note as its note; no
   * other chunk changes.
   */
  method LinkLyricschunks(chunks: map<Id, Lyricschunk>, ids: seq<Id>, note: Id) returns (r: map<Id, Lyricschunk>)
    requires forall k :: k in ids ==> k in chunks
    ensures r.Keys == chunks.Keys
    ensures forall k :: k in chunks && k in ids ==> r[k] == chunks[k].(note := Some(note))
    ensures forall k :: k in chunks && k !in ids ==> r[k] == chunks[k]
  {
    r := chunks;
    var i := 0;
    while i < |ids|
      invariant 0 <= i <= |ids|
      invariant r.Keys == chunks.Keys
      invariant forall k :: k in chunks && k in ids[..i] ==> r[k] == chunks[k].(note := Some(note))
      invariant forall k :: k in chunks && k !in ids[..i] ==> r[k] == chunks[k]
    {
      var k := ids[i];
      assert k in ids;
      r := r[k := r[k].(note := Some(note))];
      assert ids[..i + 1] == ids[..i] + [k];
      i := i + 1;
    }
    assert ids[..i] == ids;
  }
}
