/**
 * What the barline handlers do to a voice and to the pending barlines, stated
 * apart from the order of their steps: the elements each category adds to the
 * voice's timeline, the ending each ending end records in the current repeat,
 * and the stack discipline of the pending barlines.
 */
module Repeats {
  import opened Wrappers
  import opened Kinds
  import opened Barlines
  import opened Msr
  import opened Visitor

  /** The timeline of voice `v` in graph `m`, empty when there is no such voice. */
  ghost function TimelineOf(m: Graph, v: Id): seq<Element> {
    if v in m.score.voices then Timeline(m.score.voices[v]) else []
  }

  /** The elements of the chunks of voice `v` before its current one. */
  ghost function Earlier(m: Graph, v: Id): seq<Element>
    requires v in m.score.voices && HasChunk(m.score.voices[v])
  {
    var w := m.score.voices[v];
    Flatten(w.chunks[..|w.chunks| - 1])
  }

  /**
   * The implicit repeat start: the invented barline goes to the front of the
   * current chunk and the current repeat after it, in a chunk of its own; the
   * current repeat is the one there was or, failing one, a new one, without
   * endings, on the chunk the barline now opens.
   */
  lemma ImplicitRepeatTimeline(m: Graph, v: Id, b: Barline)
    requires v in m.score.voices && HasChunk(m.score.voices[v])
    ensures var r := ImplicitRepeatAdded(m, v, b);
      v in r.score.voices && r.currentRepeat.Some? &&
      TimelineOf(r, v) == Earlier(m, v) + [BarlineElement(b)] + CurrentChunk(m.score.voices[v]).elements +
                          [RepeatElement(r.currentRepeat.value)] &&
      (m.currentRepeat.Some? ==> r.currentRepeat == m.currentRepeat && r.score.repeats == m.score.repeats) &&
      (m.currentRepeat.None? ==>
        r.currentRepeat.value in r.score.repeats &&
        r.score.repeats[r.currentRepeat.value] == Repeat(CurrentChunk(m.score.voices[v]).id, v, []))
  {
  }

  /** The barline `b` once given category `c`. */
  function Categorised(b: Barline, c: Category): (r: Barline)
    ensures r.category == Some(c) && r.(category := b.category) == b
  {
    b.(category := Some(c))
  }

  /**
   * A repeat start, an ending start and a plain bar add just their barline to
   * the voice; the two starts push it onto the pending barlines and a plain
   * bar leaves them as they are.
   */
  lemma StartsAndBars(m: Graph, v: Id, b: Barline, c: Category, pending: seq<Barline>)
    requires v in m.score.voices && HasChunk(m.score.voices[v]) && Linked(m.currentRepeat, m.score.repeats)
    requires c.RepeatStartCategory? || c.EndingStartCategory? || c.StandaloneBarCategory?
    ensures var r := BarlineDispatched(m, v, b, c, pending);
      r.0 == Proceeding && v in r.1.score.voices &&
      TimelineOf(r.1, v) == TimelineOf(m, v) + [BarlineElement(Categorised(b, c))] &&
      r.2 == if c.StandaloneBarCategory? then pending else pending + [Categorised(b, c)]
  {
  }

  /**
   * A repeat start leaves a current repeat: the one there was or, failing
   * one, a new one, without endings, on the chunk the barline closes.
   */
  lemma RepeatStartRepeat(m: Graph, v: Id, b: Barline, pending: seq<Barline>)
    requires v in m.score.voices && HasChunk(m.score.voices[v]) && Linked(m.currentRepeat, m.score.repeats)
    ensures var r := BarlineDispatched(m, v, b, RepeatStartCategory, pending).1;
      r.currentRepeat.Some? && r.currentRepeat.value in r.score.repeats &&
      (m.currentRepeat.Some? ==> r.currentRepeat == m.currentRepeat && r.score.repeats == m.score.repeats) &&
      (m.currentRepeat.None? ==> r.score.repeats[r.currentRepeat.value] == Repeat(CurrentChunk(m.score.voices[v]).id, v, []))
  {
  }

  /**
   * A hooked ending end records a hooked ending of the barline's number, on
   * the chunk the barline closes, as the last ending of the current repeat:
   * the one there was or, failing one, a new one.
   */
  lemma HookedEndingRecorded(m: Graph, v: Id, b: Barline, pending: seq<Barline>)
    requires v in m.score.voices && HasChunk(m.score.voices[v]) && Linked(m.currentRepeat, m.score.repeats)
    ensures var r := BarlineDispatched(m, v, b, HookedEndingEndCategory, pending);
      r.0 == Proceeding && r.1.currentRepeat.Some? && r.1.currentRepeat.value in r.1.score.repeats &&
      (m.currentRepeat.Some? ==> r.1.currentRepeat == m.currentRepeat) &&
      var endings := r.1.score.repeats[r.1.currentRepeat.value].endings;
      |endings| > 0 &&
      endings[|endings| - 1] == Repeatending(b.endingNumber, HookedEnding, CurrentChunk(m.score.voices[v]).id)
  {
    var b' := Categorised(b, HookedEndingEndCategory);
    var g := HookedEndingAdded(m, v, b', b.endingNumber);
    HookedEndingAddedFacts(m, v, b', b.endingNumber);
    var e := EndingClosed(g, v, pending, b.endingNumber, b.repeatWinged);
    assert BarlineDispatched(m, v, b, HookedEndingEndCategory, pending) == (Proceeding, e.0, e.1);
    EndingClosedFacts(g, v, pending, b.endingNumber, b.repeatWinged);
  }

  /**
   * A hooked ending end (barline `b`, already categorised) with a barline
   * pending adds just the barline to the voice and pops the innermost pending
   * barline.
   */
  lemma HookedEndingPopped(m: Graph, v: Id, b: Barline, pending: seq<Barline>)
    requires v in m.score.voices && HasChunk(m.score.voices[v]) && Linked(m.currentRepeat, m.score.repeats)
    requires |pending| > 0
    ensures var r := EndingClosed(HookedEndingAdded(m, v, b, b.endingNumber), v, pending, b.endingNumber, b.repeatWinged);
      r.1 == pending[..|pending| - 1] && TimelineOf(r.0, v) == TimelineOf(m, v) + [BarlineElement(b)]
  {
    HookedEndingAddedFacts(m, v, b, b.endingNumber);
  }

  /**
   * A hooked ending end (barline `b`, already categorised) with no barline
   * pending: the implicit repeat start follows the barline in the voice, then
   * the current repeat, and the stack stays empty.
   */
  lemma HookedEndingUnpended(m: Graph, v: Id, b: Barline)
    requires v in m.score.voices && HasChunk(m.score.voices[v]) && Linked(m.currentRepeat, m.score.repeats)
    ensures var r := EndingClosed(HookedEndingAdded(m, v, b, b.endingNumber), v, [], b.endingNumber, b.repeatWinged);
      r.1 == [] && r.0.currentRepeat.Some? &&
      TimelineOf(r.0, v) == TimelineOf(m, v) + [BarlineElement(b), BarlineElement(ImplicitRepeatStart(b.endingNumber, b.repeatWinged)),
                                                RepeatElement(r.0.currentRepeat.value)]
  {
    var g := HookedEndingAdded(m, v, b, b.endingNumber);
    HookedEndingAddedFacts(m, v, b, b.endingNumber);
    EndingClosedFacts(g, v, [], b.endingNumber, b.repeatWinged);
  }

  /**
   * The end of every ending and repeat end handler: with a barline pending
   * it is popped and nothing else changes; with none, the implicit repeat
   * start is added (see ImplicitRepeatTimeline) and the stack stays empty.
   */
  lemma EndingClosedFacts(g: Graph, v: Id, pending: seq<Barline>, number: string, winged: RepeatWinged)
    requires v in g.score.voices && HasChunk(g.score.voices[v])
    ensures var e := EndingClosed(g, v, pending, number, winged);
      (|pending| > 0 ==> e == (g, pending[..|pending| - 1])) &&
      (|pending| == 0 ==>
         e.1 == [] && v in e.0.score.voices && e.0.currentRepeat.Some? &&
         TimelineOf(e.0, v) == Earlier(g, v) + [BarlineElement(ImplicitRepeatStart(number, winged))] +
                               CurrentChunk(g.score.voices[v]).elements + [RepeatElement(e.0.currentRepeat.value)] &&
         (g.currentRepeat.Some? ==> e.0.currentRepeat == g.currentRepeat && e.0.score.repeats == g.score.repeats))
  {
    if |pending| == 0 {
      ImplicitRepeatTimeline(g, v, ImplicitRepeatStart(number, winged));
    }
  }

  /** The hooked ending proper, before the pending barlines are looked at. */
  lemma HookedEndingAddedFacts(m: Graph, v: Id, b: Barline, number: string)
    requires v in m.score.voices && HasChunk(m.score.voices[v]) && Linked(m.currentRepeat, m.score.repeats)
    ensures var g := HookedEndingAdded(m, v, b, number);
      v in g.score.voices && HasChunk(g.score.voices[v]) &&
      CurrentChunk(g.score.voices[v]).elements == [] &&
      Earlier(g, v) == TimelineOf(m, v) + [BarlineElement(b)] &&
      g.currentRepeat.Some? && g.currentRepeat.value in g.score.repeats &&
      (m.currentRepeat.Some? ==> g.currentRepeat == m.currentRepeat) &&
      var endings := g.score.repeats[g.currentRepeat.value].endings;
      |endings| > 0 && endings[|endings| - 1] == Repeatending(number, HookedEnding, CurrentChunk(m.score.voices[v]).id)
  {
    var m1 := AppendedTo(m, v, BarlineElement(b));
    var w := ChunkStarted(m1, v).score.voices[v];
    assert w.chunks[..|w.chunks| - 1] == m1.score.voices[v].chunks;
  }

  /**
   * A repeat end (barline `b`, already categorised) with a barline pending
   * adds just the barline to the voice and pops the innermost pending barline.
   */
  lemma RepeatEndPopped(m: Graph, v: Id, b: Barline, pending: seq<Barline>)
    requires v in m.score.voices && HasChunk(m.score.voices[v])
    requires |pending| > 0
    ensures var r := EndingClosed(AppendedTo(m, v, BarlineElement(b)), v, pending, b.endingNumber, b.repeatWinged);
      r.1 == pending[..|pending| - 1] && TimelineOf(r.0, v) == TimelineOf(m, v) + [BarlineElement(b)] &&
      r.0.currentRepeat == m.currentRepeat && r.0.score.repeats == m.score.repeats
  {
  }

  /**
   * A repeat end (barline `b`, already categorised) with no barline pending:
   * the implicit repeat start goes to the front of the chunk the barline
   * closes, so that the whole chunk is repeated, and the current repeat
   * follows in a chunk of its own. Failing a current repeat, a new one is
   * made on that chunk.
   */
  lemma RepeatEndUnpended(m: Graph, v: Id, b: Barline)
    requires v in m.score.voices && HasChunk(m.score.voices[v])
    ensures var r := EndingClosed(AppendedTo(m, v, BarlineElement(b)), v, [], b.endingNumber, b.repeatWinged);
      var chunk := CurrentChunk(m.score.voices[v]);
      r.1 == [] && r.0.currentRepeat.Some? &&
      TimelineOf(r.0, v) == Earlier(m, v) + [BarlineElement(ImplicitRepeatStart(b.endingNumber, b.repeatWinged))] +
                            chunk.elements + [BarlineElement(b), RepeatElement(r.0.currentRepeat.value)] &&
      (m.currentRepeat.Some? ==> r.0.currentRepeat == m.currentRepeat && r.0.score.repeats == m.score.repeats) &&
      (m.currentRepeat.None? ==>
         r.0.currentRepeat.value in r.0.score.repeats && r.0.score.repeats[r.0.currentRepeat.value] == Repeat(chunk.id, v, []))
  {
    var g := AppendedTo(m, v, BarlineElement(b));
    var w := g.score.voices[v];
    assert w.chunks[..|w.chunks| - 1] == m.score.voices[v].chunks[..|m.score.voices[v].chunks| - 1];
    ImplicitRepeatTimeline(g, v, ImplicitRepeatStart(b.endingNumber, b.repeatWinged));
  }

  /** The hookless ending proper, before the pending barlines are looked at. */
  lemma HooklessEndingAddedFacts(m: Graph, v: Id, b: Barline, number: string)
    requires v in m.score.voices && HasChunk(m.score.voices[v])
    requires m.currentRepeat.Some? && m.currentRepeat.value in m.score.repeats
    ensures var g := HooklessEndingAdded(m, v, b, number);
      v in g.score.voices && HasChunk(g.score.voices[v]) &&
      CurrentChunk(g.score.voices[v]).elements == [RepeatElement(m.currentRepeat.value)] &&
      Earlier(g, v) == TimelineOf(m, v) + [BarlineElement(b)] &&
      g.currentRepeat == m.currentRepeat && g.currentRepeat.value in g.score.repeats &&
      g.score.repeats[g.currentRepeat.value].endings ==
        m.score.repeats[m.currentRepeat.value].endings + [Repeatending(number, HooklessEnding, CurrentChunk(m.score.voices[v]).id)]
  {
    var m1 := AppendedTo(m, v, BarlineElement(b));
    var m2 := ChunkStarted(EndingAdded(m1, number, HooklessEnding, CurrentChunk(m1.score.voices[v]).id), v);
    var w := m2.score.voices[v];
    assert w.chunks[..|w.chunks| - 1] == m1.score.voices[v].chunks;
    var w3 := Append(w, RepeatElement(m.currentRepeat.value));
    assert w3.chunks[..|w3.chunks| - 1] == m1.score.voices[v].chunks;
  }

  /**
   * A hookless ending end (barline `b`, already categorised) with a current
   * repeat and a barline pending: the repeat receives a hookless ending on
   * the chunk the barline closes, the voice gains the barline and the
   * current repeat, and the innermost pending barline is popped.
   */
  lemma HooklessEndingPopped(m: Graph, v: Id, b: Barline, pending: seq<Barline>)
    requires v in m.score.voices && HasChunk(m.score.voices[v])
    requires m.currentRepeat.Some? && m.currentRepeat.value in m.score.repeats
    requires |pending| > 0
    ensures var r := EndingClosed(HooklessEndingAdded(m, v, b, b.endingNumber), v, pending, b.endingNumber, b.repeatWinged);
      var rep := m.currentRepeat.value;
      r.1 == pending[..|pending| - 1] &&
      TimelineOf(r.0, v) == TimelineOf(m, v) + [BarlineElement(b), RepeatElement(rep)] &&
      r.0.currentRepeat == m.currentRepeat && rep in r.0.score.repeats &&
      r.0.score.repeats[rep].endings ==
        m.score.repeats[rep].endings + [Repeatending(b.endingNumber, HooklessEnding, CurrentChunk(m.score.voices[v]).id)]
  {
    var g := HooklessEndingAdded(m, v, b, b.endingNumber);
    HooklessEndingAddedFacts(m, v, b, b.endingNumber);
    var w := g.score.voices[v];
    assert w.chunks == w.chunks[..|w.chunks| - 1] + [CurrentChunk(w)];
  }

  /**
   * A hookless ending end (barline `b`, already categorised) with a current
   * repeat and no barline pending: after the barline, the implicit repeat
   * start is put in front of the current repeat just appended, and the
   * current repeat is appended once more, so the voice holds it twice.
   */
  lemma HooklessEndingUnpended(m: Graph, v: Id, b: Barline)
    requires v in m.score.voices && HasChunk(m.score.voices[v])
    requires m.currentRepeat.Some? && m.currentRepeat.value in m.score.repeats
    ensures var r := EndingClosed(HooklessEndingAdded(m, v, b, b.endingNumber), v, [], b.endingNumber, b.repeatWinged);
      var rep := m.currentRepeat.value;
      r.1 == [] && r.0.currentRepeat == m.currentRepeat &&
      TimelineOf(r.0, v) == TimelineOf(m, v) + [BarlineElement(b), BarlineElement(ImplicitRepeatStart(b.endingNumber, b.repeatWinged)),
                                                RepeatElement(rep), RepeatElement(rep)]
  {
    var g := HooklessEndingAdded(m, v, b, b.endingNumber);
    var i := ImplicitRepeatStart(b.endingNumber, b.repeatWinged);
    HooklessEndingAddedFacts(m, v, b, b.endingNumber);
    ImplicitRepeatTimeline(g, v, i);
    var r := ImplicitRepeatAdded(g, v, i);
    var rep := m.currentRepeat.value;
    assert r.currentRepeat.value == rep;
    assert TimelineOf(r, v) == (TimelineOf(m, v) + [BarlineElement(b)]) + [BarlineElement(i)] + [RepeatElement(rep)] + [RepeatElement(rep)];
  }

  // ---------------------------------------------------------------------------
  // The pending barlines

  /** Only repeat starts and ending starts are ever pending. */
  ghost predicate OnlyStartsPending(pending: seq<Barline>) {
    forall i :: 0 <= i < |pending| ==>
      pending[i].category == Some(RepeatStartCategory) || pending[i].category == Some(EndingStartCategory)
  }

  /** Whether category `c` ends an ending or a repeat. */
  predicate IsEnd(c: Category) {
    c.HookedEndingEndCategory? || c.RepeatEndCategory? || c.HooklessEndingEndCategory?
  }

  /**
   * The pending barlines work as a stack of starts: a start pushes exactly
   * one, an end handled to completion pops exactly one when there is one, and
   * a plain bar, or an end that cannot proceed, leaves them alone.
   */
  lemma PendingStack(m: Graph, v: Id, b: Barline, c: Category, pending: seq<Barline>)
    requires v in m.score.voices && HasChunk(m.score.voices[v]) && Linked(m.currentRepeat, m.score.repeats)
    ensures var r := BarlineDispatched(m, v, b, c, pending);
      (c.RepeatStartCategory? || c.EndingStartCategory? ==> r.2 == pending + [Categorised(b, c)]) &&
      (c.StandaloneBarCategory? || r.0.Aborted? ==> r.2 == pending) &&
      (IsEnd(c) && r.0 == Proceeding ==> r.2 == if |pending| == 0 then [] else pending[..|pending| - 1])
  {
  }

  /** Nothing but repeat starts and ending starts is ever pushed onto the pending barlines. */
  lemma OnlyStartsStayPending(m: Graph, v: Id, b: Barline, c: Category, pending: seq<Barline>)
    requires v in m.score.voices && HasChunk(m.score.voices[v]) && Linked(m.currentRepeat, m.score.repeats)
    requires OnlyStartsPending(pending)
    ensures OnlyStartsPending(BarlineDispatched(m, v, b, c, pending).2)
  {
    PendingStack(m, v, b, c, pending);
    StackStepKeepsStarts(pending, BarlineDispatched(m, v, b, c, pending).2, Categorised(b, c));
  }

  /** A push of a start, a pop or no change keeps only starts pending. */
  lemma StackStepKeepsStarts(pending: seq<Barline>, pending': seq<Barline>, pushed: Barline)
    requires OnlyStartsPending(pending)
    requires pending' == pending || pending' == [] || (|pending| > 0 && pending' == pending[..|pending| - 1]) ||
             (pending' == pending + [pushed] &&
              (pushed.category == Some(RepeatStartCategory) || pushed.category == Some(EndingStartCategory)))
    ensures OnlyStartsPending(pending')
  {
  }

  /**
   * A start followed, in the same voice, by an end handled to completion
   * leaves the pending barlines as they were before the start.
   */
  lemma {:induction false} StartThenEndRestoresPending(m: Graph, v: Id, b1: Barline, c1: Category, b2: Barline,
                                                       c2: Category, pending: seq<Barline>)
    requires v in m.score.voices && HasChunk(m.score.voices[v]) && Linked(m.currentRepeat, m.score.repeats)
    requires c1.RepeatStartCategory? || c1.EndingStartCategory?
    requires IsEnd(c2)
    ensures var r1 := BarlineDispatched(m, v, b1, c1, pending);
      v in r1.1.score.voices && HasChunk(r1.1.score.voices[v]) && Linked(r1.1.currentRepeat, r1.1.score.repeats) &&
      var r2 := BarlineDispatched(r1.1, v, b2, c2, r1.2);
      r2.0 == Proceeding ==> r2.2 == pending
  {
    var r1 := BarlineDispatched(m, v, b1, c1, pending);
    StartsAndBars(m, v, b1, c1, pending);
    if c1.RepeatStartCategory? {
      RepeatStartRepeat(m, v, b1, pending);
    }
    assert r1.2 == pending + [Categorised(b1, c1)];
    assert r1.2[..|r1.2| - 1] == pending;
  }

  /**
   * A barline no category applies to (no repeat, no ending, no bar style) is
   * not recorded anywhere: the pending barlines stay as they are and every
   * voice there was keeps its chunks, though the voice looked up is created
   * if absent.
   */
  lemma UnhandledBarlineNotRecorded(m: Graph, staffNumber: int, voiceNumber: int, b: Barline, pending: seq<Barline>)
    requires Consistent(m) && m.currentPart.Some?
    requires Classify(b.location, b.style, b.endingType, b.repeatDirection).None?
    ensures var r := BarlineEndOutcome(m, staffNumber, voiceNumber, b,
                                       Classify(b.location, b.style, b.endingType, b.repeatDirection), pending);
      r.0 == Proceeding && r.2 == pending &&
      forall w :: w in m.score.voices ==> w in r.1.score.voices && r.1.score.voices[w] == m.score.voices[w]
  {
    assert KeysBelow(m.score.voices, m.nextId);
    assert m.nextId + 1 !in m.score.voices;
  }
}
