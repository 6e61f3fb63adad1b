/**
 * The MusicXML to MSR visitor: a single pass over the MusicXML tree in which
 * each element start or end updates the visitor's "current" fields and, at
 * the right moments, commits MSR objects into the score: part groups, parts,
 * staves, voices and their chunks, notes, chords, tuplets, grace notes,
 * barlines, repeats and lyric chunks.
 *
 * One method stands for each callback of the visitor and for each of its
 * handlers. A MusicXML error or warning is appended to `diagnostics` and
 * processing goes on; an internal error (and a use of a missing object the
 * visitor dereferences) ends the method with an `Aborted` status.
 */
module Visitor {
  import opened Wrappers
  import opened Kinds
  import opened Barlines
  import opened Lyrics
  import opened Msr
  import opened Assembly

  datatype InternalError =
    | PartgroupNotInMap(partgroupNumber: int)
    | PartgroupNotInList(partgroupNumber: int)
    | PartgroupInsideItself(partgroupNumber: int)
    | PartNotRegistered(partID: string)
    | NoCurrentPart
    | NonPositiveStaffNumber(staffNumber: int)
    | NoLastHandledNote
    | LastElementNotLastNote
    | EmptyTupletStack
    | NoCurrentRepeat

  datatype Status = Proceeding | Aborted(reason: InternalError)

  /** The diagnostics a conversion adds to the log: its report, if any. */
  function Reported(d: Option<Diagnostic>): (r: seq<Diagnostic>)
    ensures d.None? ==> r == []
    ensures d.Some? ==> r == [d.value]
  {
    if d.Some? then [d.value] else []
  }

  /** `INT_MIN` of 32-bit C++ `int`, the "no default-x" value of a part-group symbol. */
  const IntMin: int := -0x8000_0000

  /**
   * The scan the visitor makes of the open part groups to place a new one: the
   * first group whose default-x is strictly greater than `x`.
   */
  method FindInsertPosition(list: seq<Id>, groups: map<Id, Partgroup>, x: int) returns (i: nat)
    requires forall g :: g in list ==> g in groups
    ensures i == InsertPosition(DefaultXs(list, groups), x)
  {
    ghost var xs := DefaultXs(list, groups);
    i := 0;
    while i < |list| && !(x < groups[list[i]].symbolDefaultX)
      invariant 0 <= i <= |list|
      invariant forall k :: 0 <= k < i ==> xs[k] <= x
    {
      i := i + 1;
    }
    assert i < |list| ==> x < xs[i];
  }

  /** The scan the visitor makes of the open part groups to find the one to stop. */
  method FindPartgroup(list: seq<Id>, g: Id) returns (r: Option<nat>)
    ensures r == FirstIndexOf(list, g)
  {
    var i := 0;
    while i < |list| && list[i] != g
      invariant 0 <= i <= |list|
      invariant g !in list[..i]
    {
      assert list[..i + 1] == list[..i] + [list[i]];
      i := i + 1;
    }
    if i == |list| {
      assert list[..i] == list;
      return None;
    }
    r := Some(i);
  }

  /**
   * The MSR objects built so far, and the visitor's handles on them: the open
   * part groups (front first), the part groups by number, the implicit part
   * group, the parts by ID, the current part, the current chord and whether a
   * chord is going on, the current grace notes group, the current repeat and
   * the lyric chunks of the note being visited. They are one value so that the
   * invariant tying the handles to the objects is a predicate on that value.
   */
  datatype Graph = Graph(
    score: Score,
    nextId: Id,
    partgroupsList: seq<Id>,
    partgroupsMap: map<int, Id>,
    implicitPartgroup: Option<Id>,
    partsMap: map<string, Id>,
    currentPart: Option<Id>,
    currentChord: Option<Id>,
    onGoingChord: bool,
    currentGracenotes: Option<Id>,
    currentRepeat: Option<Id>,
    currentNoteLyricchunks: seq<Id>)

  const EmptyGraph := Graph(EmptyScore, 0, [], map[], None, map[], None, None, false, None, None, [])

  ghost predicate Linked<T>(ref: Option<Id>, arena: map<Id, T>) {
    ref.Some? ==> ref.value in arena
  }

  ghost predicate AllLinked<T>(refs: seq<Id>, arena: map<Id, T>) {
    forall k :: k in refs ==> k in arena
  }

  /** The open part groups, the groups by number and the implicit group all exist. */
  ghost predicate GroupsLinked(m: Graph) {
    AllLinked(m.partgroupsList, m.score.groups) &&
    (forall n :: n in m.partgroupsMap ==> m.partgroupsMap[n] in m.score.groups) &&
    Linked(m.implicitPartgroup, m.score.groups)
  }

  /** The registered parts and the current part all exist. */
  ghost predicate PartsLinked(m: Graph) {
    (forall id :: id in m.partsMap ==> m.partsMap[id] in m.score.parts) &&
    Linked(m.currentPart, m.score.parts)
  }

  /** The current chord, grace notes group, repeat and lyric chunks exist; a chord going on has one. */
  ghost predicate NotesLinked(m: Graph) {
    (m.onGoingChord ==> m.currentChord.Some?) &&
    Linked(m.currentChord, m.score.chords) && Linked(m.currentGracenotes, m.score.gracenotes) &&
    Linked(m.currentRepeat, m.score.repeats) &&
    AllLinked(m.currentNoteLyricchunks, m.score.lyricschunks)
  }

  /** Every object the visitor refers to exists, and the score is well formed. */
  ghost predicate Consistent(m: Graph) {
    WellFormed(m.score, m.nextId) && GroupsLinked(m) && PartsLinked(m) && NotesLinked(m)
  }

  /** The loop of `<staves>`: staves 2 to n added one at a time, staff k with id `id + k - 2`. */
  method CreateStaves(base: Part, n: int, id: Id) returns (part: Part)
    ensures part == AddStaves(base, n, id)
  {
    part := base;
    if n < 2 {
      return;
    }
    var k := 2;
    while k <= n
      invariant 2 <= k <= n + 1
      invariant part == AddStaves(base, k - 1, id)
    {
      part := AddStaff(part, k, id + k - 2);
      k := k + 1;
    }
  }

  /**
   * The graph `m'` and status after stopping group `g`, numbered `n`, found at
   * index `i` of the list of started groups of `m`.
   */
  ghost predicate StoppedPartgroup(m: Graph, m': Graph, status: Status, n: int, g: Id, i: nat)
    requires i < |m.partgroupsList| && AllLinked(m.partgroupsList, m.score.groups)
  {
    var list := m.partgroupsList;
    var groups := m.score.groups;
    var rest := list[..i] + list[i + 1..];
    m'.partgroupsList == rest &&
    (|rest| == 0 ==>
      status == Proceeding && m'.partgroupsMap == m.partgroupsMap - {n} &&
      m'.score == m.score.(partgroups := m.score.partgroups + [g])) &&
    (|rest| > 0 ==>
      var f := rest[0];
      RemovedMembers(list, i);
      assert f in rest;
      (groups[f].number == n ==> status == Aborted(PartgroupInsideItself(n))) &&
      (groups[f].number != n ==>
        status == Proceeding && m'.partgroupsMap == m.partgroupsMap - {n} &&
        m'.score == m.score.(groups := groups[f := groups[f].(elements := [SubPartgroup(g)] + groups[f].elements)])))
  }

  /**
   * The graph after the voice of those numbers in the current part is looked
   * up, created if absent, and that voice's id: three ids are used either way.
   */
  ghost function Lookup(m: Graph, staffNumber: int, voiceNumber: int): (r: (Graph, Id))
    requires Consistent(m) && m.currentPart.Some?
    ensures r.1 in r.0.score.voices && HasChunk(r.0.score.voices[r.1])
    ensures r.0 == m.(nextId := m.nextId + 3, score := r.0.score)
  {
    var r := EnsureVoice(m.score, m.currentPart.value, staffNumber, voiceNumber, m.nextId);
    (m.(nextId := m.nextId + 3, score := r.0), r.1)
  }

  /** Looking a voice up keeps the graph consistent. */
  lemma LookupConsistent(m: Graph, staffNumber: int, voiceNumber: int)
    requires Consistent(m) && m.currentPart.Some?
    ensures Consistent(Lookup(m, staffNumber, voiceNumber).0)
  {
    var r := EnsureVoice(m.score, m.currentPart.value, staffNumber, voiceNumber, m.nextId);
    EnsureVoiceWellFormed(m.score, m.currentPart.value, staffNumber, voiceNumber, m.nextId);
    assert r.0.(parts := m.score.parts, voices := m.score.voices) == m.score;
  }

  /** The graph with `e` appended to the current chunk of voice `v`. */
  ghost function AppendedTo(m: Graph, v: Id, e: Element): (r: Graph)
    requires v in m.score.voices && HasChunk(m.score.voices[v])
    ensures v in r.score.voices && HasChunk(r.score.voices[v])
    ensures Timeline(r.score.voices[v]) == Timeline(m.score.voices[v]) + [e]
  {
    m.(score := m.score.(voices := m.score.voices[v := Append(m.score.voices[v], e)]))
  }

  /**
   * The graph after a chord is started in voice `v` from the note `first`: the
   * chord, made from that note, gets a fresh id and becomes the current chord,
   * a chord is going on, and the chord replaces the last element of the voice.
   */
  ghost function ChordStarted(m: Graph, v: Id, first: Note): (r: Graph)
    requires v in m.score.voices && HasChunk(m.score.voices[v])
    ensures r.currentChord == Some(m.nextId) && m.nextId in r.score.chords
  {
    var c := m.nextId;
    var s := m.score.(chords := m.score.chords[c := ChordFromFirstNote(first)]);
    var voice := Append(RemoveLast(s.voices[v]).1, ChordElement(c));
    m.(nextId := c + 1, currentChord := Some(c), onGoingChord := true,
       score := s.(voices := s.voices[v := voice]))
  }

  /** The graph after note `n` joins the current chord, which receives copies of its decorations. */
  ghost function ChordJoined(m: Graph, n: Note): (r: Graph)
    requires m.currentChord.Some? && m.currentChord.value in m.score.chords
  {
    var c := m.currentChord.value;
    m.(score := m.score.(chords := m.score.chords[c := CopyNoteElementsToChord(AddNoteToChord(m.score.chords[c], n), n)]))
  }

  /**
   * The outcome of starting a chord in the voice of staff `staffNumber` and
   * voice `voiceNumber` when the last notes handled per voice are `last`: the
   * voice is looked up (and created if need be); the chord is started from its
   * last handled note, provided there is one and it is the voice's last element.
   */
  ghost function ChordStartedInVoice(m: Graph, staffNumber: int, voiceNumber: int, last: map<Id, Note>): (r: (Status, Graph))
    requires Consistent(m) && m.currentPart.Some?
    ensures r.0 == Proceeding ==> r.1.currentChord.Some? && r.1.currentChord.value in r.1.score.chords
  {
    var (g, w) := Lookup(m, staffNumber, voiceNumber);
    if w !in last then (Aborted(NoLastHandledNote), g)
    else if RemoveLast(g.score.voices[w]).0 != Some(NoteElement(last[w])) then (Aborted(LastElementNotLastNote), g)
    else (Proceeding, ChordStarted(g, w, last[w]))
  }

  /**
   * The graph after a grace notes group, slashed or not, is started in voice
   * `v`: it gets a fresh id, is appended to the voice and becomes current.
   */
  ghost function GracenotesStarted(m: Graph, v: Id, slashed: bool): (r: Graph)
    requires v in m.score.voices && HasChunk(m.score.voices[v])
    ensures r.currentGracenotes == Some(m.nextId) && m.nextId in r.score.gracenotes
  {
    var g := m.nextId;
    AppendedTo(m.(nextId := g + 1, currentGracenotes := Some(g),
                  score := m.score.(gracenotes := m.score.gracenotes[g := Gracenotes(slashed, v, [])])),
               v, GracenotesElement(g))
  }

  /** The graph after grace note `n` is appended to the current grace notes group. */
  ghost function GraceAdded(m: Graph, n: Note): (r: Graph)
    requires m.currentGracenotes.Some? && m.currentGracenotes.value in m.score.gracenotes
  {
    var g := m.currentGracenotes.value;
    var group := m.score.gracenotes[g];
    m.(score := m.score.(gracenotes := m.score.gracenotes[g := group.(notes := group.notes + [n])]))
  }

  /**
   * The kind `</note>` gives a note: chord member, else tuplet member, else
   * grace note, else rest, else standalone note.
   */
  function KindOfNote(d: NoteData): (k: NoteKind)
    ensures k == ChordMemberNote <==> d.belongsToChord
    ensures k == TupletMemberNote <==> !d.belongsToChord && d.belongsToTuplet
    ensures k == GraceNote <==> !d.belongsToChord && !d.belongsToTuplet && d.isGrace
    ensures k == RestNote <==> !d.belongsToChord && !d.belongsToTuplet && !d.isGrace && d.isRest
    ensures k != UnknownNoteKind
  {
    if d.belongsToChord then ChordMemberNote
    else if d.belongsToTuplet then TupletMemberNote
    else if d.isGrace then GraceNote
    else if d.isRest then RestNote
    else StandaloneNote
  }

  /**
   * The last notes handled per voice after a note with that id and data is
   * placed in voice `v`: it is the last one there, of the kind its data
   * gives it, and no other voice's entry changes.
   */
  ghost predicate NoteHandled(before: map<Id, Note>, after: map<Id, Note>, v: Id, id: Id, data: NoteData) {
    v in after && after == before[v := after[v]] &&
    after[v].id == id && after[v].data == data && after[v].kind == KindOfNote(data)
  }

  /** The graph after the voice of staff `staffNumber` and voice `voiceNumber` is looked up and `e` appended to it. */
  ghost function AppendedInVoice(m: Graph, staffNumber: int, voiceNumber: int, e: Element): (r: Graph)
    requires Consistent(m) && m.currentPart.Some?
  {
    var (g, w) := Lookup(m, staffNumber, voiceNumber);
    AppendedTo(g, w, e)
  }

  // ---------------------------------------------------------------------------
  // Lyric chunks

  /**
   * The lyric chunk a `</lyric>` creates in voice `v`: the four text kinds
   * carry the text and the elision, the other kinds neither; the chunk is not
   * yet bound to a note.
   */
  function LyricschunkOf(kind: ChunkKind, v: Id, number: int, text: string, elision: bool, divisions: int): (l: Lyricschunk)
    ensures l.voice == v && l.lyricsNumber == number && l.kind == kind && l.divisions == divisions && l.note.None?
    ensures IsTextKind(kind) ==> l.text == text && l.elision == elision
    ensures !IsTextKind(kind) ==> l.text == "" && !l.elision
  {
    if IsTextKind(kind) then Lyricschunk(v, number, kind, text, elision, divisions, None)
    else Lyricschunk(v, number, kind, "", false, divisions, None)
  }

  /**
   * The graph after lyric chunk `l` is added under a fresh id: it is listed in
   * voice `v` and among the lyric chunks of the note being visited.
   */
  ghost function LyricschunkAdded(m: Graph, v: Id, l: Lyricschunk): (r: Graph)
    requires v in m.score.voices
    ensures m.nextId in r.score.lyricschunks && r.score.lyricschunks[m.nextId] == l
    ensures r.currentNoteLyricchunks == m.currentNoteLyricchunks + [m.nextId]
  {
    var id := m.nextId;
    var voice := m.score.voices[v];
    m.(nextId := id + 1, currentNoteLyricchunks := m.currentNoteLyricchunks + [id],
       score := m.score.(lyricschunks := m.score.lyricschunks[id := l],
                         voices := m.score.voices[v := voice.(lyricschunks := voice.lyricschunks + [id])]))
  }

  /**
   * The outcome of a `</lyric>` whose chunk kind is `kind`: the voice is
   * looked up, and a chunk of that kind is added unless the kind is none.
   */
  ghost function LyricEndOutcome(m: Graph, staffNumber: int, voiceNumber: int, kind: ChunkKind,
                                 number: int, text: string, elision: bool, divisions: int): (r: Graph)
    requires Consistent(m) && m.currentPart.Some?
  {
    var (g, w) := Lookup(m, staffNumber, voiceNumber);
    if kind == NoChunk then g else LyricschunkAdded(g, w, LyricschunkOf(kind, w, number, text, elision, divisions))
  }

  // ---------------------------------------------------------------------------
  // Note placement at `</note>`

  /** Appending to a voice that holds a chunk keeps the graph consistent. */
  lemma AppendedToConsistent(m: Graph, v: Id, e: Element)
    requires Consistent(m) && v in m.score.voices && HasChunk(m.score.voices[v])
    ensures Consistent(AppendedTo(m, v, e))
  {
    assert AppendedTo(m, v, e).score == SetVoice(m.score, v, Append(m.score.voices[v], e));
  }

  /**
   * The graph after note `n` is created in voice `w` of the voice looked up
   * from those numbers, that voice taking `dpw` divisions per whole note: the
   * note takes the next id.
   */
  ghost function NoteCreated(m: Graph, staffNumber: int, voiceNumber: int, dpw: int): (r: (Graph, Id))
    requires Consistent(m) && m.currentPart.Some?
    ensures r.1 == Lookup(m, staffNumber, voiceNumber).1 && r.1 in r.0.score.voices
    ensures r.0.nextId == m.nextId + 4 && r.0.currentPart == m.currentPart && Consistent(r.0)
  {
    var l := Lookup(m, staffNumber, voiceNumber);
    var g := l.0;
    LookupConsistent(m, staffNumber, voiceNumber);
    WellFormedMonotonic(g.score, g.nextId, g.nextId + 1);
    (g.(nextId := g.nextId + 1,
        score := g.score.(voices := g.score.voices[l.1 := g.score.voices[l.1].(divisionsPerWholeNote := dpw)])), l.1)
  }

  /** The graph after the lyric chunks met in the note being visited are bound to note `note`; their list is emptied. */
  ghost function LyricsBound(m: Graph, note: Id): (r: Graph)
    ensures r.score.voices == m.score.voices && r.score.gracenotes == m.score.gracenotes
    ensures r.score.chords == m.score.chords && r.currentChord == m.currentChord
    ensures r.score.lyricschunks.Keys == m.score.lyricschunks.Keys && r.currentNoteLyricchunks == []
  {
    var chunks := m.score.lyricschunks;
    m.(currentNoteLyricchunks := [], score := m.score.(lyricschunks :=
      map k | k in chunks :: if k in m.currentNoteLyricchunks then chunks[k].(note := Some(note)) else chunks[k]))
  }

  /** The graph after the open tuplets `stack` are flushed to the voice of those numbers, looked up first. */
  ghost function TupletsFlushed(m: Graph, staffNumber: int, voiceNumber: int, stack: seq<Tuplet>): (r: Graph)
    requires Consistent(m) && m.currentPart.Some?
  {
    var l := Lookup(m, staffNumber, voiceNumber);
    if |stack| == 0 then l.0 else AppendedTo(l.0, l.1, TupletElement(NestChain(stack)))
  }

  /**
   * The graph after note `n`, outside chords and tuplets, is placed in voice
   * `v`: a grace note joins the current grace notes group, which is started
   * if there is none; any other note ends the group and is appended to the voice.
   */
  ghost function NonChordPlaced(m: Graph, v: Id, n: Note, isGrace: bool, slashed: bool): (r: Graph)
    requires v in m.score.voices && HasChunk(m.score.voices[v]) && Linked(m.currentGracenotes, m.score.gracenotes)
  {
    if !isGrace then AppendedTo(m.(currentGracenotes := None), v, NoteElement(n))
    else if m.currentGracenotes.Some? then GraceAdded(m, n)
    else GraceAdded(GracenotesStarted(m, v, slashed), n)
  }

  lemma GracenotesStartedConsistent(m: Graph, v: Id, slashed: bool)
    requires Consistent(m) && v in m.score.voices && HasChunk(m.score.voices[v])
    ensures Consistent(GracenotesStarted(m, v, slashed))
  {
    var g := m.nextId;
    var m1 := m.(nextId := g + 1, currentGracenotes := Some(g),
                 score := m.score.(gracenotes := m.score.gracenotes[g := Gracenotes(slashed, v, [])]));
    FreshGroupConsistent(m, Gracenotes(slashed, v, []));
    AppendedToConsistent(m1, v, GracenotesElement(g));
    assert GracenotesStarted(m, v, slashed) == AppendedTo(m1, v, GracenotesElement(g));
  }

  lemma FreshGroupConsistent(m: Graph, group: Gracenotes)
    requires Consistent(m)
    ensures Consistent(m.(nextId := m.nextId + 1, currentGracenotes := Some(m.nextId),
                          score := m.score.(gracenotes := m.score.gracenotes[m.nextId := group])))
  {
    FreshGracenotesWellFormed(m.score, m.nextId, group);
  }

  lemma GraceAddedConsistent(m: Graph, n: Note)
    requires Consistent(m) && m.currentGracenotes.Some?
    ensures Consistent(GraceAdded(m, n))
  {
    var g := m.currentGracenotes.value;
    var group := m.score.gracenotes[g];
    assert GraceAdded(m, n).score.gracenotes.Keys == m.score.gracenotes.Keys;
  }

  lemma NonChordPlacedConsistent(m: Graph, v: Id, n: Note, isGrace: bool, slashed: bool)
    requires Consistent(m) && v in m.score.voices && HasChunk(m.score.voices[v])
    ensures Consistent(NonChordPlaced(m, v, n, isGrace, slashed))
    ensures NonChordPlaced(m, v, n, isGrace, slashed).currentPart == m.currentPart
  {
    if !isGrace {
      AppendedToConsistent(m.(currentGracenotes := None), v, NoteElement(n));
    } else if m.currentGracenotes.Some? {
      GraceAddedConsistent(m, n);
    } else {
      GracenotesStartedConsistent(m, v, slashed);
      GraceAddedConsistent(GracenotesStarted(m, v, slashed), n);
    }
  }

  /**
   * The kind of the first lyric chunk of the current slur once a note ends:
   * a slur start records the kind of the current chunk, a slur stop forgets
   * it, and any other slur kind leaves it as it was.
   */
  function SlurChunkKind(slur: SlurKind, chunk: ChunkKind, first: ChunkKind): (r: ChunkKind)
  {
    if slur == StartSlur then chunk else if slur == StopSlur then NoChunk else first
  }

  /**
   * The end of `handleStandaloneOrGraceNoteOrRest` for the note known by
   * `note`: the open tuplets are flushed to the voice of those numbers, the
   * lyric chunks met are bound to the note, and no chord is going on.
   */
  ghost function StandaloneEnded(m: Graph, staffNumber: int, voiceNumber: int, stack: seq<Tuplet>, note: Id): (r: Graph)
    requires Consistent(m) && m.currentPart.Some?
  {
    LyricsBound(TupletsFlushed(m, staffNumber, voiceNumber, stack), note).(onGoingChord := false)
  }

  /**
   * The graph after `handleStandaloneOrGraceNoteOrRest`, once the note's voice
   * `v` is known, places note `n` there, then ends as StandaloneEnded says.
   */
  ghost function StandaloneInVoice(m: Graph, v: Id, n: Note, isGrace: bool, slashed: bool,
                                   staffNumber: int, voiceNumber: int, stack: seq<Tuplet>): (r: Graph)
    requires Consistent(m) && m.currentPart.Some? && v in m.score.voices && HasChunk(m.score.voices[v])
  {
    NonChordPlacedConsistent(m, v, n, isGrace, slashed);
    StandaloneEnded(NonChordPlaced(m, v, n, isGrace, slashed), staffNumber, voiceNumber, stack, n.id)
  }

  /** `StandaloneInVoice` is the end of the note applied to the placement. */
  lemma StandaloneInVoiceEnded(m: Graph, v: Id, n: Note, isGrace: bool, slashed: bool,
                               staffNumber: int, voiceNumber: int, stack: seq<Tuplet>)
    requires Consistent(m) && m.currentPart.Some? && v in m.score.voices && HasChunk(m.score.voices[v])
    ensures Consistent(NonChordPlaced(m, v, n, isGrace, slashed))
    ensures NonChordPlaced(m, v, n, isGrace, slashed).currentPart.Some?
    ensures StandaloneInVoice(m, v, n, isGrace, slashed, staffNumber, voiceNumber, stack) ==
            StandaloneEnded(NonChordPlaced(m, v, n, isGrace, slashed), staffNumber, voiceNumber, stack, n.id)
  {
    NonChordPlacedConsistent(m, v, n, isGrace, slashed);
  }

  /**
   * The status and graph after `handleStandaloneOrGraceNoteOrRest` places
   * note `n` in the voice of those numbers, then ends as StandaloneEnded says.
   */
  ghost function StandalonePlaced(m: Graph, n: Note, isGrace: bool, slashed: bool,
                                  staffNumber: int, voiceNumber: int, stack: seq<Tuplet>): (r: (Status, Graph))
    requires Consistent(m)
  {
    if m.currentPart.None? then (Aborted(NoCurrentPart), m)
    else
      var l := Lookup(m, staffNumber, voiceNumber);
      LookupConsistent(m, staffNumber, voiceNumber);
      (Proceeding, StandaloneInVoice(l.0, l.1, n, isGrace, slashed, staffNumber, voiceNumber, stack))
  }

  /**
   * The status and graph after `handleNoteBelongingToAChord` places note `n`:
   * it joins the ongoing chord, or one started in the voice of those numbers
   * from the last note handled there.
   */
  ghost function ChordPlaced(m: Graph, n: Note, staffNumber: int, voiceNumber: int, last: map<Id, Note>): (r: (Status, Graph))
    requires Consistent(m)
  {
    if m.onGoingChord then (Proceeding, ChordJoined(m, n))
    else if m.currentPart.None? then (Aborted(NoCurrentPart), m)
    else
      var r := ChordStartedInVoice(m, staffNumber, voiceNumber, last);
      if r.0 == Proceeding then (Proceeding, ChordJoined(r.1, n)) else r
  }

  /**
   * The status and graph after `handleNoteBelongingToATuplet` places note `n`
   * when the tuplet kind is `kind` and the open tuplets are `stack`: only a
   * stop changes the graph, sending the closed tuplet to the voice of those
   * numbers when it was the outermost.
   */
  ghost function TupletPlaced(m: Graph, n: Note, staffNumber: int, voiceNumber: int,
                              stack: seq<Tuplet>, kind: TupletKind): (r: (Status, Graph))
    requires Consistent(m)
  {
    match kind
    case StartTuplet => (Proceeding, m)
    case ContinueTuplet => (if |stack| == 0 then Aborted(EmptyTupletStack) else Proceeding, m)
    case NoTuplet => (Proceeding, m)
    case StopTuplet =>
      if m.currentPart.None? then (Aborted(NoCurrentPart), m)
      else
        var l := Lookup(m, staffNumber, voiceNumber);
        if |stack| == 0 then (Aborted(EmptyTupletStack), l.0)
        else
          var c := CloseTop(stack, MemberNote(n));
          (Proceeding, if c.1.Some? then AppendedTo(l.0, l.1, TupletElement(c.1.value)) else l.0)
  }

  /**
   * The status and graph once a note outside chords is placed: when a note
   * was going on, the current chord is forgotten and none is going on.
   */
  ghost function ChordForgotten(r: (Status, Graph), forget: bool): (s: (Status, Graph))
  {
    if r.0 == Proceeding && forget then (r.0, r.1.(currentChord := None, onGoingChord := false)) else r
  }

  // ---------------------------------------------------------------------------
  // What placing a note at `</note>` does to the score

  /**
   * Once a voice is looked up, looking it up again in a graph with the same
   * parts finds the same voice and adds nothing.
   */
  lemma LookupAgain(m: Graph, m': Graph, staffNumber: int, voiceNumber: int)
    requires Consistent(m) && m.currentPart.Some?
    requires Consistent(m') && m'.currentPart == m.currentPart
    requires m'.score.parts == Lookup(m, staffNumber, voiceNumber).0.score.parts
    ensures Lookup(m', staffNumber, voiceNumber) == (m'.(nextId := m'.nextId + 3), Lookup(m, staffNumber, voiceNumber).1)
  {
    var p := m.currentPart.value;
    var r := EnsureVoice(m.score, p, staffNumber, voiceNumber, m.nextId);
    assert HasVoice(r.0, p, staffNumber, voiceNumber);
    assert HasVoice(m'.score, p, staffNumber, voiceNumber);
  }

  /**
   * A note outside chords and tuplets that is not a grace note ends up as the
   * last element of its voice, followed only by the tuplets still open, closed
   * into one; no grace notes group is current, no chord is going on, and the
   * lyric chunks met are bound to the note.
   */
  lemma StandaloneNoteAppended(m: Graph, n: Note, slashed: bool, staffNumber: int, voiceNumber: int, stack: seq<Tuplet>)
    requires Consistent(m) && m.currentPart.Some?
    ensures var l := Lookup(m, staffNumber, voiceNumber);
      var r := StandalonePlaced(m, n, false, slashed, staffNumber, voiceNumber, stack);
      r.0 == Proceeding && l.1 in r.1.score.voices &&
      Timeline(r.1.score.voices[l.1]) ==
        Timeline(l.0.score.voices[l.1]) + [NoteElement(n)] + (if |stack| == 0 then [] else [TupletElement(NestChain(stack))]) &&
      r.1.currentGracenotes.None? && !r.1.onGoingChord && r.1.currentNoteLyricchunks == [] &&
      (forall k :: k in m.currentNoteLyricchunks && k in r.1.score.lyricschunks ==> r.1.score.lyricschunks[k].note == Some(n.id))
  {
    var l := Lookup(m, staffNumber, voiceNumber);
    LookupConsistent(m, staffNumber, voiceNumber);
    var placed := NonChordPlaced(l.0, l.1, n, false, slashed);
    NonChordPlacedConsistent(l.0, l.1, n, false, slashed);
    LookupAgain(m, placed, staffNumber, voiceNumber);
    assert Timeline(placed.score.voices[l.1]) == Timeline(l.0.score.voices[l.1]) + [NoteElement(n)];
    var flushed := TupletsFlushed(placed, staffNumber, voiceNumber, stack);
    assert Timeline(flushed.score.voices[l.1]) ==
      Timeline(placed.score.voices[l.1]) + (if |stack| == 0 then [] else [TupletElement(NestChain(stack))]);
  }

  /**
   * The end of a note placed outside chords and tuplets, once the graph
   * `placed` has the note in the voice looked up in `m`: that voice gains only
   * the tuplets still open, closed into one, and the grace notes are kept.
   */
  lemma StandaloneEndedInVoice(m: Graph, placed: Graph, staffNumber: int, voiceNumber: int, stack: seq<Tuplet>, note: Id)
    requires Consistent(m) && m.currentPart.Some?
    requires Consistent(placed) && placed.currentPart == m.currentPart
    requires placed.score.parts == Lookup(m, staffNumber, voiceNumber).0.score.parts
    ensures var w := Lookup(m, staffNumber, voiceNumber).1;
      var r := StandaloneEnded(placed, staffNumber, voiceNumber, stack, note);
      w in placed.score.voices && w in r.score.voices &&
      Timeline(r.score.voices[w]) ==
        Timeline(placed.score.voices[w]) + (if |stack| == 0 then [] else [TupletElement(NestChain(stack))]) &&
      r.currentGracenotes == placed.currentGracenotes && r.score.gracenotes == placed.score.gracenotes
  {
    LookupAgain(m, placed, staffNumber, voiceNumber);
  }

  /**
   * A grace note outside chords and tuplets, when a grace notes group is
   * current, ends up as the last note of that group.
   */
  lemma GraceNoteJoinsGroup(m: Graph, n: Note, slashed: bool, staffNumber: int, voiceNumber: int, stack: seq<Tuplet>)
    requires Consistent(m) && m.currentPart.Some? && m.currentGracenotes.Some?
    ensures var r := StandalonePlaced(m, n, true, slashed, staffNumber, voiceNumber, stack);
      var g := m.currentGracenotes.value;
      r.0 == Proceeding && r.1.currentGracenotes == m.currentGracenotes && g in r.1.score.gracenotes &&
      r.1.score.gracenotes[g].notes == m.score.gracenotes[g].notes + [n]
  {
    var l := Lookup(m, staffNumber, voiceNumber);
    LookupConsistent(m, staffNumber, voiceNumber);
    NonChordPlacedConsistent(l.0, l.1, n, true, slashed);
    StandaloneEndedInVoice(m, NonChordPlaced(l.0, l.1, n, true, slashed), staffNumber, voiceNumber, stack, n.id);
  }

  /**
   * A grace note outside chords and tuplets, when no grace notes group is
   * current, starts a new group, slashed or not, made of that note alone;
   * the group is appended to the voice, which then gains nothing else but
   * the tuplets still open.
   */
  lemma GraceNoteStartsGroup(m: Graph, n: Note, slashed: bool, staffNumber: int, voiceNumber: int, stack: seq<Tuplet>)
    requires Consistent(m) && m.currentPart.Some? && m.currentGracenotes.None?
    ensures var l := Lookup(m, staffNumber, voiceNumber);
      var r := StandalonePlaced(m, n, true, slashed, staffNumber, voiceNumber, stack);
      r.0 == Proceeding && r.1.currentGracenotes == Some(l.0.nextId) && l.0.nextId in r.1.score.gracenotes &&
      r.1.score.gracenotes[l.0.nextId] == Gracenotes(slashed, l.1, [n]) && l.1 in r.1.score.voices &&
      Timeline(r.1.score.voices[l.1]) ==
        Timeline(l.0.score.voices[l.1]) + [GracenotesElement(l.0.nextId)] +
        (if |stack| == 0 then [] else [TupletElement(NestChain(stack))])
  {
    var l := Lookup(m, staffNumber, voiceNumber);
    LookupConsistent(m, staffNumber, voiceNumber);
    var placed := NonChordPlaced(l.0, l.1, n, true, slashed);
    NonChordPlacedConsistent(l.0, l.1, n, true, slashed);
    GracenotesStartedConsistent(l.0, l.1, slashed);
    assert Timeline(placed.score.voices[l.1]) == Timeline(l.0.score.voices[l.1]) + [GracenotesElement(l.0.nextId)];
    StandaloneEndedInVoice(m, placed, staffNumber, voiceNumber, stack, n.id);
  }

  /**
   * A chord member, while a chord is going on, becomes the last note of the
   * current chord, and the chord keeps carrying its members' decorations.
   */
  lemma ChordMemberJoins(m: Graph, n: Note, staffNumber: int, voiceNumber: int, last: map<Id, Note>)
    requires Consistent(m) && m.onGoingChord
    ensures var r := ChordPlaced(m, n, staffNumber, voiceNumber, last);
      var c := m.currentChord.value;
      r.0 == Proceeding && r.1.currentChord == m.currentChord && c in r.1.score.chords &&
      r.1.score.chords[c].notes == m.score.chords[c].notes + [n] &&
      (CarriesDecorationsOf(m.score.chords[c], m.score.chords[c].notes) ==>
         CarriesDecorationsOf(r.1.score.chords[c], r.1.score.chords[c].notes))
  {
    var c := m.currentChord.value;
    if CarriesDecorationsOf(m.score.chords[c], m.score.chords[c].notes) {
      JoinKeepsDecorations(m.score.chords[c], n);
    }
  }

  /**
   * A chord member when no chord is going on starts one in its voice: the
   * last note handled in that voice must be the voice's last element, and
   * it is replaced there by a new chord made of that note and this one,
   * carrying both notes' decorations.
   */
  lemma ChordMemberStartsChord(m: Graph, n: Note, staffNumber: int, voiceNumber: int, last: map<Id, Note>)
    requires Consistent(m) && !m.onGoingChord && m.currentPart.Some?
    ensures var l := Lookup(m, staffNumber, voiceNumber);
      var w := l.1;
      var t := Timeline(l.0.score.voices[w]);
      var r := ChordPlaced(m, n, staffNumber, voiceNumber, last);
      (w !in last ==> r == (Aborted(NoLastHandledNote), l.0)) &&
      (r.0 == Proceeding ==>
        w in last && |t| > 0 && t[|t| - 1] == NoteElement(last[w]) &&
        r.1.currentChord == Some(l.0.nextId) && r.1.onGoingChord && l.0.nextId in r.1.score.chords &&
        r.1.score.chords[l.0.nextId].notes == [last[w], n] &&
        CarriesDecorationsOf(r.1.score.chords[l.0.nextId], [last[w], n]) &&
        w in r.1.score.voices && Timeline(r.1.score.voices[w]) == t[..|t| - 1] + [ChordElement(l.0.nextId)])
  {
    var l := Lookup(m, staffNumber, voiceNumber);
    var w := l.1;
    var r := ChordPlaced(m, n, staffNumber, voiceNumber, last);
    if r.0 == Proceeding {
      ReplaceLast(l.0.score.voices[w], ChordElement(l.0.nextId));
      ChordOfTwoNotes(last[w], n);
    }
  }

  /**
   * A tuplet member that stops the only open tuplet closes it with the note
   * as its last member and appends it to the note's voice; stopping an inner
   * tuplet leaves the voices as the lookup left them.
   */
  lemma TupletStopAppends(m: Graph, n: Note, staffNumber: int, voiceNumber: int, stack: seq<Tuplet>)
    requires Consistent(m) && m.currentPart.Some? && |stack| > 0
    ensures var l := Lookup(m, staffNumber, voiceNumber);
      var r := TupletPlaced(m, n, staffNumber, voiceNumber, stack, StopTuplet);
      r.0 == Proceeding && l.1 in r.1.score.voices &&
      (|stack| == 1 ==>
        Timeline(r.1.score.voices[l.1]) ==
          Timeline(l.0.score.voices[l.1]) + [TupletElement(stack[0].(members := stack[0].members + [MemberNote(n)]))]) &&
      (|stack| > 1 ==> r.1 == l.0)
  {
    var l := Lookup(m, staffNumber, voiceNumber);
    if |stack| == 1 {
      var t := AddToTuplet(stack[0], MemberNote(n));
      assert t == stack[0].(members := stack[0].members + [MemberNote(n)]);
    }
  }

  // ---------------------------------------------------------------------------
  // Repeats and endings

  /** The graph after a new, empty current chunk, with a fresh id, is started in voice `v`. */
  ghost function ChunkStarted(m: Graph, v: Id): (r: Graph)
    requires v in m.score.voices
    ensures v in r.score.voices && HasChunk(r.score.voices[v]) && CurrentChunk(r.score.voices[v]) == Chunk(m.nextId, [])
    ensures Timeline(r.score.voices[v]) == Timeline(m.score.voices[v])
    ensures r.currentRepeat == m.currentRepeat && r.score.repeats == m.score.repeats
  {
    m.(nextId := m.nextId + 1, score := m.score.(voices := m.score.voices[v := NewChunk(m.score.voices[v], m.nextId)]))
  }

  /**
   * The graph after the current repeat is made sure of: when there is none, a
   * repeat of chunk `chunk` of voice `v`, without endings, is created under a
   * fresh id and becomes current; otherwise nothing changes.
   */
  ghost function RepeatEnsured(m: Graph, v: Id, chunk: Id): (r: Graph)
    ensures r.currentRepeat.Some? && r.score.voices == m.score.voices
    ensures m.currentRepeat.Some? ==> r == m
    ensures m.currentRepeat.None? ==> r.currentRepeat == Some(m.nextId) && m.nextId in r.score.repeats && r.score.repeats[m.nextId] == Repeat(chunk, v, [])
    ensures Linked(m.currentRepeat, m.score.repeats) ==> r.currentRepeat.value in r.score.repeats
  {
    if m.currentRepeat.Some? then m
    else
      var id := m.nextId;
      m.(nextId := id + 1, currentRepeat := Some(id),
         score := m.score.(repeats := m.score.repeats[id := Repeat(chunk, v, [])]))
  }

  /** The graph after the current repeat receives an ending of that number and kind, on chunk `chunk`. */
  ghost function EndingAdded(m: Graph, number: string, kind: RepeatendingKind, chunk: Id): (r: Graph)
    requires m.currentRepeat.Some? && m.currentRepeat.value in m.score.repeats
    ensures r.score.voices == m.score.voices && r.currentRepeat == m.currentRepeat
    ensures r.score.repeats.Keys == m.score.repeats.Keys
    ensures r.score.repeats[m.currentRepeat.value].endings ==
      m.score.repeats[m.currentRepeat.value].endings + [Repeatending(number, kind, chunk)]
  {
    var id := m.currentRepeat.value;
    var rep := m.score.repeats[id];
    m.(score := m.score.(repeats := m.score.repeats[id := rep.(endings := rep.endings + [Repeatending(number, kind, chunk)])]))
  }

  /** The graph after `e` is prepended to the current chunk of voice `v`. */
  ghost function PrependedTo(m: Graph, v: Id, e: Element): (r: Graph)
    requires v in m.score.voices && HasChunk(m.score.voices[v])
    ensures v in r.score.voices && HasChunk(r.score.voices[v])
    ensures r.currentRepeat == m.currentRepeat && r.score.repeats == m.score.repeats
  {
    m.(score := m.score.(voices := m.score.voices[v := Prepend(m.score.voices[v], e)]))
  }

  /**
   * The implicit repeat start at the beginning of the part: barline `b` is
   * prepended to the current chunk of voice `v`, a repeat of that chunk is
   * made sure of, a new chunk is started and the current repeat is appended
   * to the voice.
   */
  ghost function ImplicitRepeatAdded(m: Graph, v: Id, b: Barline): (r: Graph)
    requires v in m.score.voices && HasChunk(m.score.voices[v])
    ensures v in r.score.voices && HasChunk(r.score.voices[v]) && r.currentRepeat.Some?
    ensures CurrentChunk(r.score.voices[v]).elements == [RepeatElement(r.currentRepeat.value)]
  {
    var m1 := PrependedTo(m, v, BarlineElement(b));
    var m2 := RepeatEnsured(m1, v, CurrentChunk(m1.score.voices[v]).id);
    var m3 := ChunkStarted(m2, v);
    AppendedTo(m3, v, RepeatElement(m3.currentRepeat.value))
  }

  /**
   * The hooked ending end before the pending barlines are looked at: barline
   * `b` is appended to voice `v`, a new chunk is started, a repeat of the
   * chunk the barline ended is made sure of, and the current repeat receives
   * a hooked ending on that chunk.
   */
  ghost function HookedEndingAdded(m: Graph, v: Id, b: Barline, number: string): (r: Graph)
    requires v in m.score.voices && HasChunk(m.score.voices[v]) && Linked(m.currentRepeat, m.score.repeats)
    ensures v in r.score.voices && HasChunk(r.score.voices[v])
  {
    var m1 := AppendedTo(m, v, BarlineElement(b));
    var chunk := CurrentChunk(m1.score.voices[v]).id;
    var m2 := RepeatEnsured(ChunkStarted(m1, v), v, chunk);
    EndingAdded(m2, number, HookedEnding, chunk)
  }

  /**
   * The hookless ending end before the pending barlines are looked at:
   * barline `b` is appended to voice `v`, the current repeat receives a
   * hookless ending on the chunk the barline ended, a new chunk is started
   * and the current repeat is appended to the voice.
   */
  ghost function HooklessEndingAdded(m: Graph, v: Id, b: Barline, number: string): (r: Graph)
    requires v in m.score.voices && HasChunk(m.score.voices[v])
    requires m.currentRepeat.Some? && m.currentRepeat.value in m.score.repeats
    ensures v in r.score.voices && HasChunk(r.score.voices[v])
  {
    var m1 := AppendedTo(m, v, BarlineElement(b));
    var chunk := CurrentChunk(m1.score.voices[v]).id;
    var m2 := ChunkStarted(EndingAdded(m1, number, HooklessEnding, chunk), v);
    AppendedTo(m2, v, RepeatElement(m.currentRepeat.value))
  }

  /**
   * The repeat start: a repeat of the current chunk of voice `v` is made sure
   * of, a new chunk is started and barline `b` is appended to it.
   */
  ghost function RepeatStartAdded(m: Graph, v: Id, b: Barline): (r: Graph)
    requires v in m.score.voices && HasChunk(m.score.voices[v])
  {
    var m1 := RepeatEnsured(m, v, CurrentChunk(m.score.voices[v]).id);
    AppendedTo(ChunkStarted(m1, v), v, BarlineElement(b))
  }

  /**
   * The graph and pending barlines after an ending or repeat end has been
   * recorded: with no barline pending, the implicit repeat start carrying
   * that ending number and winged attribute is added to voice `v`; otherwise
   * the innermost pending barline is popped and the graph stays as it is.
   */
  ghost function EndingClosed(m: Graph, v: Id, pending: seq<Barline>, number: string,
                              winged: RepeatWinged): (r: (Graph, seq<Barline>))
    requires v in m.score.voices && HasChunk(m.score.voices[v])
  {
    if |pending| == 0 then (ImplicitRepeatAdded(m, v, ImplicitRepeatStart(number, winged)), [])
    else (m, pending[..|pending| - 1])
  }

  /**
   * The status, graph and pending barlines after barline `b` of category `c`
   * is handled in voice `v`: the barline, now of that category, is recorded
   * as each category's handler does, and a repeat start or an ending start
   * is pushed onto the pending barlines.
   */
  ghost function BarlineDispatched(m: Graph, v: Id, b: Barline, c: Category,
                                   pending: seq<Barline>): (r: (Status, Graph, seq<Barline>))
    requires v in m.score.voices && HasChunk(m.score.voices[v]) && Linked(m.currentRepeat, m.score.repeats)
  {
    var b' := b.(category := Some(c));
    match c
    case RepeatStartCategory => (Proceeding, RepeatStartAdded(m, v, b'), pending + [b'])
    case HookedEndingEndCategory =>
      var e := EndingClosed(HookedEndingAdded(m, v, b', b.endingNumber), v, pending, b.endingNumber, b.repeatWinged);
      (Proceeding, e.0, e.1)
    case RepeatEndCategory =>
      var e := EndingClosed(AppendedTo(m, v, BarlineElement(b')), v, pending, b.endingNumber, b.repeatWinged);
      (Proceeding, e.0, e.1)
    case EndingStartCategory => (Proceeding, AppendedTo(m, v, BarlineElement(b')), pending + [b'])
    case HooklessEndingEndCategory =>
      if m.currentRepeat.None? then (Aborted(NoCurrentRepeat), AppendedTo(m, v, BarlineElement(b')), pending)
      else
        var e := EndingClosed(HooklessEndingAdded(m, v, b', b.endingNumber), v, pending, b.endingNumber, b.repeatWinged);
        (Proceeding, e.0, e.1)
    case StandaloneBarCategory => (Proceeding, AppendedTo(m, v, BarlineElement(b')), pending)
  }

  /**
   * `</barline>` from graph `m` and pending barlines `pending`: the voice of
   * those numbers is looked up (and created if absent) and the barline `b` is
   * handled according to its category; a barline with no category leaves the
   * looked-up graph and the pending barlines as they are.
   */
  ghost function BarlineEndOutcome(m: Graph, staffNumber: int, voiceNumber: int, b: Barline,
                                   c: Option<Category>, pending: seq<Barline>): (r: (Status, Graph, seq<Barline>))
    requires Consistent(m) && m.currentPart.Some?
  {
    var (g, w) := Lookup(m, staffNumber, voiceNumber);
    if c.None? then (Proceeding, g, pending) else BarlineDispatched(g, w, b, c.value, pending)
  }

  class Xml2MsrVisitor {
    /** Whether decorations found on a rest are to be kept for a later note, silently. */
    const delayRestsDynamics: bool

    var msr: Graph
    var diagnostics: seq<Diagnostic>

    // part groups
    var currentPartgroupNumber: int
    var currentPartgroupType: string
    var currentPartgroupName: string
    var currentPartgroupAbbreviation: string
    var currentPartgroupSymbol: string
    var currentPartgroupSymbolDefaultX: int
    var currentPartgroupBarline: string

    // parts
    var currentPartID: string
    var currentPartName: string
    var currentPartAbbreviation: string
    var currentPartInstrumentName: string
    var currentDivisionsPerQuarterNote: int

    // staves and voices
    var currentStaffNumber: int
    var currentVoiceNumber: int
    var currentNoteStaffNumber: int
    var currentNoteVoiceNumber: int
    var currentForwardStaffNumber: int
    var currentForwardVoiceNumber: int
    var currentDirectionStaffNumber: int
    var currentBackupDuration: int
    var currentForwardDuration: int

    // the element being visited
    var onGoingNote: bool
    var onGoingForward: bool
    var onGoingBackup: bool
    var onGoingDirection: bool
    var onGoingDirectionType: bool
    var onGoingBarline: bool

    // the note being visited
    var noteData: NoteData
    var currentNoteType: string
    var displayStep: char
    var displayOctave: int
    var currentArticulations: seq<ArticulationKind>
    var currentOrnaments: seq<OrnamentKind>
    var currentTie: Option<TieKind>
    var currentTieKind: TieKind
    var currentStem: Option<Stem>
    var currentBeam: Option<Beam>
    var currentBeamValue: string
    var currentBeamNumber: int
    var currentSlurNumber: int
    var currentSlurType: string
    var currentSlurKind: SlurKind
    var onGoingSlur: bool
    var onGoingSlurHasLyrics: bool

    // decorations waiting for the next note
    var pendingDynamics: seq<DynamicsKind>
    var pendingWords: seq<Words>
    var pendingSlurs: seq<Slur>
    var pendingWedges: seq<Wedge>

    // grace notes, tuplets
    var currentGraceIsSlashed: bool
    var lastHandledNoteInVoice: map<Id, Note>
    /** The open tuplets, innermost last. */
    var tupletsStack: seq<Tuplet>
    var currentTupletKind: TupletKind
    var currentTupletNumber: int
    var currentActualNotes: int
    var currentNormalNotes: int

    // lyrics
    var currentLyricsNumber: int
    var currentSyllabic: string
    var currentText: string
    var currentElision: bool
    var currentLyricsHasText: bool
    var currentNoteHasLyrics: bool
    var currentLyricschunkKind: ChunkKind
    var firstLyricschunkInSlurKind: ChunkKind

    // directions
    var currentWordsPlacement: Option<Placement>
    var currentWordsContents: string
    var beatsCount: nat
    var currentBeatUnit: string
    var perMinute: int
    var parentheses: bool

    // barlines
    var currentLocation: string
    var currentStyle: string
    var currentEndingtype: string
    var currentEndingNumber: string
    var currentRepeatDirection: string
    var currentRepeatWinged: string
    var barlineHasSegno: bool
    var barlineHasCoda: bool
    var barlineLocation: BarlineLocation
    var barlineStyle: BarStyle
    var barlineEndingType: EndingType
    var barlineEndingNumber: string
    var barlineRepeatDirection: RepeatDirection
    var barlineRepeatWinged: RepeatWinged
    /** The repeat-start and ending-start barlines not yet matched, latest last. */
    var pendingBarlines: seq<Barline>

    ghost predicate Valid()
      reads this`msr
    {
      Consistent(msr)
    }

    constructor (delay: bool)
      ensures Valid()
      ensures delayRestsDynamics == delay
      ensures msr == EmptyGraph && diagnostics == []
      ensures currentDivisionsPerQuarterNote == 0
      ensures currentForwardStaffNumber == 1 && currentForwardVoiceNumber == 1 && currentVoiceNumber == 1
      ensures currentDirectionStaffNumber == 1
      ensures currentNoteStaffNumber == 0 && currentNoteVoiceNumber == 0
      ensures currentLyricsNumber == -1 && currentSyllabic == "" && currentText == "" && !currentElision
      ensures currentLyricschunkKind == NoChunk && firstLyricschunkInSlurKind == NoChunk
      ensures currentBackupDuration == -1
      ensures !onGoingNote && !onGoingSlur && !onGoingSlurHasLyrics
      ensures onGoingDirection && !onGoingDirectionType && !onGoingBarline
      ensures !onGoingBackup && !onGoingForward
      ensures tupletsStack == [] && pendingBarlines == []
      ensures pendingDynamics == [] && pendingWords == [] && pendingSlurs == [] && pendingWedges == []
    {
      delayRestsDynamics := delay;
      msr := EmptyGraph;
      diagnostics := [];
      currentPartgroupNumber := 0;
      currentPartgroupType := "";
      currentPartgroupName := "";
      currentPartgroupAbbreviation := "";
      currentPartgroupSymbol := "";
      currentPartgroupSymbolDefaultX := IntMin;
      currentPartgroupBarline := "";
      currentPartID := "";
      currentPartName := "";
      currentPartAbbreviation := "";
      currentPartInstrumentName := "";
      currentDivisionsPerQuarterNote := 0;
      currentStaffNumber := 1;
      currentVoiceNumber := 1;
      currentNoteStaffNumber := 0;
      currentNoteVoiceNumber := 0;
      currentForwardStaffNumber := 1;
      currentForwardVoiceNumber := 1;
      currentDirectionStaffNumber := 1;
      currentBackupDuration := -1;
      currentForwardDuration := 0;
      onGoingNote := false;
      onGoingForward := false;
      onGoingBackup := false;
      onGoingDirection := true;
      onGoingDirectionType := false;
      onGoingBarline := false;
      noteData := NeutralNoteData;
      currentNoteType := "";
      displayStep := ' ';
      displayOctave := 0;
      currentArticulations := [];
      currentOrnaments := [];
      currentTie := None;
      currentTieKind := NoTie;
      currentStem := None;
      currentBeam := None;
      currentBeamValue := "";
      currentBeamNumber := 0;
      currentSlurNumber := -1;
      currentSlurType := "";
      currentSlurKind := NoSlur;
      onGoingSlur := false;
      onGoingSlurHasLyrics := false;
      pendingDynamics := [];
      pendingWords := [];
      pendingSlurs := [];
      pendingWedges := [];
      currentGraceIsSlashed := false;
      lastHandledNoteInVoice := map[];
      tupletsStack := [];
      currentTupletKind := NoTuplet;
      currentTupletNumber := 0;
      currentActualNotes := 0;
      currentNormalNotes := 0;
      currentLyricsNumber := -1;
      currentSyllabic := "";
      currentText := "";
      currentElision := false;
      currentLyricsHasText := false;
      currentNoteHasLyrics := false;
      currentLyricschunkKind := NoChunk;
      firstLyricschunkInSlurKind := NoChunk;
      currentWordsPlacement := None;
      currentWordsContents := "";
      beatsCount := 0;
      currentBeatUnit := "";
      perMinute := 0;
      parentheses := false;
      currentLocation := "";
      currentStyle := "";
      currentEndingtype := "";
      currentEndingNumber := "";
      currentRepeatDirection := "";
      currentRepeatWinged := "";
      barlineHasSegno := false;
      barlineHasCoda := false;
      barlineLocation := RightLocation;
      barlineStyle := NoStyle;
      barlineEndingType := NoEndingType;
      barlineEndingNumber := "";
      barlineRepeatDirection := NoRepeatDirection;
      barlineRepeatWinged := NoRepeatWinged;
      pendingBarlines := [];
    }

    method Report(d: Option<Diagnostic>)
      modifies this`diagnostics
      ensures diagnostics == old(diagnostics) + Reported(d)
    {
      diagnostics := diagnostics + Reported(d);
    }

    // -------------------------------------------------------------------------
    // Part groups

    /** `<part-group number=... type=...>`: the group's descriptive fields start afresh. */
    method PartgroupStart(number: int, partgroupType: string)
      modifies this`currentPartgroupNumber, this`currentPartgroupType, this`currentPartgroupName,
               this`currentPartgroupAbbreviation, this`currentPartgroupSymbol,
               this`currentPartgroupSymbolDefaultX, this`currentPartgroupBarline
      ensures currentPartgroupNumber == number && currentPartgroupType == partgroupType
      ensures currentPartgroupName == "" && currentPartgroupAbbreviation == "" && currentPartgroupSymbol == ""
      ensures currentPartgroupSymbolDefaultX == IntMin && currentPartgroupBarline == "yes"
    {
      currentPartgroupNumber := number;
      currentPartgroupType := partgroupType;
      currentPartgroupName := "";
      currentPartgroupAbbreviation := "";
      currentPartgroupSymbol := "";
      currentPartgroupSymbolDefaultX := IntMin;
      currentPartgroupBarline := "yes";
    }

    method GroupName(name: string)
      modifies this`currentPartgroupName
      ensures currentPartgroupName == name
    {
      currentPartgroupName := name;
    }

    method GroupAbbreviation(abbreviation: string)
      modifies this`currentPartgroupAbbreviation
      ensures currentPartgroupAbbreviation == abbreviation
    {
      currentPartgroupAbbreviation := abbreviation;
    }

    /** `<group-symbol default-x=...>`: the symbol, and its default-x (0 when absent). */
    method GroupSymbol(symbol: string, defaultX: int)
      modifies this`currentPartgroupSymbol, this`currentPartgroupSymbolDefaultX
      ensures currentPartgroupSymbol == symbol && currentPartgroupSymbolDefaultX == defaultX
    {
      currentPartgroupSymbol := symbol;
      currentPartgroupSymbolDefaultX := defaultX;
    }

    method GroupBarline(barline: string)
      modifies this`currentPartgroupBarline
      ensures currentPartgroupBarline == barline
    {
      currentPartgroupBarline := barline;
    }

    /**
     * The group a part-group start refers to: the one its number already names,
     * or a new group whose parent is the front of the open list.
     */
    method PartgroupFor(symbol: PartgroupSymbol, barline: bool) returns (g: Id)
      requires Valid()
      modifies this`msr
      ensures Valid()
      ensures g in msr.score.groups && old(msr.score.groups).Keys <= msr.score.groups.Keys
      ensures msr.partgroupsList == old(msr.partgroupsList)
      ensures currentPartgroupNumber in old(msr.partgroupsMap) ==>
        g == old(msr.partgroupsMap)[currentPartgroupNumber] && msr == old(msr)
      ensures currentPartgroupNumber !in old(msr.partgroupsMap) ==>
        g == old(msr.nextId) &&
        msr == old(msr).(nextId := g + 1,
          partgroupsMap := old(msr.partgroupsMap)[currentPartgroupNumber := g],
          score := old(msr.score).(groups := old(msr.score.groups)[g :=
            Partgroup(currentPartgroupNumber, currentPartgroupName, currentPartgroupAbbreviation,
                      symbol, currentPartgroupSymbolDefaultX, barline,
                      if |old(msr.partgroupsList)| > 0 then Some(old(msr.partgroupsList)[0]) else None, [])]))
    {
      var n := currentPartgroupNumber;
      if n in msr.partgroupsMap {
        g := msr.partgroupsMap[n];
        return;
      }
      var front := if |msr.partgroupsList| > 0 then Some(msr.partgroupsList[0]) else None;
      var group := Partgroup(n, currentPartgroupName, currentPartgroupAbbreviation, symbol,
                             currentPartgroupSymbolDefaultX, barline, front, []);
      FreshGroupWellFormed(msr.score, msr.nextId, group);
      g := msr.nextId;
      msr := msr.(nextId := g + 1, partgroupsMap := msr.partgroupsMap[n := g],
                  score := msr.score.(groups := msr.score.groups[g := group]));
    }

    /**
     * Starting a part group: its group (see PartgroupFor) is inserted in the
     * open list before the first group whose default-x is strictly greater
     * than the current default-x, at the end if there is none.
     */
    method HandlePartgroupStart(symbol: PartgroupSymbol, barline: bool)
      requires Valid()
      modifies this`msr
      ensures Valid()
      ensures currentPartgroupNumber in msr.partgroupsMap
      ensures var r := InsertPosition(DefaultXs(old(msr.partgroupsList), old(msr.score.groups)),
                                      currentPartgroupSymbolDefaultX);
        msr.partgroupsList ==
          old(msr.partgroupsList)[..r] + [msr.partgroupsMap[currentPartgroupNumber]] + old(msr.partgroupsList)[r..]
    {
      var list := msr.partgroupsList;
      var i := FindInsertPosition(list, msr.score.groups, currentPartgroupSymbolDefaultX);
      var g := PartgroupFor(symbol, barline);
      InsertedMembers(list, i, g);
      msr := msr.(partgroupsList := list[..i] + [g] + list[i..]);
    }

    /**
     * Stopping a part group: it must be known by number and open; it leaves
     * the open list (its first occurrence) and the map. With no group left
     * open it becomes a top-level group of the score; otherwise it becomes the
     * first sub-group of the new front group, which must not have its number.
     */
    method HandlePartgroupStop() returns (status: Status)
      requires Valid()
      modifies this`msr
      ensures Valid()
      ensures msr.(score := old(msr.score), partgroupsList := old(msr.partgroupsList),
                   partgroupsMap := old(msr.partgroupsMap)) == old(msr)
      ensures msr.score.parts == old(msr.score.parts)
      ensures currentPartgroupNumber !in old(msr.partgroupsMap) ==>
        status == Aborted(PartgroupNotInMap(currentPartgroupNumber))
      ensures currentPartgroupNumber in old(msr.partgroupsMap) &&
              old(msr.partgroupsMap)[currentPartgroupNumber] !in old(msr.partgroupsList) ==>
        status == Aborted(PartgroupNotInList(currentPartgroupNumber))
      ensures currentPartgroupNumber in old(msr.partgroupsMap) &&
              old(msr.partgroupsMap)[currentPartgroupNumber] in old(msr.partgroupsList) ==>
        var g := old(msr.partgroupsMap)[currentPartgroupNumber];
        StoppedPartgroup(old(msr), msr, status, currentPartgroupNumber, g, FirstIndexOf(old(msr.partgroupsList), g).value)
    {
      var n := currentPartgroupNumber;
      if n !in msr.partgroupsMap {
        return Aborted(PartgroupNotInMap(n));
      }
      var g := msr.partgroupsMap[n];
      var found := FindPartgroup(msr.partgroupsList, g);
      if found.None? {
        return Aborted(PartgroupNotInList(n));
      }
      status := DetachPartgroup(n, g, found.value);
    }

    /**
     * The stop of group `g`, numbered `n`, found at index `i` of the list of
     * started groups: it leaves the list and the map of numbers; the list
     * emptied, it becomes a top-level group of the score; otherwise it becomes
     * the first element of the group now at the front, unless that one has the
     * same number, which is an internal error.
     */
    method DetachPartgroup(n: int, g: Id, i: nat) returns (status: Status)
      requires Valid() && n in msr.partgroupsMap && msr.partgroupsMap[n] == g
      requires i < |msr.partgroupsList| && msr.partgroupsList[i] == g
      modifies this`msr
      ensures Valid()
      ensures msr.(score := old(msr.score), partgroupsList := old(msr.partgroupsList),
                   partgroupsMap := old(msr.partgroupsMap)) == old(msr)
      ensures msr.score.parts == old(msr.score.parts)
      ensures StoppedPartgroup(old(msr), msr, status, n, g, i)
    {
      var list := msr.partgroupsList;
      var rest := list[..i] + list[i + 1..];
      RemovedMembers(list, i);
      var score := msr.score;
      if |rest| == 0 {
        score := score.(partgroups := score.partgroups + [g]);
      } else {
        var f := rest[0];
        assert f in rest;
        var front := score.groups[f];
        if front.number == n {
          msr := msr.(partgroupsList := rest);
          return Aborted(PartgroupInsideItself(n));
        }
        score := score.(groups := score.groups[f := front.(elements := [SubPartgroup(g)] + front.elements)]);
      }
      msr := msr.(score := score, partgroupsList := rest, partgroupsMap := msr.partgroupsMap - {n});
      status := Proceeding;
    }

    /** `</part-group>`: the type, symbol and barline are read, then the group is started or stopped. */
    method PartgroupEnd() returns (status: Status)
      requires Valid()
      modifies this`msr, this`diagnostics
      ensures Valid()
      ensures diagnostics == old(diagnostics) + Reported(PartgroupTypeOf(currentPartgroupType).report) +
        Reported(PartgroupSymbolOf(currentPartgroupSymbol).report) +
        Reported(PartgroupBarlineOf(currentPartgroupBarline).report)
      ensures PartgroupTypeOf(currentPartgroupType).value == StartPartgroupType ==>
        status == Proceeding && currentPartgroupNumber in msr.partgroupsMap &&
        msr.partgroupsMap[currentPartgroupNumber] in msr.partgroupsList
      ensures PartgroupTypeOf(currentPartgroupType).value == StopPartgroupType && status == Proceeding ==>
        currentPartgroupNumber !in msr.partgroupsMap
      ensures PartgroupTypeOf(currentPartgroupType).value == NoPartgroupType ==>
        status == Proceeding && msr == old(msr)
    {
      var kind := PartgroupTypeOf(currentPartgroupType);
      Report(kind.report);
      var symbol := PartgroupSymbolOf(currentPartgroupSymbol);
      Report(symbol.report);
      var barline := PartgroupBarlineOf(currentPartgroupBarline);
      Report(barline.report);
      match kind.value
      case StartPartgroupType =>
        HandlePartgroupStart(symbol.value, barline.value);
        status := Proceeding;
      case StopPartgroupType =>
        status := HandlePartgroupStop();
      case NoPartgroupType =>
        status := Proceeding;
    }

    /**
     * The implicit part group, number 1 with a bracket and a barline, opened at
     * the front of the list when a part is met with no group open.
     */
    method CreateImplicitPartgroup() returns (g: Id)
      requires Valid()
      modifies this`msr, this`currentPartgroupNumber
      ensures Valid()
      ensures g == old(msr.nextId) && currentPartgroupNumber == 1
      ensures msr == old(msr).(nextId := g + 1,
        score := old(msr.score).(groups := old(msr.score.groups)[g :=
          Partgroup(1, "Implicit", "Impl.", BracketPartgroupSymbol, 0, true, None, [])]),
        partgroupsMap := old(msr.partgroupsMap)[1 := g],
        partgroupsList := [g] + old(msr.partgroupsList),
        implicitPartgroup := Some(g))
    {
      currentPartgroupNumber := 1;
      var group := Partgroup(1, "Implicit", "Impl.", BracketPartgroupSymbol, 0, true, None, []);
      FreshGroupWellFormed(msr.score, msr.nextId, group);
      g := msr.nextId;
      msr := msr.(nextId := g + 1, score := msr.score.(groups := msr.score.groups[g := group]),
                  partgroupsMap := msr.partgroupsMap[1 := g], partgroupsList := [g] + msr.partgroupsList,
                  implicitPartgroup := Some(g));
    }

    /** An implicit group still open is stopped and forgotten. */
    method StopImplicitPartgroup() returns (status: Status)
      requires Valid()
      modifies this`msr
      ensures Valid()
      ensures msr.score.parts == old(msr.score.parts) && msr.partsMap == old(msr.partsMap)
      ensures old(msr.implicitPartgroup).None? ==> status == Proceeding && msr == old(msr)
      ensures status == Proceeding ==> msr.implicitPartgroup.None?
      ensures old(msr.implicitPartgroup).Some? && status == Proceeding ==>
        currentPartgroupNumber !in msr.partgroupsMap
    {
      status := Proceeding;
      if msr.implicitPartgroup.Some? {
        status := HandlePartgroupStop();
        if status.Aborted? {
          return;
        }
        msr := msr.(implicitPartgroup := None);
      }
    }

    /** `</part-list>`. */
    method PartListEnd() returns (status: Status)
      requires Valid()
      modifies this`msr
      ensures Valid()
      ensures status == Proceeding ==> msr.implicitPartgroup.None?
    {
      status := StopImplicitPartgroup();
    }

    // -------------------------------------------------------------------------
    // Parts

    /** `<score-part id=...>`: the part's descriptive fields start afresh. */
    method ScorePartStart(id: string)
      modifies this`currentPartID, this`currentPartName, this`currentPartAbbreviation,
               this`currentPartInstrumentName
      ensures currentPartID == id && currentPartName == "" && currentPartAbbreviation == ""
      ensures currentPartInstrumentName == ""
    {
      currentPartID := id;
      currentPartName := "";
      currentPartAbbreviation := "";
      currentPartInstrumentName := "";
    }

    method PartName(name: string)
      modifies this`currentPartName
      ensures currentPartName == name
    {
      currentPartName := name;
    }

    method PartAbbreviation(abbreviation: string)
      modifies this`currentPartAbbreviation
      ensures currentPartAbbreviation == abbreviation
    {
      currentPartAbbreviation := abbreviation;
    }

    method InstrumentName(name: string)
      modifies this`currentPartInstrumentName
      ensures currentPartInstrumentName == name
    {
      currentPartInstrumentName := name;
    }

    /**
     * The part a `</score-part>` names, within group `g`: the member of `g`
     * with the current part ID if there is one, otherwise a new part with that
     * ID, no names and no staves, appended to `g`'s members.
     */
    method PartInPartgroup(g: Id) returns (p: Id)
      requires Valid() && g in msr.score.groups
      modifies this`msr
      ensures Valid()
      ensures p in msr.score.parts && msr.partsMap == old(msr.partsMap)
      ensures var found := FetchPartFromPartgroup(old(msr.score), old(msr.score.groups)[g].elements, currentPartID);
        (found.Some? ==> p == found.value && msr == old(msr)) &&
        (found.None? ==>
          p == old(msr.nextId) &&
          var group := old(msr.score.groups)[g];
          msr == old(msr).(nextId := p + 1,
            score := old(msr.score).(parts := old(msr.score.parts)[p := Part(currentPartID, "", "", "", 0, map[])],
              groups := old(msr.score.groups)[g := group.(elements := group.elements + [PartMember(p)])])))
    {
      var score := msr.score;
      var group := score.groups[g];
      var found := FetchPartFromPartgroup(score, group.elements, currentPartID);
      if found.Some? {
        return found.value;
      }
      p := msr.nextId;
      var part := Part(currentPartID, "", "", "", 0, map[]);
      FreshPartWellFormed(score, p, part);
      msr := msr.(nextId := p + 1,
                  score := score.(parts := score.parts[p := part],
                                  groups := score.groups[g := group.(elements := group.elements + [PartMember(p)])]));
    }

    /** The part's name, abbreviation and instrument name become the current ones. */
    method SetPartNames(p: Id)
      requires Valid() && p in msr.score.parts
      modifies this`msr
      ensures Valid()
      ensures msr.score.parts.Keys == old(msr.score.parts).Keys && msr.partsMap == old(msr.partsMap)
      ensures var parts := old(msr.score.parts);
        msr == old(msr).(score := old(msr.score).(parts := parts[p := parts[p].(name := currentPartName,
          abbreviation := currentPartAbbreviation, instrumentName := currentPartInstrumentName)]))
    {
      var part := msr.score.parts[p].(name := currentPartName,
        abbreviation := currentPartAbbreviation, instrumentName := currentPartInstrumentName);
      SameStavesWellFormed(msr.score, msr.nextId, p, part);
      msr := msr.(score := msr.score.(parts := msr.score.parts[p := part]));
    }

    /**
     * The part a `</score-part>` names, found in or added to group `g`, with
     * its names set and registered under its ID.
     */
    method RegisterPart(g: Id) returns (p: Id)
      requires Valid() && g in msr.score.groups
      modifies this`msr
      ensures Valid()
      ensures var found := FetchPartFromPartgroup(old(msr.score), old(msr.score.groups)[g].elements, currentPartID);
        p == (if found.Some? then found.value else old(msr.nextId))
      ensures msr.partsMap == old(msr.partsMap)[currentPartID := p]
      ensures p in msr.score.parts &&
        var part := msr.score.parts[p];
        part.partID == currentPartID && part.name == currentPartName &&
        part.abbreviation == currentPartAbbreviation && part.instrumentName == currentPartInstrumentName
    {
      p := PartInPartgroup(g);
      SetPartNames(p);
      msr := msr.(partsMap := msr.partsMap[currentPartID := p]);
    }

    /**
     * `</score-part>`: the part is registered within the front group, the
     * implicit group being created first when no group is open; an implicit
     * group is then stopped and forgotten.
     */
    method ScorePartEnd() returns (status: Status)
      requires Valid()
      modifies this`msr, this`currentPartgroupNumber
      ensures Valid()
      ensures currentPartID in msr.partsMap
      ensures msr.partsMap == old(msr.partsMap)[currentPartID := msr.partsMap[currentPartID]]
      ensures var part := msr.score.parts[msr.partsMap[currentPartID]];
        part.partID == currentPartID && part.name == currentPartName &&
        part.abbreviation == currentPartAbbreviation && part.instrumentName == currentPartInstrumentName
      ensures status == Proceeding ==> msr.implicitPartgroup.None?
    {
      var g;
      if |msr.partgroupsList| == 0 {
        g := CreateImplicitPartgroup();
      } else {
        g := msr.partgroupsList[0];
        assert g in msr.partgroupsList;
      }
      var p := RegisterPart(g);
      status := StopImplicitPartgroup();
    }

    /** `<part id=...>`: the part must have been registered by the part list. */
    method PartStart(id: string) returns (status: Status)
      requires Valid()
      modifies this`currentPartID, this`msr, this`currentStaffNumber, this`currentVoiceNumber
      ensures Valid()
      ensures currentPartID == id
      ensures id !in msr.partsMap ==> status == Aborted(PartNotRegistered(id)) && msr == old(msr)
      ensures id in msr.partsMap ==>
        status == Proceeding && msr == old(msr).(currentPart := Some(msr.partsMap[id])) &&
        currentStaffNumber == 1 && currentVoiceNumber == 1
    {
      currentPartID := id;
      if id !in msr.partsMap {
        return Aborted(PartNotRegistered(id));
      }
      msr := msr.(currentPart := Some(msr.partsMap[id]));
      currentStaffNumber := 1;
      currentVoiceNumber := 1;
      status := Proceeding;
    }

    /**
     * `<divisions>`: a value that is not positive is reported; the current part
     * gets four times the value as its divisions per whole note.
     */
    method Divisions(divisionsPerQuarterNote: int) returns (status: Status)
      requires Valid()
      modifies this`currentDivisionsPerQuarterNote, this`diagnostics, this`msr
      ensures Valid()
      ensures currentDivisionsPerQuarterNote == divisionsPerQuarterNote
      ensures diagnostics == old(diagnostics) + Reported(DivisionsOf(divisionsPerQuarterNote).report)
      ensures old(msr.currentPart).None? ==> status == Aborted(NoCurrentPart) && msr == old(msr)
      ensures old(msr.currentPart).Some? ==>
        var p := old(msr.currentPart).value;
        var parts := old(msr.score.parts);
        status == Proceeding &&
        msr == old(msr).(score := old(msr.score).(parts := parts[p := parts[p].(divisionsPerWholeNote :=
          4 * divisionsPerQuarterNote)]))
    {
      currentDivisionsPerQuarterNote := divisionsPerQuarterNote;
      var d := DivisionsOf(divisionsPerQuarterNote);
      Report(d.report);
      if msr.currentPart.None? {
        return Aborted(NoCurrentPart);
      }
      var p := msr.currentPart.value;
      var part := msr.score.parts[p].(divisionsPerWholeNote := d.value);
      SameStavesWellFormed(msr.score, msr.nextId, p, part);
      msr := msr.(score := msr.score.(parts := msr.score.parts[p := part]));
      status := Proceeding;
    }

    /**
     * `<staves>`: with more than one staff, staves 2 to n are added to the
     * current part, each new and empty, replacing any staff of that number.
     */
    method Staves(n: int) returns (status: Status)
      requires Valid()
      modifies this`msr
      ensures Valid()
      ensures n <= 1 ==> status == Proceeding && msr == old(msr)
      ensures n > 1 && old(msr.currentPart).None? ==> status == Aborted(NoCurrentPart) && msr == old(msr)
      ensures n > 1 && old(msr.currentPart).Some? ==>
        var p := old(msr.currentPart).value;
        var parts := old(msr.score.parts);
        status == Proceeding &&
        msr == old(msr).(nextId := old(msr.nextId) + n - 1,
          score := old(msr.score).(parts := parts[p := AddStaves(parts[p], n, old(msr.nextId))]))
    {
      status := Proceeding;
      if n <= 1 {
        return;
      }
      if msr.currentPart.None? {
        return Aborted(NoCurrentPart);
      }
      var p := msr.currentPart.value;
      var id := msr.nextId;
      var part := CreateStaves(msr.score.parts[p], n, id);
      AddStavesWellFormed(msr.score, p, n, id);
      msr := msr.(nextId := id + n - 1, score := msr.score.(parts := msr.score.parts[p := part]));
    }

    /** The staff of that number in the current part, created if absent. */
    method StaffInCurrentPart(number: int) returns (status: Status)
      requires Valid()
      modifies this`msr
      ensures Valid()
      ensures old(msr.currentPart).None? ==> status == Aborted(NoCurrentPart) && msr == old(msr)
      ensures old(msr.currentPart).Some? ==>
        var p := old(msr.currentPart).value;
        var parts := old(msr.score.parts);
        status == Proceeding &&
        msr == old(msr).(nextId := old(msr.nextId) + 1,
          score := old(msr.score).(parts := parts[p := EnsureStaff(parts[p], number, old(msr.nextId))]))
    {
      if msr.currentPart.None? {
        return Aborted(NoCurrentPart);
      }
      var p := msr.currentPart.value;
      EnsureStaffWellFormed(msr.score, p, number, msr.nextId);
      msr := msr.(score := msr.score.(parts := msr.score.parts[p := EnsureStaff(msr.score.parts[p], number, msr.nextId)]),
                  nextId := msr.nextId + 1);
      status := Proceeding;
    }

    /** The voice of that number in that staff of the current part, created if absent. */
    method VoiceInCurrentPart(staffNumber: int, voiceNumber: int) returns (status: Status, v: Id)
      requires Valid()
      modifies this`msr
      ensures Valid()
      ensures old(msr.currentPart).None? ==> status == Aborted(NoCurrentPart) && msr == old(msr)
      ensures old(msr.currentPart).Some? ==>
        var r := EnsureVoice(old(msr.score), old(msr.currentPart).value, staffNumber, voiceNumber, old(msr.nextId));
        status == Proceeding && v == r.1 &&
        msr == old(msr).(nextId := old(msr.nextId) + 3, score := r.0)
      ensures status == Proceeding ==> v in msr.score.voices && HasChunk(msr.score.voices[v])
      ensures old(msr.currentPart).Some? ==> (msr, v) == Lookup(old(msr), staffNumber, voiceNumber)
    {
      if msr.currentPart.None? {
        return Aborted(NoCurrentPart), 0;
      }
      var p := msr.currentPart.value;
      LookupConsistent(msr, staffNumber, voiceNumber);
      var r := EnsureVoice(msr.score, p, staffNumber, voiceNumber, msr.nextId);
      msr := msr.(score := r.0, nextId := msr.nextId + 3);
      v := r.1;
      status := Proceeding;
    }

    /** Replaces voice `v` by `voice`, which has a current chunk. */
    method UpdateVoice(v: Id, voice: Voice)
      requires Valid() && v in msr.score.voices && HasChunk(voice)
      modifies this`msr
      ensures Valid()
      ensures msr == old(msr).(score := old(msr.score).(voices := old(msr.score.voices)[v := voice]))
    {
      msr := msr.(score := SetVoice(msr.score, v, voice));
    }

    /**
     * `<staff>`: the staff number must be positive; the staff is created in the
     * current part if absent, and the number recorded for the element being
     * visited: a forward, a note or a direction, in that order of precedence.
     */
    method StaffElement(number: int) returns (status: Status)
      requires Valid()
      modifies this`currentStaffNumber, this`msr, this`diagnostics,
               this`currentForwardStaffNumber, this`currentNoteStaffNumber, this`currentDirectionStaffNumber
      ensures Valid()
      ensures currentStaffNumber == number
      ensures number <= 0 ==> status == Aborted(NonPositiveStaffNumber(number))
      ensures number > 0 && old(msr.currentPart).None? ==> status == Aborted(NoCurrentPart)
      ensures status == Proceeding ==>
        number > 0 && old(msr.currentPart).Some? &&
        var p := old(msr.currentPart).value;
        var parts := old(msr.score.parts);
        msr == old(msr).(nextId := old(msr.nextId) + 1,
          score := old(msr.score).(parts := parts[p := EnsureStaff(parts[p], number, old(msr.nextId))])) &&
        (onGoingForward ==> currentForwardStaffNumber == number) &&
        (!onGoingForward && onGoingNote ==> currentNoteStaffNumber == number) &&
        (!onGoingForward && !onGoingNote && onGoingDirection ==> currentDirectionStaffNumber == number) &&
        (!onGoingForward && !onGoingNote && !onGoingDirection && !onGoingDirectionType ==>
          diagnostics == old(diagnostics) + [Diagnostic(Error, StaffOutOfContext(number))]) &&
        (onGoingForward || onGoingNote || onGoingDirection || onGoingDirectionType ==>
          diagnostics == old(diagnostics))
    {
      currentStaffNumber := number;
      if number <= 0 {
        return Aborted(NonPositiveStaffNumber(number));
      }
      status := StaffInCurrentPart(number);
      if status.Aborted? {
        return;
      }
      if onGoingForward {
        currentForwardStaffNumber := number;
      } else if onGoingNote {
        currentNoteStaffNumber := number;
      } else if onGoingDirection {
        currentDirectionStaffNumber := number;
      } else if onGoingDirectionType {
      } else {
        diagnostics := diagnostics + [Diagnostic(Error, StaffOutOfContext(number))];
      }
    }

    /**
     * `<voice>`: in a forward, the number becomes the forward's voice and a
     * staff of that same number is created if absent; in a note, it becomes
     * the note's voice and the note's staff is created if absent; elsewhere it
     * is reported.
     */
    method VoiceElement(number: int) returns (status: Status)
      requires Valid()
      modifies this`currentVoiceNumber, this`msr, this`diagnostics,
               this`currentForwardVoiceNumber, this`currentNoteVoiceNumber
      ensures Valid()
      ensures currentVoiceNumber == number
      ensures (onGoingForward || onGoingNote) && old(msr.currentPart).None? ==> status == Aborted(NoCurrentPart)
      ensures onGoingForward && old(msr.currentPart).Some? ==>
        var p := old(msr.currentPart).value;
        var parts := old(msr.score.parts);
        status == Proceeding && currentForwardVoiceNumber == number &&
        msr == old(msr).(nextId := old(msr.nextId) + 1,
          score := old(msr.score).(parts := parts[p := EnsureStaff(parts[p], number, old(msr.nextId))]))
      ensures !onGoingForward && onGoingNote && old(msr.currentPart).Some? ==>
        var p := old(msr.currentPart).value;
        var parts := old(msr.score.parts);
        status == Proceeding && currentNoteVoiceNumber == number &&
        msr == old(msr).(nextId := old(msr.nextId) + 1,
          score := old(msr.score).(parts := parts[p := EnsureStaff(parts[p], currentNoteStaffNumber, old(msr.nextId))]))
      ensures !onGoingForward && !onGoingNote ==>
        status == Proceeding && msr == old(msr) &&
        diagnostics == old(diagnostics) + [Diagnostic(Error, VoiceOutOfContext(number))]
    {
      currentVoiceNumber := number;
      if onGoingForward {
        currentForwardVoiceNumber := number;
        status := StaffInCurrentPart(number);
      } else if onGoingNote {
        currentNoteVoiceNumber := number;
        status := StaffInCurrentPart(currentNoteStaffNumber);
      } else {
        diagnostics := diagnostics + [Diagnostic(Error, VoiceOutOfContext(number))];
        status := Proceeding;
      }
    }

    /** `<duration>`: the duration of the backup, forward or note being visited, reported elsewhere. */
    method Duration(duration: int)
      modifies this`currentBackupDuration, this`currentForwardDuration, this`noteData, this`diagnostics
      ensures onGoingBackup ==> currentBackupDuration == duration && unchanged(this`noteData, this`diagnostics)
      ensures !onGoingBackup && onGoingForward ==>
        currentForwardDuration == duration && unchanged(this`noteData, this`diagnostics)
      ensures !onGoingBackup && !onGoingForward && onGoingNote ==>
        noteData == old(noteData).(divisions := duration) && diagnostics == old(diagnostics)
      ensures !onGoingBackup && !onGoingForward && !onGoingNote ==>
        noteData == old(noteData) &&
        diagnostics == old(diagnostics) + [Diagnostic(Warning, DurationOutOfContext(duration))]
    {
      if onGoingBackup {
        currentBackupDuration := duration;
      } else if onGoingForward {
        currentForwardDuration := duration;
      } else if onGoingNote {
        noteData := noteData.(divisions := duration);
      } else {
        diagnostics := diagnostics + [Diagnostic(Warning, DurationOutOfContext(duration))];
      }
    }

    // -------------------------------------------------------------------------
    // The sub-elements of a note

    /**
     * `<note>`: the note data starts neutral, staff and voice numbers default
     * to 1, and the type, lyric, beam, tie and slur fields start afresh.
     */
    method NoteStart()
      modifies this`noteData, this`currentStaffNumber, this`currentVoiceNumber, this`currentNoteType,
               this`currentLyricsNumber, this`currentSyllabic, this`currentText, this`currentNoteHasLyrics,
               this`currentBeam, this`currentTie, this`currentSlurNumber, this`currentSlurType,
               this`currentSlurKind, this`currentNoteStaffNumber, this`currentNoteVoiceNumber, this`onGoingNote
      ensures noteData == NeutralNoteData && currentNoteType == ""
      ensures currentStaffNumber == 1 && currentVoiceNumber == 1
      ensures currentNoteStaffNumber == 1 && currentNoteVoiceNumber == 1
      ensures currentLyricsNumber == -1 && currentSyllabic == "" && currentText == "" && !currentNoteHasLyrics
      ensures currentBeam.None? && currentTie.None?
      ensures currentSlurNumber == -1 && currentSlurType == "" && currentSlurKind == NoSlur
      ensures onGoingNote
    {
      noteData := NeutralNoteData;
      currentNoteType := "";
      ResetNoteNumbers();
      ResetNoteLyrics();
      ResetNoteNotations();
      onGoingNote := true;
    }

    /** Staff and voice 1, unless `<staff>` or `<voice>` says otherwise. */
    method ResetNoteNumbers()
      modifies this`currentStaffNumber, this`currentVoiceNumber, this`currentNoteStaffNumber,
               this`currentNoteVoiceNumber
      ensures currentStaffNumber == 1 && currentVoiceNumber == 1
      ensures currentNoteStaffNumber == 1 && currentNoteVoiceNumber == 1
    {
      currentStaffNumber := 1;
      currentVoiceNumber := 1;
      currentNoteStaffNumber := 1;
      currentNoteVoiceNumber := 1;
    }

    method ResetNoteLyrics()
      modifies this`currentLyricsNumber, this`currentSyllabic, this`currentText, this`currentNoteHasLyrics
      ensures currentLyricsNumber == -1 && currentSyllabic == "" && currentText == "" && !currentNoteHasLyrics
    {
      currentLyricsNumber := -1;
      currentSyllabic := "";
      currentText := "";
      currentNoteHasLyrics := false;
    }

    method ResetNoteNotations()
      modifies this`currentBeam, this`currentTie, this`currentSlurNumber, this`currentSlurType, this`currentSlurKind
      ensures currentBeam.None? && currentTie.None?
      ensures currentSlurNumber == -1 && currentSlurType == "" && currentSlurKind == NoSlur
    {
      currentBeam := None;
      currentTie := None;
      currentSlurNumber := -1;
      currentSlurType := "";
      currentSlurKind := NoSlur;
    }

    /** `<step>`: its first character, reported unless it is the only one. */
    method Step(step: string)
      modifies this`noteData, this`diagnostics
      ensures noteData == old(noteData).(step := StepOf(step).value)
      ensures diagnostics == old(diagnostics) + Reported(StepOf(step).report)
    {
      var c := StepOf(step);
      Report(c.report);
      noteData := noteData.(step := c.value);
    }

    method Octave(octave: int)
      modifies this`noteData
      ensures noteData == old(noteData).(octave := octave)
    {
      noteData := noteData.(octave := octave);
    }

    /** `<dot/>`: one more dot. */
    method Dot()
      modifies this`noteData
      ensures noteData == old(noteData).(dots := old(noteData).dots + 1)
    {
      noteData := noteData.(dots := noteData.dots + 1);
    }

    method NoteType(noteType: string)
      modifies this`currentNoteType
      ensures currentNoteType == noteType
    {
      currentNoteType := noteType;
    }

    /** `<stem>`: the current stem, of unspecified kind when the value is unknown, which is reported. */
    method StemElement(stem: string)
      modifies this`currentStem, this`diagnostics
      ensures currentStem == Some(Stem(StemKindOf(stem, currentBeamValue).value))
      ensures diagnostics == old(diagnostics) + Reported(StemKindOf(stem, currentBeamValue).report)
    {
      var k := StemKindOf(stem, currentBeamValue);
      Report(k.report);
      currentStem := Some(Stem(k.value));
    }

    /** `<beam number=...>`: a known value becomes the current beam; an unknown one draws a warning. */
    method BeamElement(value: string, number: int)
      modifies this`currentBeamValue, this`currentBeamNumber, this`currentBeam, this`diagnostics
      ensures currentBeamValue == value && currentBeamNumber == number
      ensures diagnostics == old(diagnostics) + Reported(BeamKindOf(value).report)
      ensures BeamKindOf(value).value.Some? ==> currentBeam == Some(Beam(number, BeamKindOf(value).value.value))
      ensures BeamKindOf(value).value.None? ==> currentBeam == old(currentBeam)
    {
      currentBeamValue := value;
      currentBeamNumber := number;
      var k := BeamKindOf(value);
      Report(k.report);
      if k.value.Some? {
        currentBeam := Some(Beam(number, k.value.value));
      }
    }

    /** An articulation element: queued for the note being visited. */
    method Articulation(kind: ArticulationKind)
      modifies this`currentArticulations
      ensures currentArticulations == old(currentArticulations) + [kind]
    {
      currentArticulations := currentArticulations + [kind];
    }

    /** An ornament element: queued for the note being visited. */
    method Ornament(kind: OrnamentKind)
      modifies this`currentOrnaments
      ensures currentOrnaments == old(currentOrnaments) + [kind]
    {
      currentOrnaments := currentOrnaments + [kind];
    }

    /** A dynamics element (`<f/>`, `<ppp/>`, `<sfz/>`, ...): queued for a later note. */
    method DynamicsElement(element: string)
      modifies this`pendingDynamics
      ensures DynamicsKindOf(element).Some? ==>
        pendingDynamics == old(pendingDynamics) + [DynamicsKindOf(element).value]
      ensures DynamicsKindOf(element).None? ==> pendingDynamics == old(pendingDynamics)
    {
      var k := DynamicsKindOf(element);
      if k.Some? {
        pendingDynamics := pendingDynamics + [k.value];
      }
    }

    /** `<grace slash=...>`: the note is a grace note; the slash flag is read. */
    method Grace(slash: string)
      modifies this`noteData, this`currentGraceIsSlashed, this`diagnostics
      ensures noteData == old(noteData).(isGrace := true)
      ensures currentGraceIsSlashed == GraceSlashOf(slash, old(currentGraceIsSlashed)).value
      ensures diagnostics == old(diagnostics) + Reported(GraceSlashOf(slash, old(currentGraceIsSlashed)).report)
    {
      noteData := noteData.(isGrace := true);
      var g := GraceSlashOf(slash, currentGraceIsSlashed);
      Report(g.report);
      currentGraceIsSlashed := g.value;
    }

    /** `<chord/>`: the note joins the chord of the previous one. */
    method ChordTag()
      modifies this`noteData
      ensures noteData == old(noteData).(belongsToChord := true)
    {
      noteData := noteData.(belongsToChord := true);
    }

    /** `<time-modification>`: the note belongs to a tuplet. */
    method TimeModification()
      modifies this`noteData
      ensures noteData == old(noteData).(belongsToTuplet := true)
    {
      noteData := noteData.(belongsToTuplet := true);
    }

    method ActualNotes(n: int)
      modifies this`currentActualNotes
      ensures currentActualNotes == n
    {
      currentActualNotes := n;
    }

    method NormalNotes(n: int)
      modifies this`currentNormalNotes
      ensures currentNormalNotes == n
    {
      currentNormalNotes := n;
    }

    /** `<tuplet number=... type=...>`: the current tuplet number and kind. */
    method TupletTag(number: int, tupletType: string)
      modifies this`currentTupletNumber, this`currentTupletKind, this`diagnostics
      ensures currentTupletNumber == number && currentTupletKind == TupletKindOf(tupletType).value
      ensures diagnostics == old(diagnostics) + Reported(TupletKindOf(tupletType).report)
    {
      currentTupletNumber := number;
      var k := TupletKindOf(tupletType);
      Report(k.report);
      currentTupletKind := k.value;
    }

    method Rest()
      modifies this`noteData
      ensures noteData == old(noteData).(isRest := true)
    {
      noteData := noteData.(isRest := true);
    }

    /** `<display-step>`: read as `<step>` is, into the display step. */
    method DisplayStep(step: string)
      modifies this`displayStep, this`diagnostics
      ensures displayStep == StepOf(step).value
      ensures diagnostics == old(diagnostics) + Reported(StepOf(step).report)
    {
      var c := StepOf(step);
      Report(c.report);
      displayStep := c.value;
    }

    method DisplayOctave(octave: int)
      modifies this`displayOctave
      ensures displayOctave == octave
    {
      displayOctave := octave;
    }

    /** `</unpitched>`: the note is unpitched and takes the display step and octave. */
    method UnpitchedEnd()
      modifies this`noteData
      ensures noteData == old(noteData).(isUnpitched := true, step := displayStep, octave := displayOctave)
    {
      noteData := noteData.(isUnpitched := true, step := displayStep, octave := displayOctave);
    }

    /** `<tied type=...>`: the tie kind is read; a known kind becomes the note's tie. */
    method Tied(tiedType: string)
      modifies this`currentTieKind, this`currentTie, this`diagnostics
      ensures currentTieKind == TieKindOf(tiedType, onGoingSlur, currentSlurType).value
      ensures diagnostics == old(diagnostics) + Reported(TieKindOf(tiedType, onGoingSlur, currentSlurType).report)
      ensures currentTieKind != NoTie ==> currentTie == Some(currentTieKind)
      ensures currentTieKind == NoTie ==> currentTie == old(currentTie)
    {
      var k := TieKindOf(tiedType, onGoingSlur, currentSlurType);
      Report(k.report);
      currentTieKind := k.value;
      if k.value != NoTie {
        currentTie := Some(k.value);
      }
    }

    /** `<slur number=... type=...>`: the slur is read and queued for a later note. */
    method SlurTag(number: int, slurType: string)
      modifies this`currentSlurNumber, this`currentSlurType, this`currentSlurKind, this`onGoingSlur,
               this`pendingSlurs, this`diagnostics
      ensures var r := SlurOf(slurType, old(currentSlurKind), old(onGoingSlur));
        currentSlurNumber == number && currentSlurType == slurType &&
        currentSlurKind == r.kind && onGoingSlur == r.onGoingSlur &&
        pendingSlurs == old(pendingSlurs) + [Slur(number, r.kind)] &&
        diagnostics == old(diagnostics) + Reported(r.report)
    {
      currentSlurNumber := number;
      currentSlurType := slurType;
      var r := SlurOf(slurType, currentSlurKind, onGoingSlur);
      Report(r.report);
      currentSlurKind := r.kind;
      onGoingSlur := r.onGoingSlur;
      pendingSlurs := pendingSlurs + [Slur(number, r.kind)];
    }

    /** `<wedge type=...>`: the wedge is queued for a later note. */
    method WedgeTag(wedgeType: string)
      modifies this`pendingWedges, this`diagnostics
      ensures pendingWedges == old(pendingWedges) + [Wedge(WedgeKindOf(wedgeType).value)]
      ensures diagnostics == old(diagnostics) + Reported(WedgeKindOf(wedgeType).report)
    {
      var k := WedgeKindOf(wedgeType);
      Report(k.report);
      pendingWedges := pendingWedges + [Wedge(k.value)];
    }

    // -------------------------------------------------------------------------
    // Note assembly

    /**
     * The pending dynamics, words, slurs and wedges are attached to the note
     * (see WithPending), each queue drained in order. For a rest the queues
     * stay as they are and, unless rests' dynamics are delayed, a warning is
     * issued for the dynamics and one for each pending word, slur and wedge.
     */
    method AttachPending(n: Note) returns (r: Note)
      modifies this`pendingDynamics, this`pendingWords, this`pendingSlurs, this`pendingWedges, this`diagnostics
      ensures r == WithPending(n, old(pendingDynamics), old(pendingWords), old(pendingSlurs), old(pendingWedges),
                               noteData.isRest)
      ensures diagnostics == old(diagnostics) + RestWarnings(old(pendingDynamics), old(pendingWords),
        old(pendingSlurs), old(pendingWedges), noteData.isRest, delayRestsDynamics)
      ensures noteData.isRest ==> unchanged(this`pendingDynamics, this`pendingWords, this`pendingSlurs, this`pendingWedges)
      ensures !noteData.isRest ==> pendingDynamics == [] && pendingWords == [] && pendingSlurs == [] && pendingWedges == []
    {
      if noteData.isRest {
        if !delayRestsDynamics {
          var ws := WarnEach(|pendingWords|, PendingWords);
          var ss := WarnEach(|pendingSlurs|, PendingSlur);
          var es := WarnEach(|pendingWedges|, PendingWedge);
          var ds := if |pendingDynamics| > 0 then [RestWarning(PendingDynamics)] else [];
          diagnostics := diagnostics + (ds + ws + ss + es);
        }
        return n;
      }
      var dynamics := AppendAll(n.dynamics, pendingDynamics);
      var words := AppendAll(n.words, pendingWords);
      var slurs := AppendAll(n.slurs, pendingSlurs);
      var wedges := AppendAll(n.wedges, pendingWedges);
      r := n.(dynamics := dynamics, words := words, slurs := slurs, wedges := wedges);
      pendingDynamics, pendingWords, pendingSlurs, pendingWedges := [], [], [], [];
    }

    /** Replaces the current chunk's last element of voice `v` by nothing, returning it. */
    method RemoveLastFromVoice(v: Id) returns (e: Option<Element>)
      requires Valid() && v in msr.score.voices
      modifies this`msr
      ensures Valid()
      ensures var r := RemoveLast(old(msr.score.voices[v]));
        e == r.0 && msr == old(msr).(score := old(msr.score).(voices := old(msr.score.voices)[v := r.1]))
    {
      var r := RemoveLast(msr.score.voices[v]);
      UpdateVoice(v, r.1);
      e := r.0;
    }

    /** Appends `e` to the current chunk of voice `v`. */
    method AppendToVoice(v: Id, e: Element)
      requires Valid() && v in msr.score.voices
      modifies this`msr
      ensures Valid()
      ensures msr == old(msr).(score := old(msr.score).(voices := old(msr.score.voices)[v := Append(old(msr.score.voices[v]), e)]))
    {
      UpdateVoice(v, Append(msr.score.voices[v], e));
    }

    /**
     * The start of a chord in voice `v`: the chord is made from the last note
     * handled in the voice, which must be there and must be the element
     * removed from the end of the voice; the chord takes its place.
     */
    method StartChord(v: Id) returns (status: Status)
      requires Valid() && v in msr.score.voices
      modifies this`msr
      ensures Valid()
      ensures v !in lastHandledNoteInVoice ==> status == Aborted(NoLastHandledNote) && msr == old(msr)
      ensures v in lastHandledNoteInVoice && RemoveLast(old(msr.score.voices[v])).0 != Some(NoteElement(lastHandledNoteInVoice[v])) ==>
        status == Aborted(LastElementNotLastNote) && msr == old(msr)
      ensures v in lastHandledNoteInVoice && RemoveLast(old(msr.score.voices[v])).0 == Some(NoteElement(lastHandledNoteInVoice[v])) ==>
        status == Proceeding && msr == ChordStarted(old(msr), v, lastHandledNoteInVoice[v])
    {
      if v !in lastHandledNoteInVoice {
        return Aborted(NoLastHandledNote);
      }
      var last := lastHandledNoteInVoice[v];
      var chord := CreateChord(last);
      var removed := RemoveLast(msr.score.voices[v]);
      if removed.0 != Some(NoteElement(last)) {
        return Aborted(LastElementNotLastNote);
      }
      var c := msr.nextId;
      FreshChordWellFormed(msr.score, c, chord);
      msr := msr.(nextId := c + 1, currentChord := Some(c), onGoingChord := true,
                  score := msr.score.(chords := msr.score.chords[c := chord]));
      UpdateVoice(v, Append(removed.1, ChordElement(c)));
      status := Proceeding;
    }

    // -------------------------------------------------------------------------
    // Note assembly at `</note>`

    /** Voice `v` takes `dpw` divisions per whole note. */
    method SetVoiceDivisions(v: Id, dpw: int)
      requires Valid() && v in msr.score.voices
      modifies this`msr
      ensures Valid()
      ensures msr == old(msr).(score := old(msr.score).(voices :=
        old(msr.score.voices)[v := old(msr.score.voices[v]).(divisionsPerWholeNote := dpw)]))
    {
      UpdateVoice(v, msr.score.voices[v].(divisionsPerWholeNote := dpw));
    }

    /**
     * The note data completed at `</note>`: the current staff and voice numbers
     * and the note type are recorded, and a grace note with a type takes the
     * duration of that type, `typeDivisions`, reporting any error in computing it.
     */
    method CompleteNoteData(typeDivisions: Conversion<int>)
      modifies this`noteData, this`diagnostics
      ensures var grace := currentNoteType != "" && old(noteData).isGrace;
        noteData == old(noteData).(staffNumber := currentStaffNumber, voiceNumber := currentVoiceNumber,
          noteType := currentNoteType, divisions := if grace then typeDivisions.value else old(noteData).divisions) &&
        diagnostics == old(diagnostics) + (if grace then Reported(typeDivisions.report) else [])
    {
      noteData := noteData.(staffNumber := currentStaffNumber, voiceNumber := currentVoiceNumber,
                            noteType := currentNoteType);
      if |noteData.noteType| > 0 && noteData.isGrace {
        noteData := noteData.(divisions := typeDivisions.value);
        Report(typeDivisions.report);
      }
    }

    /**
     * The note created at `</note>` in voice `v`, whose divisions per whole note
     * become four times the divisions per quarter note: it has a fresh id, the
     * completed note data, those divisions, the current tie, stem and beam, and
     * the current articulations and ornaments, which are drained; its kind is
     * left for the handler that places it.
     */
    method CreateNote(v: Id, typeDivisions: Conversion<int>) returns (n: Note)
      requires Valid() && v in msr.score.voices
      modifies this`noteData, this`diagnostics, this`msr, this`currentArticulations, this`currentOrnaments
      ensures Valid()
      ensures var grace := currentNoteType != "" && old(noteData).isGrace;
        noteData == old(noteData).(staffNumber := currentStaffNumber, voiceNumber := currentVoiceNumber,
          noteType := currentNoteType, divisions := if grace then typeDivisions.value else old(noteData).divisions) &&
        diagnostics == old(diagnostics) + (if grace then Reported(typeDivisions.report) else [])
      ensures n == Note(old(msr.nextId), noteData, 4 * old(currentDivisionsPerQuarterNote), UnknownNoteKind,
        old(currentTie), old(currentStem), old(currentBeam), old(currentArticulations), old(currentOrnaments), [], [], [], [])
      ensures currentArticulations == [] && currentOrnaments == []
      ensures msr == old(msr).(nextId := old(msr.nextId) + 1, score := old(msr.score).(voices :=
        old(msr.score.voices)[v := old(msr.score.voices[v]).(divisionsPerWholeNote := 4 * old(currentDivisionsPerQuarterNote))]))
    {
      var dpw := 4 * currentDivisionsPerQuarterNote;
      CompleteNoteData(typeDivisions);
      SetVoiceDivisions(v, dpw);
      var articulations := AppendAll([], currentArticulations);
      var ornaments := AppendAll([], currentOrnaments);
      currentArticulations, currentOrnaments := [], [];
      WellFormedMonotonic(msr.score, msr.nextId, msr.nextId + 1);
      n := Note(msr.nextId, noteData, dpw, UnknownNoteKind, currentTie, currentStem, currentBeam,
                articulations, ornaments, [], [], [], []);
      msr := msr.(nextId := msr.nextId + 1);
    }

    /**
     * A further note joins the current chord, of which it becomes the last
     * member, and the chord receives copies of the note's decorations.
     */
    method JoinChord(n: Note)
      requires Valid() && msr.currentChord.Some?
      modifies this`msr
      ensures Valid()
      ensures msr == ChordJoined(old(msr), n)
    {
      var c := msr.currentChord.value;
      var chord := CopyNoteElements(n, AddNoteToChord(msr.score.chords[c], n));
      msr := msr.(score := msr.score.(chords := msr.score.chords[c := chord]));
    }

    /**
     * The second note of a chord: the chord is started in the voice of the
     * note's staff and of the current voice number, from the last note
     * handled there.
     */
    method StartChordInVoice() returns (status: Status)
      requires Valid()
      modifies this`msr
      ensures Valid()
      ensures old(msr.currentPart).None? ==> status == Aborted(NoCurrentPart) && msr == old(msr)
      ensures old(msr.currentPart).Some? ==>
        (status, msr) == ChordStartedInVoice(old(msr), currentNoteStaffNumber, currentVoiceNumber, lastHandledNoteInVoice)
    {
      var w;
      status, w := VoiceInCurrentPart(currentNoteStaffNumber, currentVoiceNumber);
      if status.Aborted? {
        return;
      }
      status := StartChord(w);
    }

    /**
     * `handleNoteBelongingToAChord`: a rest is reported. Unless a chord is going
     * on, one is started in the note's voice from the last note handled there;
     * the note, as a chord member, then joins the current chord.
     */
    method HandleChordNote(n: Note) returns (status: Status, placed: Note)
      requires Valid()
      modifies this`msr, this`diagnostics
      ensures Valid()
      ensures placed == n.(kind := ChordMemberNote)
      ensures (status, msr) == ChordPlaced(old(msr), placed, old(currentNoteStaffNumber), old(currentVoiceNumber),
                                           old(lastHandledNoteInVoice))
      ensures diagnostics == old(diagnostics) + (if noteData.isRest then [Diagnostic(Error, RestInChord)] else [])
    {
      if noteData.isRest {
        diagnostics := diagnostics + [Diagnostic(Error, RestInChord)];
      }
      placed := n.(kind := ChordMemberNote);
      status := JoinOrStartChord(placed);
    }

    /** The chord part of `handleNoteBelongingToAChord`, once the note is a chord member. */
    method JoinOrStartChord(placed: Note) returns (status: Status)
      requires Valid()
      modifies this`msr
      ensures Valid()
      ensures (status, msr) == ChordPlaced(old(msr), placed, old(currentNoteStaffNumber), old(currentVoiceNumber),
                                           old(lastHandledNoteInVoice))
    {
      if !msr.onGoingChord {
        status := StartChordInVoice();
        if status.Aborted? {
          return;
        }
      }
      JoinChord(placed);
      status := Proceeding;
    }

    /**
     * `finalizeTuplet` in voice `v`: the note is added to the innermost open
     * tuplet, which is closed; it joins the tuplet beneath it, or goes to the
     * voice when it was the outermost one.
     */
    method FinalizeTuplet(v: Id, last: Note) returns (status: Status)
      requires Valid() && v in msr.score.voices
      modifies this`msr, this`tupletsStack
      ensures Valid()
      ensures |old(tupletsStack)| == 0 ==> status == Aborted(EmptyTupletStack) && msr == old(msr)
      ensures |old(tupletsStack)| > 0 ==>
        var r := CloseTop(old(tupletsStack), MemberNote(last));
        status == Proceeding && tupletsStack == r.0 &&
        (r.1.None? ==> msr == old(msr)) &&
        (r.1.Some? ==> msr == AppendedTo(old(msr), v, TupletElement(r.1.value)))
    {
      if |tupletsStack| == 0 {
        return Aborted(EmptyTupletStack);
      }
      var r := CloseTop(tupletsStack, MemberNote(last));
      tupletsStack := r.0;
      if r.1.Some? {
        AppendToVoice(v, TupletElement(r.1.value));
      }
      status := Proceeding;
    }

    /**
     * The placing of a tuplet member note according to the current tuplet
     * kind: a start opens a tuplet with the note as its first member and
     * switches to continuing; a continuation adds the note to the innermost
     * open tuplet; a stop finalizes it in the voice of the note's staff and
     * of the current voice number; no tuplet leaves everything as it is.
     */
    method PlaceInTuplet(n: Note) returns (status: Status)
      requires Valid()
      modifies this`msr, this`tupletsStack, this`currentTupletKind
      ensures Valid()
      ensures (status, msr) == TupletPlaced(old(msr), n, old(currentNoteStaffNumber), old(currentVoiceNumber),
                                            old(tupletsStack), old(currentTupletKind))
      ensures old(currentTupletKind) == StartTuplet ==>
        currentTupletKind == ContinueTuplet &&
        tupletsStack == old(tupletsStack) +
          [Tuplet(currentTupletNumber, currentActualNotes, currentNormalNotes, n.divisionsPerWholeNote, [MemberNote(n)])]
      ensures old(currentTupletKind) == ContinueTuplet ==>
        currentTupletKind == ContinueTuplet &&
        (|old(tupletsStack)| > 0 ==> tupletsStack == AddToTop(old(tupletsStack), MemberNote(n)))
      ensures old(currentTupletKind) == StopTuplet ==>
        currentTupletKind == StopTuplet &&
        (old(msr.currentPart).Some? && |old(tupletsStack)| > 0 ==>
          tupletsStack == CloseTop(old(tupletsStack), MemberNote(n)).0)
      ensures old(currentTupletKind) == NoTuplet ==> tupletsStack == old(tupletsStack) && currentTupletKind == NoTuplet
    {
      status := Proceeding;
      match currentTupletKind
      case StartTuplet =>
        tupletsStack := tupletsStack +
          [Tuplet(currentTupletNumber, currentActualNotes, currentNormalNotes, n.divisionsPerWholeNote, [MemberNote(n)])];
        currentTupletKind := ContinueTuplet;
      case ContinueTuplet =>
        if |tupletsStack| == 0 {
          return Aborted(EmptyTupletStack);
        }
        tupletsStack := AddToTop(tupletsStack, MemberNote(n));
      case StopTuplet =>
        status := StopTupletInVoice(n);
      case NoTuplet =>
    }

    /** A stop finalizes the innermost tuplet in the voice of the note's staff and of the current voice number. */
    method StopTupletInVoice(n: Note) returns (status: Status)
      requires Valid()
      modifies this`msr, this`tupletsStack
      ensures Valid()
      ensures old(msr.currentPart).None? ==> status == Aborted(NoCurrentPart) && msr == old(msr)
      ensures old(msr.currentPart).Some? ==>
        var (m, w) := Lookup(old(msr), currentNoteStaffNumber, currentVoiceNumber);
        (|old(tupletsStack)| == 0 ==> status == Aborted(EmptyTupletStack) && msr == m) &&
        (|old(tupletsStack)| > 0 ==>
          var r := CloseTop(old(tupletsStack), MemberNote(n));
          status == Proceeding && tupletsStack == r.0 &&
          msr == if r.1.Some? then AppendedTo(m, w, TupletElement(r.1.value)) else m)
    {
      var w;
      status, w := VoiceInCurrentPart(currentNoteStaffNumber, currentVoiceNumber);
      if status.Aborted? {
        return;
      }
      status := FinalizeTuplet(w, n);
    }

    /**
     * `handleNoteBelongingToATuplet`: the note becomes a tuplet member, the
     * pending decorations are attached to it, and it is placed according to
     * the current tuplet kind.
     */
    method HandleTupletNote(n: Note) returns (status: Status, placed: Note)
      requires Valid()
      modifies this`msr, this`tupletsStack, this`currentTupletKind, this`diagnostics,
               this`pendingDynamics, this`pendingWords, this`pendingSlurs, this`pendingWedges
      ensures Valid()
      ensures (status, msr) == TupletPlaced(old(msr), placed, old(currentNoteStaffNumber), old(currentVoiceNumber),
                                            old(tupletsStack), old(currentTupletKind))
      ensures placed == WithPending(n.(kind := TupletMemberNote), old(pendingDynamics), old(pendingWords),
                                    old(pendingSlurs), old(pendingWedges), noteData.isRest)
      ensures diagnostics == old(diagnostics) + RestWarnings(old(pendingDynamics), old(pendingWords),
        old(pendingSlurs), old(pendingWedges), noteData.isRest, delayRestsDynamics)
      ensures !noteData.isRest ==> pendingDynamics == [] && pendingWords == [] && pendingSlurs == [] && pendingWedges == []
      ensures old(currentTupletKind) == StartTuplet ==>
        currentTupletKind == ContinueTuplet &&
        tupletsStack == old(tupletsStack) +
          [Tuplet(currentTupletNumber, currentActualNotes, currentNormalNotes, placed.divisionsPerWholeNote, [MemberNote(placed)])]
      ensures old(currentTupletKind) == ContinueTuplet ==>
        currentTupletKind == ContinueTuplet &&
        (|old(tupletsStack)| > 0 ==> tupletsStack == AddToTop(old(tupletsStack), MemberNote(placed)))
      ensures old(currentTupletKind) == StopTuplet ==>
        currentTupletKind == StopTuplet &&
        (old(msr.currentPart).Some? && |old(tupletsStack)| > 0 ==>
          tupletsStack == CloseTop(old(tupletsStack), MemberNote(placed)).0)
      ensures old(currentTupletKind) == NoTuplet ==> tupletsStack == old(tupletsStack) && currentTupletKind == NoTuplet
    {
      placed := AttachPending(n.(kind := TupletMemberNote));
      status := PlaceInTuplet(placed);
    }

    /**
     * The first grace note of a group: a grace notes group, slashed or not as
     * the current grace says, is created in voice `v` with a fresh id, appended
     * to the voice and made current.
     */
    method StartGracenotes(v: Id)
      requires Valid() && v in msr.score.voices
      modifies this`msr
      ensures Valid()
      ensures msr == GracenotesStarted(old(msr), v, currentGraceIsSlashed)
      ensures msr.currentPart == old(msr.currentPart)
    {
      var g := msr.nextId;
      FreshGracenotesWellFormed(msr.score, g, Gracenotes(currentGraceIsSlashed, v, []));
      msr := msr.(nextId := g + 1, currentGracenotes := Some(g),
                  score := msr.score.(gracenotes := msr.score.gracenotes[g := Gracenotes(currentGraceIsSlashed, v, [])]));
      AppendToVoice(v, GracenotesElement(g));
    }

    /** A grace note is appended to the current grace notes group. */
    method AddGraceNote(n: Note)
      requires Valid() && msr.currentGracenotes.Some?
      modifies this`msr
      ensures Valid()
      ensures msr == GraceAdded(old(msr), n)
      ensures msr.currentPart == old(msr.currentPart)
    {
      var g := msr.currentGracenotes.value;
      var group := msr.score.gracenotes[g];
      msr := msr.(score := msr.score.(gracenotes := msr.score.gracenotes[g := group.(notes := group.notes + [n])]));
    }

    /** A note or rest that is not a grace note ends any grace notes group and is appended to voice `v`. */
    method PlaceStandaloneNote(v: Id, n: Note)
      requires Valid() && v in msr.score.voices
      modifies this`msr
      ensures Valid()
      ensures msr == AppendedTo(old(msr).(currentGracenotes := None), v, NoteElement(n))
      ensures msr.currentPart == old(msr.currentPart)
    {
      msr := msr.(currentGracenotes := None);
      AppendToVoice(v, NoteElement(n));
    }

    /**
     * `handleTupletsPendingOnTupletStack`: in the voice of the note's staff and
     * of the current voice number, every open tuplet is closed into the one
     * beneath it, and the outermost goes to the voice; the stack ends empty.
     */
    method FlushTuplets() returns (status: Status)
      requires Valid()
      modifies this`msr, this`tupletsStack
      ensures Valid()
      ensures old(msr.currentPart).None? ==>
        status == Aborted(NoCurrentPart) && msr == old(msr) && tupletsStack == old(tupletsStack)
      ensures old(msr.currentPart).Some? ==>
        var l := Lookup(old(msr), currentNoteStaffNumber, currentVoiceNumber);
        status == Proceeding && tupletsStack == [] &&
        (|old(tupletsStack)| == 0 ==> msr == l.0) &&
        (|old(tupletsStack)| > 0 ==> msr == AppendedTo(l.0, l.1, TupletElement(NestChain(old(tupletsStack)))))
    {
      if msr.currentPart.None? {
        return Aborted(NoCurrentPart);
      }
      var top := NestAll(tupletsStack);
      tupletsStack := [];
      status := AppendTupletInVoice(currentNoteStaffNumber, currentVoiceNumber, top);
    }

    /** The voice of those numbers is fetched, created if absent, and the tuplet `top`, if any, appended to it. */
    method AppendTupletInVoice(staffNumber: int, voiceNumber: int, top: Option<Tuplet>) returns (status: Status)
      requires Valid() && msr.currentPart.Some?
      modifies this`msr
      ensures Valid() && status == Proceeding
      ensures var l := Lookup(old(msr), staffNumber, voiceNumber);
        (top.None? ==> msr == l.0) && (top.Some? ==> msr == AppendedTo(l.0, l.1, TupletElement(top.value)))
    {
      var w;
      status, w := VoiceInCurrentPart(staffNumber, voiceNumber);
      if top.Some? {
        AppendToVoice(w, TupletElement(top.value));
      }
    }

    /**
     * `handleLyrics`: the lyric chunks met in the note point to it, the note
     * being known by its id, and the list of them is emptied.
     */
    method HandleLyrics(note: Id)
      requires Valid()
      modifies this`msr
      ensures Valid()
      ensures msr == old(msr).(currentNoteLyricchunks := [], score := old(msr.score).(lyricschunks := msr.score.lyricschunks))
      ensures msr.score.lyricschunks.Keys == old(msr.score.lyricschunks).Keys
      ensures forall k :: k in old(msr.score.lyricschunks) && k in old(msr.currentNoteLyricchunks) ==>
        msr.score.lyricschunks[k] == old(msr.score.lyricschunks[k]).(note := Some(note))
      ensures forall k :: k in old(msr.score.lyricschunks) && k !in old(msr.currentNoteLyricchunks) ==>
        msr.score.lyricschunks[k] == old(msr.score.lyricschunks[k])
      ensures msr == LyricsBound(old(msr), note)
    {
      var chunks := LinkLyricschunks(msr.score.lyricschunks, msr.currentNoteLyricchunks, note);
      msr := msr.(currentNoteLyricchunks := [], score := msr.score.(lyricschunks := chunks));
    }

    /**
     * `handleStandaloneOrGraceNoteOrRest`, in the voice of the note's staff and
     * of the current voice number. A grace note joins the current grace notes
     * group, which is started if there is none; a rest or any other note ends
     * the group and is appended to the voice; either way the pending
     * decorations are attached to it first. Then the open tuplets are flushed,
     * the lyric chunks met point to the note, a slur start or stop records or
     * forgets the lyric chunk kind of the slur, and no chord is going on.
     */
    method HandleStandaloneNote(n: Note) returns (status: Status, placed: Note)
      requires Valid()
      modifies this`msr, this`tupletsStack, this`diagnostics, this`firstLyricschunkInSlurKind,
               this`pendingDynamics, this`pendingWords, this`pendingSlurs, this`pendingWedges
      ensures Valid()
      ensures old(msr.currentPart).None? ==> status == Aborted(NoCurrentPart) && msr == old(msr)
      ensures (status, msr) == StandalonePlaced(old(msr), placed, old(noteData).isGrace, old(currentGraceIsSlashed),
                                                old(currentNoteStaffNumber), old(currentVoiceNumber), old(tupletsStack))
      ensures old(msr.currentPart).Some? ==>
        status == Proceeding &&
        placed == WithPending(n.(kind := if old(noteData).isGrace then GraceNote else if old(noteData).isRest then RestNote else StandaloneNote),
          old(pendingDynamics), old(pendingWords), old(pendingSlurs), old(pendingWedges), old(noteData).isRest) &&
        diagnostics == old(diagnostics) + RestWarnings(old(pendingDynamics), old(pendingWords),
          old(pendingSlurs), old(pendingWedges), old(noteData).isRest, delayRestsDynamics)
      ensures status == Proceeding ==>
        tupletsStack == [] && msr.currentNoteLyricchunks == [] && !msr.onGoingChord &&
        firstLyricschunkInSlurKind == SlurChunkKind(old(currentSlurKind), old(currentLyricschunkKind), old(firstLyricschunkInSlurKind))
    {
      placed := n;
      if msr.currentPart.None? {
        return Aborted(NoCurrentPart), placed;
      }
      var w := VoiceOfCurrentPart(currentNoteStaffNumber, currentVoiceNumber);
      status, placed := StandaloneNoteInVoice(w, n);
    }

    /** The voice of those numbers in the current part, created if absent. */
    method VoiceOfCurrentPart(staffNumber: int, voiceNumber: int) returns (v: Id)
      requires Valid() && msr.currentPart.Some?
      modifies this`msr
      ensures Valid() && v in msr.score.voices && msr.currentPart.Some?
      ensures (msr, v) == Lookup(old(msr), staffNumber, voiceNumber)
      ensures diagnostics == old(diagnostics)
    {
      var status;
      status, v := VoiceInCurrentPart(staffNumber, voiceNumber);
    }

    /**
     * `handleStandaloneOrGraceNoteOrRest` once the voice `v` of the note is
     * known: the note gets its kind and the pending decorations, then is
     * placed in the voice or its grace notes group.
     */
    method StandaloneNoteInVoice(v: Id, n: Note) returns (status: Status, placed: Note)
      requires Valid() && v in msr.score.voices && msr.currentPart.Some?
      modifies this`msr, this`tupletsStack, this`diagnostics, this`firstLyricschunkInSlurKind,
               this`pendingDynamics, this`pendingWords, this`pendingSlurs, this`pendingWedges
      ensures Valid() && status == Proceeding
      ensures placed == WithPending(n.(kind := if old(noteData).isGrace then GraceNote else if old(noteData).isRest then RestNote else StandaloneNote),
        old(pendingDynamics), old(pendingWords), old(pendingSlurs), old(pendingWedges), old(noteData).isRest)
      ensures diagnostics == old(diagnostics) + RestWarnings(old(pendingDynamics), old(pendingWords),
        old(pendingSlurs), old(pendingWedges), old(noteData).isRest, delayRestsDynamics)
      ensures msr == StandaloneInVoice(old(msr), v, placed, old(noteData).isGrace, old(currentGraceIsSlashed),
                                       old(currentNoteStaffNumber), old(currentVoiceNumber), old(tupletsStack))
      ensures tupletsStack == [] && msr.currentNoteLyricchunks == [] && !msr.onGoingChord
      ensures firstLyricschunkInSlurKind == SlurChunkKind(old(currentSlurKind), old(currentLyricschunkKind), old(firstLyricschunkInSlurKind))
    {
      ghost var m0, isGrace, slashed, staff, voice, stack :=
        msr, noteData.isGrace, currentGraceIsSlashed, currentNoteStaffNumber, currentVoiceNumber, tupletsStack;
      ghost var slur, chunk, first := currentSlurKind, currentLyricschunkKind, firstLyricschunkInSlurKind;
      ghost var isRest := noteData.isRest;
      placed := AttachPending(n.(kind := if noteData.isGrace then GraceNote else if noteData.isRest then RestNote else StandaloneNote));
      assert msr == m0 && noteData.isGrace == isGrace && currentGraceIsSlashed == slashed;
      assert currentNoteStaffNumber == staff && currentVoiceNumber == voice && tupletsStack == stack;
      assert currentSlurKind == slur && currentLyricschunkKind == chunk && firstLyricschunkInSlurKind == first;
      assert noteData.isRest == isRest;
      ghost var d1 := diagnostics;
      status := PlaceInVoice(v, placed);
      assert diagnostics == d1;
    }

    /**
     * The note `n`, decorated, in voice `v`: a grace note joins the current
     * grace notes group, started if there is none; a rest or any other note
     * ends the group and is appended to the voice. Then the note is ended.
     */
    method PlaceInVoice(v: Id, n: Note) returns (status: Status)
      requires Valid() && v in msr.score.voices && msr.currentPart.Some?
      modifies this`msr, this`tupletsStack, this`firstLyricschunkInSlurKind
      ensures Valid() && status == Proceeding
      ensures diagnostics == old(diagnostics)
      ensures msr == StandaloneInVoice(old(msr), v, n, old(noteData).isGrace, old(currentGraceIsSlashed),
                                       old(currentNoteStaffNumber), old(currentVoiceNumber), old(tupletsStack))
      ensures tupletsStack == [] && msr.currentNoteLyricchunks == [] && !msr.onGoingChord
      ensures firstLyricschunkInSlurKind == SlurChunkKind(old(currentSlurKind), old(currentLyricschunkKind), old(firstLyricschunkInSlurKind))
    {
      ghost var m0, isGrace, slashed, staff, voice, stack :=
        msr, noteData.isGrace, currentGraceIsSlashed, currentNoteStaffNumber, currentVoiceNumber, tupletsStack;
      StandaloneInVoiceEnded(m0, v, n, isGrace, slashed, staff, voice, stack);
      PlaceNonChordNote(v, n);
      status := EndStandaloneNote(n.id);
    }

    /**
     * The note `n` in voice `v`: a grace note joins the current grace notes
     * group, started if there is none; a rest or any other note ends the group
     * and is appended to the voice.
     */
    method PlaceNonChordNote(v: Id, n: Note)
      requires Valid() && v in msr.score.voices
      modifies this`msr
      ensures Valid()
      ensures msr == NonChordPlaced(old(msr), v, n, old(noteData).isGrace, old(currentGraceIsSlashed))
      ensures msr.currentPart == old(msr.currentPart)
    {
      if !noteData.isGrace {
        PlaceStandaloneNote(v, n);
      } else if msr.currentGracenotes.None? {
        StartGracenotes(v);
        AddGraceNote(n);
      } else {
        AddGraceNote(n);
      }
    }

    /**
     * The end of `handleStandaloneOrGraceNoteOrRest`: the open tuplets are
     * flushed, the lyric chunks met point to the note, a slur start or stop
     * records or forgets the lyric chunk kind of the slur, and no chord is
     * going on.
     */
    method EndStandaloneNote(note: Id) returns (status: Status)
      requires Valid()
      modifies this`msr, this`tupletsStack, this`firstLyricschunkInSlurKind
      ensures Valid()
      ensures old(msr.currentPart).None? ==> status == Aborted(NoCurrentPart) && msr == old(msr)
      ensures old(msr.currentPart).Some? ==>
        status == Proceeding &&
        msr == StandaloneEnded(old(msr), old(currentNoteStaffNumber), old(currentVoiceNumber), old(tupletsStack), note)
      ensures status == Proceeding ==>
        tupletsStack == [] && msr.currentNoteLyricchunks == [] && !msr.onGoingChord &&
        firstLyricschunkInSlurKind == SlurChunkKind(old(currentSlurKind), old(currentLyricschunkKind), old(firstLyricschunkInSlurKind))
    {
      ghost var slur, chunk, first := currentSlurKind, currentLyricschunkKind, firstLyricschunkInSlurKind;
      status := FlushTuplets();
      if status.Aborted? {
        return;
      }
      assert msr == TupletsFlushed(old(msr), currentNoteStaffNumber, currentVoiceNumber, old(tupletsStack));
      assert currentSlurKind == slur && currentLyricschunkKind == chunk && firstLyricschunkInSlurKind == first;
      BindLyricsAndSlur(note);
    }

    /**
     * After the tuplets are flushed: the lyric chunks met point to the note, a
     * slur start or stop records or forgets the lyric chunk kind of the slur,
     * and no chord is going on.
     */
    method BindLyricsAndSlur(note: Id)
      requires Valid()
      modifies this`msr, this`firstLyricschunkInSlurKind
      ensures Valid()
      ensures msr == LyricsBound(old(msr), note).(onGoingChord := false)
      ensures firstLyricschunkInSlurKind == SlurChunkKind(old(currentSlurKind), old(currentLyricschunkKind), old(firstLyricschunkInSlurKind))
    {
      HandleLyrics(note);
      if currentSlurKind == StartSlur {
        firstLyricschunkInSlurKind := currentLyricschunkKind;
      } else if currentSlurKind == StopSlur {
        firstLyricschunkInSlurKind := NoChunk;
      }
      EndChord();
    }

    /** No chord is going on any more. */
    method EndChord()
      requires Valid()
      modifies this`msr
      ensures Valid()
      ensures msr == old(msr).(onGoingChord := false)
    {
      msr := msr.(onGoingChord := false);
    }

    /**
     * The dispatch of `</note>`: a chord member, else a tuplet member, else a
     * grace note, standalone note or rest. The placed note keeps its id and
     * data and gets the kind that dispatch gives it.
     */
    method PlaceNote(n: Note) returns (status: Status, placed: Note)
      requires Valid()
      modifies this`msr, this`diagnostics, this`pendingDynamics, this`pendingWords, this`pendingSlurs,
               this`pendingWedges, this`tupletsStack, this`currentTupletKind, this`firstLyricschunkInSlurKind
      ensures Valid()
      ensures placed.id == n.id && placed.data == n.data && placed.kind == KindOfNote(old(noteData))
      ensures old(noteData).belongsToChord ==>
        (status, msr) == ChordPlaced(old(msr), placed, old(currentNoteStaffNumber), old(currentVoiceNumber),
                                     old(lastHandledNoteInVoice))
      ensures !old(noteData).belongsToChord && old(noteData).belongsToTuplet ==>
        (status, msr) == TupletPlaced(old(msr), placed, old(currentNoteStaffNumber), old(currentVoiceNumber),
                                      old(tupletsStack), old(currentTupletKind))
      ensures !old(noteData).belongsToChord && !old(noteData).belongsToTuplet ==>
        (status, msr) == StandalonePlaced(old(msr), placed, old(noteData).isGrace, old(currentGraceIsSlashed),
                                          old(currentNoteStaffNumber), old(currentVoiceNumber), old(tupletsStack))
      ensures !old(noteData).belongsToChord && !old(noteData).belongsToTuplet && status == Proceeding ==>
        tupletsStack == [] && msr.currentNoteLyricchunks == [] && !msr.onGoingChord
    {
      if noteData.belongsToChord {
        status, placed := HandleChordNote(n);
      } else if noteData.belongsToTuplet {
        status, placed := HandleTupletNote(n);
      } else {
        status, placed := HandleStandaloneNote(n);
        if status.Aborted? {
          placed := n.(kind := KindOfNote(noteData));
        }
      }
    }

    /** The end of a chord: no current chord, and none going on. */
    method ForgetChord()
      requires Valid()
      modifies this`msr
      ensures Valid()
      ensures msr == old(msr).(currentChord := None, onGoingChord := false)
    {
      msr := msr.(currentChord := None, onGoingChord := false);
    }

    /** The note created at `</note>` in the voice of the note's staff and voice numbers in the current part, looked up first. */
    method CreateNoteInVoice(typeDivisions: Conversion<int>) returns (v: Id, n: Note)
      requires Valid() && msr.currentPart.Some?
      modifies this`msr, this`noteData, this`diagnostics, this`currentArticulations, this`currentOrnaments
      ensures Valid()
      ensures (msr, v) == NoteCreated(old(msr), old(currentNoteStaffNumber), old(currentNoteVoiceNumber),
                                      4 * old(currentDivisionsPerQuarterNote))
      ensures n == Note(old(msr.nextId) + 3, noteData, 4 * old(currentDivisionsPerQuarterNote), UnknownNoteKind,
                        old(currentTie), old(currentStem), old(currentBeam), old(currentArticulations), old(currentOrnaments),
                        [], [], [], [])
      ensures currentArticulations == [] && currentOrnaments == []
      ensures (currentNoteStaffNumber, currentVoiceNumber, tupletsStack, currentTupletKind, currentGraceIsSlashed,
               lastHandledNoteInVoice, onGoingNote) ==
              old((currentNoteStaffNumber, currentVoiceNumber, tupletsStack, currentTupletKind, currentGraceIsSlashed,
                   lastHandledNoteInVoice, onGoingNote))
    {
      v := VoiceOfCurrentPart(currentNoteStaffNumber, currentNoteVoiceNumber);
      n := CreateNote(v, typeDivisions);
    }

    /**
     * `</note>`: the note is created in the voice of the note's staff and
     * voice numbers and placed; a note outside chords ends the current chord;
     * the note becomes the last one handled in that voice, in case the next
     * note turns out to begin a chord with it.
     */
    method NoteEnd(typeDivisions: Conversion<int>) returns (status: Status, v: Id, placed: Note)
      requires Valid()
      modifies this`msr, this`noteData, this`diagnostics, this`currentArticulations, this`currentOrnaments,
               this`pendingDynamics, this`pendingWords, this`pendingSlurs, this`pendingWedges,
               this`tupletsStack, this`currentTupletKind, this`firstLyricschunkInSlurKind,
               this`lastHandledNoteInVoice, this`onGoingNote
      ensures Valid()
      ensures old(msr.currentPart).None? ==> status == Aborted(NoCurrentPart) && msr == old(msr)
      ensures old(msr.currentPart).Some? ==>
        v == NoteCreated(old(msr), old(currentNoteStaffNumber), old(currentNoteVoiceNumber), 4 * old(currentDivisionsPerQuarterNote)).1 &&
        placed.id == old(msr.nextId) + 3 && placed.data == noteData && placed.kind == KindOfNote(placed.data)
      ensures old(msr.currentPart).Some? && placed.data.belongsToChord ==>
        var c := NoteCreated(old(msr), old(currentNoteStaffNumber), old(currentNoteVoiceNumber), 4 * old(currentDivisionsPerQuarterNote));
        (status, msr) == ChordPlaced(c.0, placed, old(currentNoteStaffNumber), old(currentVoiceNumber), old(lastHandledNoteInVoice))
      ensures old(msr.currentPart).Some? && !placed.data.belongsToChord && placed.data.belongsToTuplet ==>
        var c := NoteCreated(old(msr), old(currentNoteStaffNumber), old(currentNoteVoiceNumber), 4 * old(currentDivisionsPerQuarterNote));
        (status, msr) == ChordForgotten(TupletPlaced(c.0, placed, old(currentNoteStaffNumber), old(currentVoiceNumber),
                                                     old(tupletsStack), old(currentTupletKind)), old(onGoingNote))
      ensures old(msr.currentPart).Some? && !placed.data.belongsToChord && !placed.data.belongsToTuplet ==>
        var c := NoteCreated(old(msr), old(currentNoteStaffNumber), old(currentNoteVoiceNumber), 4 * old(currentDivisionsPerQuarterNote));
        (status, msr) == ChordForgotten(StandalonePlaced(c.0, placed, placed.data.isGrace, old(currentGraceIsSlashed),
                                                         old(currentNoteStaffNumber), old(currentVoiceNumber), old(tupletsStack)),
                                        old(onGoingNote))
      ensures status == Proceeding ==>
        lastHandledNoteInVoice == old(lastHandledNoteInVoice)[v := placed] &&
        NoteHandled(old(lastHandledNoteInVoice), lastHandledNoteInVoice, v, old(msr.nextId) + 3, placed.data) &&
        !onGoingNote && (!placed.data.belongsToChord && old(onGoingNote) ==> msr.currentChord.None? && !msr.onGoingChord)
    {
      if msr.currentPart.None? {
        return Aborted(NoCurrentPart), 0, Note(0, noteData, 0, UnknownNoteKind, None, None, None, [], [], [], [], [], []);
      }
      status, v, placed := NoteEndInPart(typeDivisions);
    }

    /** `</note>` when there is a current part. */
    method NoteEndInPart(typeDivisions: Conversion<int>) returns (status: Status, v: Id, placed: Note)
      requires Valid() && msr.currentPart.Some?
      modifies this`msr, this`noteData, this`diagnostics, this`currentArticulations, this`currentOrnaments,
               this`pendingDynamics, this`pendingWords, this`pendingSlurs, this`pendingWedges,
               this`tupletsStack, this`currentTupletKind, this`firstLyricschunkInSlurKind,
               this`lastHandledNoteInVoice, this`onGoingNote
      ensures Valid()
      ensures v == NoteCreated(old(msr), old(currentNoteStaffNumber), old(currentNoteVoiceNumber), 4 * old(currentDivisionsPerQuarterNote)).1 &&
        placed.id == old(msr.nextId) + 3 && placed.data == noteData && placed.kind == KindOfNote(placed.data)
      ensures placed.data.belongsToChord ==>
        var c := NoteCreated(old(msr), old(currentNoteStaffNumber), old(currentNoteVoiceNumber), 4 * old(currentDivisionsPerQuarterNote));
        (status, msr) == ChordPlaced(c.0, placed, old(currentNoteStaffNumber), old(currentVoiceNumber), old(lastHandledNoteInVoice))
      ensures !placed.data.belongsToChord && placed.data.belongsToTuplet ==>
        var c := NoteCreated(old(msr), old(currentNoteStaffNumber), old(currentNoteVoiceNumber), 4 * old(currentDivisionsPerQuarterNote));
        (status, msr) == ChordForgotten(TupletPlaced(c.0, placed, old(currentNoteStaffNumber), old(currentVoiceNumber),
                                                     old(tupletsStack), old(currentTupletKind)), old(onGoingNote))
      ensures !placed.data.belongsToChord && !placed.data.belongsToTuplet ==>
        var c := NoteCreated(old(msr), old(currentNoteStaffNumber), old(currentNoteVoiceNumber), 4 * old(currentDivisionsPerQuarterNote));
        (status, msr) == ChordForgotten(StandalonePlaced(c.0, placed, placed.data.isGrace, old(currentGraceIsSlashed),
                                                         old(currentNoteStaffNumber), old(currentVoiceNumber), old(tupletsStack)),
                                        old(onGoingNote))
      ensures status == Proceeding ==>
        lastHandledNoteInVoice == old(lastHandledNoteInVoice)[v := placed] &&
        NoteHandled(old(lastHandledNoteInVoice), lastHandledNoteInVoice, v, old(msr.nextId) + 3, placed.data) &&
        !onGoingNote && (!placed.data.belongsToChord && old(onGoingNote) ==> msr.currentChord.None? && !msr.onGoingChord)
    {
      var n;
      v, n := CreateNoteInVoice(typeDivisions);
      status, placed := FinishNote(v, n);
    }

    /**
     * The rest of `</note>` once note `n` is created for voice `v`: it is
     * placed, a note outside chords ends the current chord, and it becomes
     * the last note handled in the voice.
     */
    method FinishNote(v: Id, n: Note) returns (status: Status, placed: Note)
      requires Valid() && n.data == noteData
      modifies this`msr, this`diagnostics, this`pendingDynamics, this`pendingWords, this`pendingSlurs,
               this`pendingWedges, this`tupletsStack, this`currentTupletKind, this`firstLyricschunkInSlurKind,
               this`lastHandledNoteInVoice, this`onGoingNote
      ensures Valid()
      ensures placed.id == n.id && placed.data == n.data && placed.kind == KindOfNote(n.data)
      ensures n.data.belongsToChord ==>
        (status, msr) == ChordPlaced(old(msr), placed, old(currentNoteStaffNumber), old(currentVoiceNumber),
                                     old(lastHandledNoteInVoice))
      ensures !n.data.belongsToChord && n.data.belongsToTuplet ==>
        (status, msr) == ChordForgotten(TupletPlaced(old(msr), placed, old(currentNoteStaffNumber), old(currentVoiceNumber),
                                                     old(tupletsStack), old(currentTupletKind)), old(onGoingNote))
      ensures !n.data.belongsToChord && !n.data.belongsToTuplet ==>
        (status, msr) == ChordForgotten(StandalonePlaced(old(msr), placed, n.data.isGrace, old(currentGraceIsSlashed),
                                                         old(currentNoteStaffNumber), old(currentVoiceNumber), old(tupletsStack)),
                                        old(onGoingNote))
      ensures status == Proceeding ==>
        lastHandledNoteInVoice == old(lastHandledNoteInVoice)[v := placed] && !onGoingNote &&
        NoteHandled(old(lastHandledNoteInVoice), lastHandledNoteInVoice, v, n.id, n.data)
      ensures status.Aborted? ==> lastHandledNoteInVoice == old(lastHandledNoteInVoice) && onGoingNote == old(onGoingNote)
    {
      status, placed := PlaceNote(n);
      if status.Aborted? {
        return;
      }
      NoteHandledInVoice(v, placed);
    }

    /**
     * After note `placed` is placed in voice `v`: a note outside chords ends
     * the current chord when a note was going on, and the note becomes the
     * last one handled in the voice.
     */
    method NoteHandledInVoice(v: Id, placed: Note)
      requires Valid()
      modifies this`msr, this`lastHandledNoteInVoice, this`onGoingNote
      ensures Valid()
      ensures (Proceeding, msr) == ChordForgotten((Proceeding, old(msr)), !old(noteData).belongsToChord && old(onGoingNote))
      ensures lastHandledNoteInVoice == old(lastHandledNoteInVoice)[v := placed] && !onGoingNote
    {
      if !noteData.belongsToChord && onGoingNote {
        ForgetChord();
      }
      lastHandledNoteInVoice := lastHandledNoteInVoice[v := placed];
      onGoingNote := false;
    }

    // -------------------------------------------------------------------------
    // Backup and forward

    /** `<backup>`: the tuplets still open are flushed to the note's voice first. */
    method BackupStart() returns (status: Status)
      requires Valid()
      modifies this`msr, this`tupletsStack, this`onGoingBackup
      ensures Valid() && onGoingBackup
      ensures old(msr.currentPart).None? ==> status == Aborted(NoCurrentPart) && msr == old(msr)
      ensures old(msr.currentPart).Some? ==>
        status == Proceeding && tupletsStack == [] &&
        msr == TupletsFlushed(old(msr), old(currentNoteStaffNumber), old(currentVoiceNumber), old(tupletsStack))
    {
      status := FlushTuplets();
      onGoingBackup := true;
    }

    /** `</backup>`: the voice of the current staff and voice numbers is created if absent. */
    method BackupEnd() returns (status: Status, v: Id)
      requires Valid()
      modifies this`msr, this`onGoingBackup
      ensures Valid() && !onGoingBackup
      ensures old(msr.currentPart).None? ==> status == Aborted(NoCurrentPart) && msr == old(msr)
      ensures old(msr.currentPart).Some? ==>
        status == Proceeding && (msr, v) == Lookup(old(msr), currentStaffNumber, currentVoiceNumber)
    {
      status, v := VoiceInCurrentPart(currentStaffNumber, currentVoiceNumber);
      onGoingBackup := false;
    }

    /**
     * `<forward>`: the forward's staff and voice default to the current ones,
     * and the tuplets still open are flushed first.
     */
    method ForwardStart() returns (status: Status)
      requires Valid()
      modifies this`msr, this`tupletsStack, this`onGoingForward,
               this`currentForwardStaffNumber, this`currentForwardVoiceNumber
      ensures Valid() && onGoingForward
      ensures currentForwardStaffNumber == currentStaffNumber && currentForwardVoiceNumber == currentVoiceNumber
      ensures old(msr.currentPart).None? ==> status == Aborted(NoCurrentPart) && msr == old(msr)
      ensures old(msr.currentPart).Some? ==>
        status == Proceeding && tupletsStack == [] &&
        msr == TupletsFlushed(old(msr), old(currentNoteStaffNumber), old(currentVoiceNumber), old(tupletsStack))
    {
      currentForwardStaffNumber := currentStaffNumber;
      currentForwardVoiceNumber := currentVoiceNumber;
      status := FlushTuplets();
      onGoingForward := true;
    }

    /**
     * `</forward>`: the forward's staff and voice become the current ones,
     * and that staff, then that voice, are created if absent.
     */
    method ForwardEnd() returns (status: Status, v: Id)
      requires Valid()
      modifies this`msr, this`onGoingForward, this`currentStaffNumber, this`currentVoiceNumber
      ensures Valid() && !onGoingForward
      ensures currentStaffNumber == currentForwardStaffNumber && currentVoiceNumber == currentForwardVoiceNumber
      ensures old(msr.currentPart).None? ==> status == Aborted(NoCurrentPart) && msr == old(msr)
      ensures status == Proceeding ==> v in msr.score.voices && HasChunk(msr.score.voices[v])
      ensures old(msr.currentPart).Some? ==>
        var p := old(msr.currentPart).value;
        var parts := old(msr.score.parts);
        var staffed := old(msr).(nextId := old(msr.nextId) + 1,
          score := old(msr.score).(parts := parts[p := EnsureStaff(parts[p], currentStaffNumber, old(msr.nextId))]));
        status == Proceeding && (msr, v) == Lookup(staffed, currentStaffNumber, currentVoiceNumber)
    {
      currentStaffNumber := currentForwardStaffNumber;
      status := StaffInCurrentPart(currentStaffNumber);
      currentVoiceNumber := currentForwardVoiceNumber;
      if status.Aborted? {
        onGoingForward := false;
        return status, 0;
      }
      status, v := VoiceInCurrentPart(currentStaffNumber, currentVoiceNumber);
      onGoingForward := false;
    }

    // -------------------------------------------------------------------------
    // Lyrics

    /** `<lyric number=...>`: a negative number is reported; the text and elision start afresh. */
    method LyricStart(number: int)
      modifies this`currentLyricsNumber, this`diagnostics, this`currentLyricsHasText, this`currentElision,
               this`currentNoteHasLyrics
      ensures currentLyricsNumber == number
      ensures number < 0 ==> diagnostics == old(diagnostics) + [Diagnostic(Error, LyricNumberNegative(number))]
      ensures number >= 0 ==> diagnostics == old(diagnostics)
      ensures !currentLyricsHasText && !currentElision && currentNoteHasLyrics
    {
      currentLyricsNumber := number;
      if number < 0 {
        diagnostics := diagnostics + [Diagnostic(Error, LyricNumberNegative(number))];
      }
      currentLyricsHasText := false;
      currentElision := false;
      currentNoteHasLyrics := true;
    }

    /** `<syllabic>`: the value is kept, and a known one sets the chunk kind. */
    method Syllabic(syllabic: string)
      modifies this`currentSyllabic, this`currentLyricschunkKind, this`diagnostics
      ensures currentSyllabic == syllabic
      ensures var c := SyllabicOf(syllabic, old(currentLyricschunkKind));
        currentLyricschunkKind == c.value && diagnostics == old(diagnostics) + Reported(c.report)
    {
      currentSyllabic := syllabic;
      var c := SyllabicOf(syllabic, currentLyricschunkKind);
      currentLyricschunkKind := c.value;
      Report(c.report);
    }

    /** `</text>`: the fragment, without its spaces, replaces the text or, after an elision, extends it. */
    method TextEnd(fragment: string)
      modifies this`currentText, this`currentLyricsHasText
      ensures currentText == NextText(old(currentText), fragment, currentElision) && currentLyricsHasText
    {
      currentText := NextText(currentText, fragment, currentElision);
      currentLyricsHasText := true;
    }

    /** `</elision>`: the next text fragment extends the text. */
    method ElisionEnd()
      modifies this`currentElision
      ensures currentElision
    {
      currentElision := true;
    }

    /** Lyric chunk `l` is added to voice `v` and to the note's lyric chunks. */
    method AddLyricschunk(v: Id, l: Lyricschunk)
      requires Valid() && v in msr.score.voices
      modifies this`msr
      ensures Valid() && msr == LyricschunkAdded(old(msr), v, l)
    {
      var id := msr.nextId;
      FreshLyricschunkWellFormed(msr.score, id, l);
      var voice := msr.score.voices[v];
      msr := msr.(nextId := id + 1, currentNoteLyricchunks := msr.currentNoteLyricchunks + [id],
                  score := msr.score.(lyricschunks := msr.score.lyricschunks[id := l]));
      UpdateVoice(v, voice.(lyricschunks := voice.lyricschunks + [id]));
    }

    /**
     * `</lyric>`: the chunk kind is decided afresh, the note's voice is
     * fetched, and a chunk of that kind is added to it unless the kind is
     * none; a chunk with text marks an ongoing slur and the note as having lyrics.
     */
    method LyricEnd() returns (status: Status)
      requires Valid()
      modifies this`msr, this`currentLyricschunkKind, this`onGoingSlurHasLyrics, this`currentNoteHasLyrics
      ensures Valid()
      ensures currentLyricschunkKind == ChooseChunkKind(old(currentSyllabic), old(currentTieKind), old(noteData.isRest),
        old(onGoingSlurHasLyrics), old(currentText), old(onGoingSlur), old(firstLyricschunkInSlurKind))
      ensures old(msr.currentPart).None? ==> status == Aborted(NoCurrentPart) && msr == old(msr)
      ensures old(msr.currentPart).Some? ==>
        status == Proceeding &&
        msr == LyricEndOutcome(old(msr), old(currentNoteStaffNumber), old(currentVoiceNumber), currentLyricschunkKind,
                               old(currentLyricsNumber), old(currentText), old(currentElision), old(noteData.divisions))
      ensures IsTextKind(currentLyricschunkKind) ==>
        currentNoteHasLyrics && onGoingSlurHasLyrics == (old(onGoingSlurHasLyrics) || old(onGoingSlur))
      ensures !IsTextKind(currentLyricschunkKind) ==>
        currentNoteHasLyrics == old(currentNoteHasLyrics) && onGoingSlurHasLyrics == old(onGoingSlurHasLyrics)
    {
      status := LyricEndOfKind(ChooseChunkKind(currentSyllabic, currentTieKind, noteData.isRest,
          onGoingSlurHasLyrics, currentText, onGoingSlur, firstLyricschunkInSlurKind),
        currentNoteStaffNumber, currentVoiceNumber, currentLyricsNumber, currentText, currentElision, noteData.divisions);
    }

    /**
     * `</lyric>` once the chunk kind is decided, with the note's staff and
     * voice numbers and the lyric's number, text, elision and duration.
     */
    method LyricEndOfKind(kind: ChunkKind, staffNumber: int, voiceNumber: int, number: int,
                          text: string, elision: bool, divisions: int) returns (status: Status)
      requires Valid()
      modifies this`msr, this`currentLyricschunkKind, this`onGoingSlurHasLyrics, this`currentNoteHasLyrics
      ensures Valid() && currentLyricschunkKind == kind
      ensures old(msr.currentPart).None? ==> status == Aborted(NoCurrentPart) && msr == old(msr)
      ensures old(msr.currentPart).Some? ==>
        status == Proceeding && msr == LyricEndOutcome(old(msr), staffNumber, voiceNumber, kind, number, text, elision, divisions)
      ensures IsTextKind(kind) ==>
        currentNoteHasLyrics && onGoingSlurHasLyrics == (old(onGoingSlurHasLyrics) || onGoingSlur)
      ensures !IsTextKind(kind) ==>
        currentNoteHasLyrics == old(currentNoteHasLyrics) && onGoingSlurHasLyrics == old(onGoingSlurHasLyrics)
    {
      currentLyricschunkKind := kind;
      if IsTextKind(kind) {
        if onGoingSlur {
          onGoingSlurHasLyrics := true;
        }
        currentNoteHasLyrics := true;
      }
      status := AddLyricschunkInVoice(staffNumber, voiceNumber, kind, number, text, elision, divisions);
    }

    /**
     * The voice of those numbers is fetched and, unless `kind` is none, a
     * lyric chunk of that kind, number, text, elision and duration is added to it.
     */
    method AddLyricschunkInVoice(staffNumber: int, voiceNumber: int, kind: ChunkKind, number: int,
                                 text: string, elision: bool, divisions: int) returns (status: Status)
      requires Valid()
      modifies this`msr
      ensures Valid()
      ensures old(msr.currentPart).None? ==> status == Aborted(NoCurrentPart) && msr == old(msr)
      ensures old(msr.currentPart).Some? ==>
        status == Proceeding &&
        msr == LyricEndOutcome(old(msr), staffNumber, voiceNumber, kind, number, text, elision, divisions)
    {
      var v;
      status, v := VoiceInCurrentPart(staffNumber, voiceNumber);
      if status.Aborted? {
        return;
      }
      if kind != NoChunk {
        AddLyricschunk(v, LyricschunkOf(kind, v, number, text, elision, divisions));
      }
    }

    // -------------------------------------------------------------------------
    // Directions

    /**
     * `<direction placement=...>`: the placement of the words that follow is
     * set, the words contents start afresh and a direction is going on.
     */
    method DirectionStart(placement: string)
      modifies this`currentWordsPlacement, this`diagnostics, this`currentWordsContents, this`onGoingDirection
      ensures var c := DirectionPlacementOf(placement, old(currentWordsPlacement));
        currentWordsPlacement == c.value && diagnostics == old(diagnostics) + Reported(c.report)
      ensures currentWordsContents == "" && onGoingDirection
    {
      var c := DirectionPlacementOf(placement, currentWordsPlacement);
      currentWordsPlacement := c.value;
      Report(c.report);
      currentWordsContents := "";
      onGoingDirection := true;
    }

    /** `</direction>`: no direction is going on any more. */
    method DirectionEnd()
      modifies this`onGoingDirection
      ensures !onGoingDirection
    {
      onGoingDirection := false;
    }

    method DirectionTypeStart()
      modifies this`onGoingDirectionType
      ensures onGoingDirectionType
    {
      onGoingDirectionType := true;
    }

    method DirectionTypeEnd()
      modifies this`onGoingDirectionType
      ensures !onGoingDirectionType
    {
      onGoingDirectionType := false;
    }

    /** Direction `d` is appended to the voice of those numbers, created if absent. */
    method AppendDirection(staffNumber: int, voiceNumber: int, d: Direction) returns (status: Status)
      requires Valid()
      modifies this`msr
      ensures Valid()
      ensures old(msr.currentPart).None? ==> status == Aborted(NoCurrentPart) && msr == old(msr)
      ensures old(msr.currentPart).Some? ==>
        status == Proceeding && msr == AppendedInVoice(old(msr), staffNumber, voiceNumber, DirectionElement(d))
    {
      var v;
      status, v := VoiceInCurrentPart(staffNumber, voiceNumber);
      if status.Aborted? {
        return;
      }
      AppendToVoice(v, DirectionElement(d));
    }

    /**
     * `<octave-shift size=... type=...>`: an unusual size and an unknown type
     * are reported, and the octave shift goes to the direction's voice anyway.
     */
    method OctaveShift(size: int, shiftType: string) returns (status: Status)
      requires Valid()
      modifies this`msr, this`diagnostics
      ensures Valid()
      ensures var k := OctaveShiftKindOf(shiftType);
        diagnostics == old(diagnostics) + Reported(OctaveShiftSizeReport(size)) + Reported(k.report)
      ensures old(msr.currentPart).None? ==> status == Aborted(NoCurrentPart) && msr == old(msr)
      ensures old(msr.currentPart).Some? ==>
        status == Proceeding &&
        msr == AppendedInVoice(old(msr), currentDirectionStaffNumber, currentVoiceNumber,
                               DirectionElement(OctaveShiftMark(OctaveShiftKindOf(shiftType).value, size)))
    {
      Report(OctaveShiftSizeReport(size));
      var k := OctaveShiftKindOf(shiftType);
      Report(k.report);
      status := AppendDirection(currentDirectionStaffNumber, currentVoiceNumber, OctaveShiftMark(k.value, size));
    }

    /** `<words>`: non-empty words are queued, with the current placement, for the next note. */
    method WordsTag(contents: string)
      modifies this`currentWordsContents, this`pendingWords
      ensures currentWordsContents == contents
      ensures |contents| > 0 ==> pendingWords == old(pendingWords) + [Words(currentWordsPlacement, contents)]
      ensures |contents| == 0 ==> pendingWords == old(pendingWords)
    {
      currentWordsContents := contents;
      if |contents| > 0 {
        pendingWords := pendingWords + [Words(currentWordsPlacement, contents)];
      }
    }

    /** `<metronome parentheses=...>`: no beat unit is counted yet and the per-minute value is unknown. */
    method MetronomeStart(parenthesesValue: string)
      modifies this`beatsCount, this`perMinute, this`currentBeatUnit, this`parentheses, this`diagnostics
      ensures beatsCount == 0 && perMinute == 0 && currentBeatUnit == ""
      ensures var c := ParenthesesOf(parenthesesValue, old(parentheses));
        parentheses == c.value && diagnostics == old(diagnostics) + Reported(c.report)
    {
      beatsCount := 0;
      perMinute := 0;
      currentBeatUnit := "";
      var c := ParenthesesOf(parenthesesValue, parentheses);
      parentheses := c.value;
      Report(c.report);
    }

    /** `<beat-unit>`: a beat unit already read is counted, and this one becomes the current one. */
    method BeatUnit(unit: string)
      modifies this`beatsCount, this`currentBeatUnit
      ensures beatsCount == old(beatsCount) + (if |old(currentBeatUnit)| > 0 then 1 else 0)
      ensures currentBeatUnit == unit
    {
      if |currentBeatUnit| > 0 {
        beatsCount := beatsCount + 1;
      }
      currentBeatUnit := unit;
    }

    method PerMinute(n: int)
      modifies this`perMinute
      ensures perMinute == n
    {
      perMinute := n;
    }

    /**
     * `</metronome>`: the last beat unit read is counted; with exactly one
     * beat unit and a per-minute value, a tempo goes to the direction's
     * voice, and otherwise a warning says why not.
     */
    method MetronomeEnd() returns (status: Status)
      requires Valid()
      modifies this`msr, this`diagnostics, this`beatsCount, this`currentBeatUnit
      ensures Valid()
      ensures beatsCount == old(beatsCount) + (if |old(currentBeatUnit)| > 0 then 1 else 0) && currentBeatUnit == ""
      ensures MetronomeGuard(beatsCount, old(perMinute)).Some? ==>
        status == Proceeding && msr == old(msr) &&
        diagnostics == old(diagnostics) + [MetronomeGuard(beatsCount, old(perMinute)).value]
      ensures MetronomeGuard(beatsCount, old(perMinute)).None? && old(msr.currentPart).None? ==>
        status == Aborted(NoCurrentPart) && msr == old(msr)
      ensures MetronomeGuard(beatsCount, old(perMinute)).None? && old(msr.currentPart).Some? ==>
        status == Proceeding && diagnostics == old(diagnostics) &&
        msr == AppendedInVoice(old(msr), old(currentDirectionStaffNumber), old(currentVoiceNumber),
                               DirectionElement(TempoMark(old(perMinute))))
    {
      CountLastBeatUnit();
      status := Tempo(beatsCount, perMinute, currentDirectionStaffNumber, currentVoiceNumber);
    }

    /** The beat unit still held at `</metronome>` is counted. */
    method CountLastBeatUnit()
      modifies this`beatsCount, this`currentBeatUnit
      ensures beatsCount == old(beatsCount) + (if |old(currentBeatUnit)| > 0 then 1 else 0) && currentBeatUnit == ""
    {
      if |currentBeatUnit| > 0 {
        beatsCount := beatsCount + 1;
        currentBeatUnit := "";
      }
    }

    /**
     * The tempo of a metronome with `beats` beat units and `perMinuteValue`
     * beats per minute: when the guard lets it through, it goes to the voice of
     * those numbers; otherwise the guard's warning is issued.
     */
    method Tempo(beats: nat, perMinuteValue: int, staffNumber: int, voiceNumber: int) returns (status: Status)
      requires Valid()
      modifies this`msr, this`diagnostics
      ensures Valid()
      ensures MetronomeGuard(beats, perMinuteValue).Some? ==>
        status == Proceeding && msr == old(msr) &&
        diagnostics == old(diagnostics) + [MetronomeGuard(beats, perMinuteValue).value]
      ensures MetronomeGuard(beats, perMinuteValue).None? && old(msr.currentPart).None? ==>
        status == Aborted(NoCurrentPart) && msr == old(msr) && diagnostics == old(diagnostics)
      ensures MetronomeGuard(beats, perMinuteValue).None? && old(msr.currentPart).Some? ==>
        status == Proceeding && diagnostics == old(diagnostics) &&
        msr == AppendedInVoice(old(msr), staffNumber, voiceNumber, DirectionElement(TempoMark(perMinuteValue)))
    {
      var guard := MetronomeGuard(beats, perMinuteValue);
      if guard.Some? {
        diagnostics := diagnostics + [guard.value];
        return Proceeding;
      }
      status := AppendDirection(staffNumber, voiceNumber, TempoMark(perMinuteValue));
    }

    /**
     * A mark met inside a direction type goes to the current voice; inside a
     * barline it only sets the barline's flag, segno or coda; elsewhere it is ignored.
     */
    method Mark(d: Direction, isSegno: bool) returns (status: Status)
      requires Valid()
      modifies this`msr, this`barlineHasSegno, this`barlineHasCoda
      ensures Valid()
      ensures onGoingDirectionType ==>
        (old(msr.currentPart).None? ==> status == Aborted(NoCurrentPart) && msr == old(msr)) &&
        (old(msr.currentPart).Some? ==>
          status == Proceeding &&
          msr == AppendedInVoice(old(msr), old(currentStaffNumber), old(currentVoiceNumber), DirectionElement(d)))
      ensures !onGoingDirectionType ==> status == Proceeding && msr == old(msr)
      ensures barlineHasSegno == (old(barlineHasSegno) || (!onGoingDirectionType && onGoingBarline && isSegno))
      ensures barlineHasCoda == (old(barlineHasCoda) || (!onGoingDirectionType && onGoingBarline && !isSegno))
    {
      if onGoingDirectionType {
        status := AppendDirection(currentStaffNumber, currentVoiceNumber, d);
      } else {
        MarkBarline(isSegno);
        status := Proceeding;
      }
    }

    /** Inside a barline, a segno sets its segno flag and any other mark its coda flag. */
    method MarkBarline(isSegno: bool)
      modifies this`barlineHasSegno, this`barlineHasCoda
      ensures barlineHasSegno == (old(barlineHasSegno) || (onGoingBarline && isSegno))
      ensures barlineHasCoda == (old(barlineHasCoda) || (onGoingBarline && !isSegno))
    {
      if onGoingBarline {
        if isSegno {
          barlineHasSegno := true;
        } else {
          barlineHasCoda := true;
        }
      }
    }

    method Segno() returns (status: Status)
      requires Valid()
      modifies this`msr, this`barlineHasSegno, this`barlineHasCoda
      ensures Valid()
      ensures onGoingDirectionType && old(msr.currentPart).None? ==> status == Aborted(NoCurrentPart) && msr == old(msr)
      ensures onGoingDirectionType && old(msr.currentPart).Some? ==>
        status == Proceeding &&
        msr == AppendedInVoice(old(msr), currentStaffNumber, currentVoiceNumber, DirectionElement(SegnoMark))
      ensures !onGoingDirectionType ==> status == Proceeding && msr == old(msr)
      ensures barlineHasSegno == (old(barlineHasSegno) || (!onGoingDirectionType && onGoingBarline))
      ensures barlineHasCoda == (old(barlineHasCoda))
    {
      status := Mark(SegnoMark, true);
    }

    method Coda() returns (status: Status)
      requires Valid()
      modifies this`msr, this`barlineHasSegno, this`barlineHasCoda
      ensures Valid()
      ensures onGoingDirectionType && old(msr.currentPart).None? ==> status == Aborted(NoCurrentPart) && msr == old(msr)
      ensures onGoingDirectionType && old(msr.currentPart).Some? ==>
        status == Proceeding &&
        msr == AppendedInVoice(old(msr), currentStaffNumber, currentVoiceNumber, DirectionElement(CodaMark))
      ensures !onGoingDirectionType ==> status == Proceeding && msr == old(msr)
      ensures barlineHasSegno == (old(barlineHasSegno))
      ensures barlineHasCoda == (old(barlineHasCoda) || (!onGoingDirectionType && onGoingBarline))
    {
      status := Mark(CodaMark, false);
    }

    /** `<eyeglasses>`: inside a barline it sets the coda flag, as `<coda>` does. */
    method Eyeglasses() returns (status: Status)
      requires Valid()
      modifies this`msr, this`barlineHasSegno, this`barlineHasCoda
      ensures Valid()
      ensures onGoingDirectionType && old(msr.currentPart).None? ==> status == Aborted(NoCurrentPart) && msr == old(msr)
      ensures onGoingDirectionType && old(msr.currentPart).Some? ==>
        status == Proceeding &&
        msr == AppendedInVoice(old(msr), currentStaffNumber, currentVoiceNumber, DirectionElement(EyeglassesMark))
      ensures !onGoingDirectionType ==> status == Proceeding && msr == old(msr)
      ensures barlineHasSegno == (old(barlineHasSegno))
      ensures barlineHasCoda == (old(barlineHasCoda) || (!onGoingDirectionType && onGoingBarline))
    {
      status := Mark(EyeglassesMark, false);
    }

    /**
     * `<pedal type=... line=...>`: an unknown type and an unknown line are
     * reported; the pedal is then handled as a mark setting the coda flag
     * inside a barline.
     */
    method Pedal(pedalType: string, line: string) returns (status: Status)
      requires Valid()
      modifies this`msr, this`diagnostics, this`barlineHasSegno, this`barlineHasCoda
      ensures Valid()
      ensures var t := PedalTypeOf(pedalType); var l := PedalLineOf(line);
        diagnostics == old(diagnostics) + Reported(t.report) + Reported(l.report)
      ensures old(onGoingDirectionType) && old(msr.currentPart).None? ==> status == Aborted(NoCurrentPart) && msr == old(msr)
      ensures old(onGoingDirectionType) && old(msr.currentPart).Some? ==>
        status == Proceeding &&
        msr == AppendedInVoice(old(msr), old(currentStaffNumber), old(currentVoiceNumber),
                               DirectionElement(PedalMark(PedalTypeOf(pedalType).value, PedalLineOf(line).value)))
      ensures !old(onGoingDirectionType) ==> status == Proceeding && msr == old(msr)
      ensures barlineHasSegno == old(barlineHasSegno)
      ensures barlineHasCoda == (old(barlineHasCoda) || (!old(onGoingDirectionType) && old(onGoingBarline)))
    {
      status := PedalOf(PedalTypeOf(pedalType), PedalLineOf(line));
    }

    /** The pedal once its type and line are looked up, with their reports. */
    method PedalOf(t: Conversion<Option<PedalType>>, l: Conversion<Option<bool>>) returns (status: Status)
      requires Valid()
      modifies this`msr, this`diagnostics, this`barlineHasSegno, this`barlineHasCoda
      ensures Valid()
      ensures diagnostics == old(diagnostics) + Reported(t.report) + Reported(l.report)
      ensures old(onGoingDirectionType) && old(msr.currentPart).None? ==> status == Aborted(NoCurrentPart) && msr == old(msr)
      ensures old(onGoingDirectionType) && old(msr.currentPart).Some? ==>
        status == Proceeding &&
        msr == AppendedInVoice(old(msr), old(currentStaffNumber), old(currentVoiceNumber), DirectionElement(PedalMark(t.value, l.value)))
      ensures !old(onGoingDirectionType) ==> status == Proceeding && msr == old(msr)
      ensures barlineHasSegno == old(barlineHasSegno)
      ensures barlineHasCoda == (old(barlineHasCoda) || (!old(onGoingDirectionType) && old(onGoingBarline)))
    {
      diagnostics := diagnostics + Reported(t.report) + Reported(l.report);
      status := Mark(PedalMark(t.value, l.value), false);
    }

    /** `<rehearsal enclosure=...>`: the rehearsal mark goes to the current voice, its enclosure looked up. */
    method Rehearsal(text: string, enclosure: string) returns (status: Status)
      requires Valid()
      modifies this`msr, this`diagnostics
      ensures Valid()
      ensures var k := RehearsalKindOf(enclosure);
        diagnostics == old(diagnostics) + Reported(k.report)
      ensures old(msr.currentPart).None? ==> status == Aborted(NoCurrentPart) && msr == old(msr)
      ensures old(msr.currentPart).Some? ==>
        status == Proceeding &&
        msr == AppendedInVoice(old(msr), currentStaffNumber, currentVoiceNumber,
                               DirectionElement(RehearsalMark(RehearsalKindOf(enclosure).value, text)))
    {
      var k := RehearsalKindOf(enclosure);
      Report(k.report);
      status := AppendDirection(currentStaffNumber, currentVoiceNumber, RehearsalMark(k.value, text));
    }

    // -------------------------------------------------------------------------
    // Barlines

    /**
     * `<barline location=...>`: the attribute strings, the segno and coda marks
     * and the barline's kinds start afresh, the location is read (right when it
     * is unknown or absent, which is reported) and a barline is going on.
     */
    method BarlineStart(location: string)
      modifies this`currentLocation, this`currentStyle, this`currentEndingtype, this`currentEndingNumber,
               this`currentRepeatDirection, this`currentRepeatWinged, this`barlineHasSegno, this`barlineHasCoda,
               this`barlineLocation, this`barlineStyle, this`barlineEndingType, this`barlineEndingNumber,
               this`barlineRepeatDirection, this`barlineRepeatWinged, this`onGoingBarline, this`diagnostics
      ensures currentLocation == location && currentStyle == "" && currentEndingtype == "" && currentEndingNumber == ""
      ensures currentRepeatDirection == "" && currentRepeatWinged == ""
      ensures BarlineSoFar() == Barline(false, false, BarlineLocationOf(location).value, NoStyle, NoEndingType, "",
                                        NoRepeatDirection, NoRepeatWinged, None)
      ensures onGoingBarline
      ensures diagnostics == old(diagnostics) + Reported(BarlineLocationOf(location).report)
    {
      var l := BarlineLocationOf(location);
      ResetBarlineStrings(location);
      ResetBarline(l.value);
      onGoingBarline := true;
      Report(l.report);
    }

    /** The attribute strings of a barline as written: the location, and nothing else yet. */
    method ResetBarlineStrings(location: string)
      modifies this`currentLocation, this`currentStyle, this`currentEndingtype, this`currentEndingNumber,
               this`currentRepeatDirection, this`currentRepeatWinged
      ensures currentLocation == location && currentStyle == "" && currentEndingtype == "" && currentEndingNumber == ""
      ensures currentRepeatDirection == "" && currentRepeatWinged == ""
    {
      currentLocation, currentStyle, currentEndingtype, currentEndingNumber := location, "", "", "";
      currentRepeatDirection, currentRepeatWinged := "", "";
    }

    /** The barline described so far: at `location`, with nothing else. */
    method ResetBarline(location: BarlineLocation)
      modifies this`barlineHasSegno, this`barlineHasCoda, this`barlineLocation, this`barlineStyle,
               this`barlineEndingType, this`barlineEndingNumber, this`barlineRepeatDirection, this`barlineRepeatWinged
      ensures BarlineSoFar() == Barline(false, false, location, NoStyle, NoEndingType, "",
                                        NoRepeatDirection, NoRepeatWinged, None)
    {
      barlineHasSegno, barlineHasCoda, barlineLocation := false, false, location;
      barlineStyle, barlineEndingType, barlineEndingNumber := NoStyle, NoEndingType, "";
      barlineRepeatDirection, barlineRepeatWinged := NoRepeatDirection, NoRepeatWinged;
    }

    /** The barline the `<barline>` element describes so far, not yet categorised. */
    function BarlineSoFar(): (b: Barline)
      reads this`barlineHasSegno, this`barlineHasCoda, this`barlineLocation, this`barlineStyle,
            this`barlineEndingType, this`barlineEndingNumber, this`barlineRepeatDirection, this`barlineRepeatWinged
      ensures b.category.None?
      ensures b.location == barlineLocation && b.style == barlineStyle && b.endingType == barlineEndingType
      ensures b.repeatDirection == barlineRepeatDirection && b.endingNumber == barlineEndingNumber
    {
      Barline(barlineHasSegno, barlineHasCoda, barlineLocation, barlineStyle, barlineEndingType,
              barlineEndingNumber, barlineRepeatDirection, barlineRepeatWinged, None)
    }

    /** `<bar-style>`: one of the ten styles; anything else is reported and leaves no style. */
    method BarStyleTag(style: string)
      modifies this`currentStyle, this`barlineStyle, this`diagnostics
      ensures currentStyle == style
      ensures barlineStyle == BarStyleOf(style).value
      ensures diagnostics == old(diagnostics) + Reported(BarStyleOf(style).report)
    {
      currentStyle := style;
      var k := BarStyleOf(style);
      barlineStyle := k.value;
      Report(k.report);
    }

    /**
     * `<ending type=... number=...>`: an unknown type is reported and leaves
     * the ending type as it was; the number is kept as written.
     */
    method EndingTag(endingType: string, number: string)
      modifies this`currentEndingtype, this`currentEndingNumber, this`barlineEndingType,
               this`barlineEndingNumber, this`diagnostics
      ensures currentEndingtype == endingType && currentEndingNumber == number
      ensures barlineEndingType == EndingTypeOf(endingType, old(barlineEndingType)).value
      ensures barlineEndingNumber == number
      ensures diagnostics == old(diagnostics) + Reported(EndingTypeOf(endingType, old(barlineEndingType)).report)
    {
      currentEndingtype, currentEndingNumber := endingType, number;
      var k := EndingTypeOf(endingType, barlineEndingType);
      barlineEndingType := k.value;
      Report(k.report);
      barlineEndingNumber := number;
    }

    /**
     * `<repeat direction=... winged=...>`: an unknown direction is reported and
     * leaves none; the winged attribute is looked up only when present.
     */
    method RepeatTag(direction: string, winged: string)
      modifies this`currentRepeatDirection, this`currentRepeatWinged, this`barlineRepeatDirection,
               this`barlineRepeatWinged, this`diagnostics
      ensures currentRepeatDirection == direction && currentRepeatWinged == winged
      ensures barlineRepeatDirection == RepeatDirectionOf(direction).value
      ensures barlineRepeatWinged == RepeatWingedOf(winged).value
      ensures diagnostics == old(diagnostics) + Reported(RepeatDirectionOf(direction).report)
                                              + Reported(RepeatWingedOf(winged).report)
    {
      currentRepeatDirection, currentRepeatWinged := direction, winged;
      var d := RepeatDirectionOf(direction);
      barlineRepeatDirection := d.value;
      Report(d.report);
      var w := RepeatWingedOf(winged);
      barlineRepeatWinged := w.value;
      Report(w.report);
    }

    /** A new, empty current chunk with a fresh id is started in voice `v`. */
    method StartChunk(v: Id)
      requires Valid() && v in msr.score.voices
      modifies this`msr
      ensures Valid() && msr == ChunkStarted(old(msr), v)
    {
      var id := msr.nextId;
      WellFormedMonotonic(msr.score, id, id + 1);
      msr := msr.(nextId := id + 1);
      UpdateVoice(v, NewChunk(msr.score.voices[v], id));
    }

    /** When there is no current repeat, one of chunk `chunk` of voice `v` is created and becomes current. */
    method EnsureRepeat(v: Id, chunk: Id)
      requires Valid()
      modifies this`msr
      ensures Valid() && msr == RepeatEnsured(old(msr), v, chunk)
    {
      if msr.currentRepeat.None? {
        var id := msr.nextId;
        FreshRepeatWellFormed(msr.score, id, Repeat(chunk, v, []));
        msr := msr.(nextId := id + 1, currentRepeat := Some(id),
                    score := msr.score.(repeats := msr.score.repeats[id := Repeat(chunk, v, [])]));
      }
    }

    /** The current repeat receives an ending of that number and kind on chunk `chunk`. */
    method AddEnding(number: string, kind: RepeatendingKind, chunk: Id)
      requires Valid() && msr.currentRepeat.Some?
      modifies this`msr
      ensures Valid() && msr == EndingAdded(old(msr), number, kind, chunk)
    {
      var id := msr.currentRepeat.value;
      var rep := msr.score.repeats[id];
      msr := msr.(score := msr.score.(repeats := msr.score.repeats[id := rep.(endings := rep.endings + [Repeatending(number, kind, chunk)])]));
    }

    /** `e` is prepended to the current chunk of voice `v`. */
    method PrependToVoice(v: Id, e: Element)
      requires Valid() && v in msr.score.voices
      modifies this`msr
      ensures Valid() && msr == PrependedTo(old(msr), v, e)
    {
      UpdateVoice(v, Prepend(msr.score.voices[v], e));
    }

    /**
     * The implicit repeat start met when an ending or repeat end finds no
     * pending barline: the invented barline is prepended to the current chunk
     * of voice `v`, a repeat of that chunk is made sure of, a new chunk is
     * started and the current repeat is appended to it.
     */
    method AddImplicitRepeat(v: Id, number: string, winged: RepeatWinged)
      requires Valid() && v in msr.score.voices
      modifies this`msr
      ensures Valid() && msr == ImplicitRepeatAdded(old(msr), v, ImplicitRepeatStart(number, winged))
    {
      PrependToVoice(v, BarlineElement(ImplicitRepeatStart(number, winged)));
      EnsureRepeat(v, CurrentChunk(msr.score.voices[v]).id);
      StartChunk(v);
      AppendToVoice(v, RepeatElement(msr.currentRepeat.value));
    }

    /**
     * The common end of the ending and repeat end handlers: with no pending
     * barline, the implicit repeat start is added to voice `v`; otherwise the
     * innermost pending barline is popped.
     */
    method CloseEnding(v: Id, number: string, winged: RepeatWinged)
      requires Valid() && v in msr.score.voices
      modifies this`msr, this`pendingBarlines
      ensures Valid()
      ensures (msr, pendingBarlines) == EndingClosed(old(msr), v, old(pendingBarlines), number, winged)
    {
      if |pendingBarlines| == 0 {
        AddImplicitRepeat(v, number, winged);
      } else {
        pendingBarlines := pendingBarlines[..|pendingBarlines| - 1];
      }
    }

    /**
     * `handleRepeatStart`, for barline `b` already categorised: a repeat of the
     * current chunk of voice `v` is made sure of, a new chunk is started, the
     * barline is appended to it and pushed onto the pending barlines.
     */
    method HandleRepeatStart(v: Id, b: Barline)
      requires Valid() && v in msr.score.voices
      modifies this`msr, this`pendingBarlines
      ensures Valid() && msr == RepeatStartAdded(old(msr), v, b)
      ensures pendingBarlines == old(pendingBarlines) + [b]
    {
      pendingBarlines := pendingBarlines + [b];
      EnsureRepeat(v, CurrentChunk(msr.score.voices[v]).id);
      StartChunk(v);
      AppendToVoice(v, BarlineElement(b));
    }

    /**
     * The hooked ending proper: barline `b` is appended to voice `v`, a new
     * chunk is started, a repeat of the chunk the barline ended is made sure
     * of and receives a hooked ending on that chunk.
     */
    method AddHookedEnding(v: Id, b: Barline)
      requires Valid() && v in msr.score.voices
      modifies this`msr
      ensures Valid() && msr == HookedEndingAdded(old(msr), v, b, b.endingNumber)
    {
      AppendToVoice(v, BarlineElement(b));
      var chunk := CurrentChunk(msr.score.voices[v]).id;
      StartChunk(v);
      EnsureRepeat(v, chunk);
      AddEnding(b.endingNumber, HookedEnding, chunk);
    }

    /** `handleHookedEndingEnd`, for barline `b` already categorised. */
    method HandleHookedEndingEnd(v: Id, b: Barline)
      requires Valid() && v in msr.score.voices
      modifies this`msr, this`pendingBarlines
      ensures Valid()
      ensures (msr, pendingBarlines) ==
        EndingClosed(HookedEndingAdded(old(msr), v, b, b.endingNumber), v, old(pendingBarlines), b.endingNumber, b.repeatWinged)
    {
      AddHookedEnding(v, b);
      CloseEnding(v, b.endingNumber, b.repeatWinged);
    }

    /**
     * The hookless ending proper: barline `b` is appended to voice `v`, the
     * current repeat receives a hookless ending on the chunk the barline
     * ended, a new chunk is started and the current repeat appended to it.
     */
    method AddHooklessEnding(v: Id, b: Barline)
      requires Valid() && v in msr.score.voices && msr.currentRepeat.Some?
      modifies this`msr
      ensures Valid() && msr == HooklessEndingAdded(old(msr), v, b, b.endingNumber)
    {
      var repeat := msr.currentRepeat.value;
      AppendToVoice(v, BarlineElement(b));
      var chunk := CurrentChunk(msr.score.voices[v]).id;
      AddEnding(b.endingNumber, HooklessEnding, chunk);
      StartChunk(v);
      AppendToVoice(v, RepeatElement(repeat));
    }

    /**
     * `handleHooklessEndingEnd`, for barline `b` already categorised: without a
     * current repeat the barline is appended and the ending cannot be added.
     */
    method HandleHooklessEndingEnd(v: Id, b: Barline) returns (status: Status)
      requires Valid() && v in msr.score.voices
      modifies this`msr, this`pendingBarlines
      ensures Valid()
      ensures old(msr.currentRepeat).None? ==>
        status == Aborted(NoCurrentRepeat) && msr == AppendedTo(old(msr), v, BarlineElement(b)) &&
        pendingBarlines == old(pendingBarlines)
      ensures old(msr.currentRepeat).Some? ==>
        status == Proceeding &&
        (msr, pendingBarlines) == EndingClosed(HooklessEndingAdded(old(msr), v, b, b.endingNumber), v,
                                               old(pendingBarlines), b.endingNumber, b.repeatWinged)
    {
      if msr.currentRepeat.None? {
        AppendToVoice(v, BarlineElement(b));
        return Aborted(NoCurrentRepeat);
      }
      AddHooklessEnding(v, b);
      CloseEnding(v, b.endingNumber, b.repeatWinged);
      status := Proceeding;
    }

    /** `handleEndingEnd` (a repeat end), for barline `b` already categorised. */
    method HandleRepeatEnd(v: Id, b: Barline)
      requires Valid() && v in msr.score.voices
      modifies this`msr, this`pendingBarlines
      ensures Valid()
      ensures (msr, pendingBarlines) ==
        EndingClosed(AppendedTo(old(msr), v, BarlineElement(b)), v, old(pendingBarlines), b.endingNumber, b.repeatWinged)
    {
      AppendToVoice(v, BarlineElement(b));
      CloseEnding(v, b.endingNumber, b.repeatWinged);
    }

    /** `handleEndingStart`, for barline `b` already categorised: appended to voice `v` and pushed. */
    method HandleEndingStart(v: Id, b: Barline)
      requires Valid() && v in msr.score.voices
      modifies this`msr, this`pendingBarlines
      ensures Valid() && msr == AppendedTo(old(msr), v, BarlineElement(b))
      ensures pendingBarlines == old(pendingBarlines) + [b]
    {
      pendingBarlines := pendingBarlines + [b];
      AppendToVoice(v, BarlineElement(b));
    }

    /** Barline `b`, given category `c`, is handled in voice `v` by that category's handler. */
    method DispatchBarline(v: Id, b: Barline, c: Category) returns (status: Status)
      requires Valid() && v in msr.score.voices
      modifies this`msr, this`pendingBarlines
      ensures Valid()
      ensures var r := BarlineDispatched(old(msr), v, b, c, old(pendingBarlines));
        status == r.0 && msr == r.1 && pendingBarlines == r.2
    {
      var b' := b.(category := Some(c));
      status := Proceeding;
      match c
      case RepeatStartCategory => HandleRepeatStart(v, b');
      case HookedEndingEndCategory => HandleHookedEndingEnd(v, b');
      case RepeatEndCategory => HandleRepeatEnd(v, b');
      case EndingStartCategory => HandleEndingStart(v, b');
      case HooklessEndingEndCategory => status := HandleHooklessEndingEnd(v, b');
      case StandaloneBarCategory => AppendToVoice(v, BarlineElement(b'));
    }

    /**
     * The voice of those numbers is fetched, created if absent, and barline
     * `b` is handled there when it has a category.
     */
    method BarlineInVoice(staffNumber: int, voiceNumber: int, b: Barline, c: Option<Category>) returns (status: Status)
      requires Valid() && msr.currentPart.Some?
      modifies this`msr, this`pendingBarlines
      ensures Valid()
      ensures var r := BarlineEndOutcome(old(msr), staffNumber, voiceNumber, b, c, old(pendingBarlines));
        status == r.0 && msr == r.1 && pendingBarlines == r.2
    {
      var v;
      status, v := VoiceInCurrentPart(staffNumber, voiceNumber);
      if c.Some? {
        status := DispatchBarline(v, b, c.value);
      }
    }

    /**
     * `</barline>`: the barline described so far is categorised and handled in
     * the current voice; a barline with no category is reported with the
     * attribute strings as written. No barline is going on afterwards.
     */
    method BarlineEnd() returns (status: Status)
      requires Valid()
      modifies this`msr, this`pendingBarlines, this`diagnostics, this`onGoingBarline
      ensures Valid()
      ensures old(msr.currentPart).None? ==>
        status == Aborted(NoCurrentPart) && msr == old(msr) && pendingBarlines == old(pendingBarlines)
      ensures old(msr.currentPart).Some? ==>
        var c := Classify(old(barlineLocation), old(barlineStyle), old(barlineEndingType), old(barlineRepeatDirection));
        var r := BarlineEndOutcome(old(msr), old(currentStaffNumber), old(currentVoiceNumber), old(BarlineSoFar()), c,
                                   old(pendingBarlines));
        status == r.0 && msr == r.1 && pendingBarlines == r.2 && !onGoingBarline &&
        (c.Some? ==> diagnostics == old(diagnostics)) &&
        (c.None? ==> diagnostics == old(diagnostics) + [Diagnostic(Error, UnhandledBarline(old(currentLocation),
           old(currentStyle), old(currentEndingtype), old(currentEndingNumber), old(currentRepeatDirection),
           old(currentRepeatWinged)))])
    {
      if msr.currentPart.None? {
        return Aborted(NoCurrentPart);
      }
      var b := BarlineSoFar();
      var c := Classify(barlineLocation, barlineStyle, barlineEndingType, barlineRepeatDirection);
      if c.None? {
        Report(Some(Diagnostic(Error, UnhandledBarline(currentLocation, currentStyle, currentEndingtype,
                                                       currentEndingNumber, currentRepeatDirection, currentRepeatWinged))));
      }
      onGoingBarline := false;
      status := BarlineInVoice(currentStaffNumber, currentVoiceNumber, b, c);
    }
  }
}
