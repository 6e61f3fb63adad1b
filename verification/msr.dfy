/**
 * The MSR score the visitor builds, as values. Objects the visitor refers to
 * by identity (part groups, parts, voices, chords, grace-note groups, repeats
 * and lyric chunks) live in maps keyed by an id; notes, tuplets and barlines,
 * which are never changed once placed in a voice, are plain values.
 *
 * The operations here are those the visitor performs on MSR objects: appending
 * to, removing from and prepending to the current chunk of a voice, starting a
 * new chunk, building chords and tuplets, and inserting into and removing from
 * the list of open part groups.
 */
module Msr {
  import opened Wrappers
  import opened Kinds
  import opened Barlines
  import opened Lyrics

  /**
   * Identity of an MSR element held in one of the score's arenas. The visitor
   * hands them out from a counter starting at 0.
   */
  type Id = int

  // ---------------------------------------------------------------------------
  // Notes, chords, tuplets, grace notes

  datatype NoteKind =
    | UnknownNoteKind | StandaloneNote | RestNote | GraceNote | ChordMemberNote | TupletMemberNote

  /**
   * What the sub-elements of a `<note>` told the visitor before `</note>`,
   * together with the staff and voice numbers and the note type recorded there.
   */
  datatype NoteData = NoteData(
    step: char,
    octave: int,
    isRest: bool,
    isUnpitched: bool,
    isGrace: bool,
    divisions: int,
    dots: nat,
    belongsToChord: bool,
    belongsToTuplet: bool,
    staffNumber: int,
    voiceNumber: int,
    noteType: string)

  /** The note data every `<note>` starts from. */
  const NeutralNoteData := NoteData(' ', 0, false, false, false, 0, 0, false, false, 0, 0, "")

  datatype Beam = Beam(number: int, kind: BeamKind)
  datatype Stem = Stem(kind: Option<StemKind>)
  datatype Slur = Slur(number: int, kind: SlurKind)
  datatype Wedge = Wedge(kind: Option<WedgeKind>)
  datatype Words = Words(placement: Option<Placement>, contents: string)

  datatype Note = Note(
    id: Id,
    data: NoteData,
    divisionsPerWholeNote: int,
    kind: NoteKind,
    tie: Option<TieKind>,
    stem: Option<Stem>,
    beam: Option<Beam>,
    articulations: seq<ArticulationKind>,
    ornaments: seq<OrnamentKind>,
    dynamics: seq<DynamicsKind>,
    words: seq<Words>,
    slurs: seq<Slur>,
    wedges: seq<Wedge>)

  datatype Chord = Chord(
    divisions: int,
    divisionsPerWholeNote: int,
    tie: Option<TieKind>,
    notes: seq<Note>,
    articulations: seq<ArticulationKind>,
    ornaments: seq<OrnamentKind>,
    dynamics: seq<DynamicsKind>,
    words: seq<Words>,
    slurs: seq<Slur>,
    wedges: seq<Wedge>)

  datatype TupletMember = MemberNote(note: Note) | MemberTuplet(tuplet: Tuplet)

  datatype Tuplet = Tuplet(
    number: int,
    actualNotes: int,
    normalNotes: int,
    divisionsPerWholeNote: int,
    members: seq<TupletMember>)

  datatype Gracenotes = Gracenotes(slashed: bool, voice: Id, notes: seq<Note>)

  // ---------------------------------------------------------------------------
  // Repeats and lyrics

  datatype RepeatendingKind = HookedEnding | HooklessEnding

  datatype Repeatending = Repeatending(number: string, kind: RepeatendingKind, chunk: Id)

  /** A repeat: the chunk it repeats and its endings, each ending naming its chunk. */
  datatype Repeat = Repeat(commonChunk: Id, voice: Id, endings: seq<Repeatending>)

  datatype Lyricschunk = Lyricschunk(
    voice: Id,
    lyricsNumber: int,
    kind: ChunkKind,
    text: string,
    elision: bool,
    divisions: int,
    note: Option<Id>)

  // ---------------------------------------------------------------------------
  // Voices

  /** The direction marks a `<direction-type>` appends to a voice; a tempo keeps only its per-minute value. */
  datatype Direction =
    | SegnoMark
    | CodaMark
    | EyeglassesMark
    | PedalMark(pedalType: Option<PedalType>, line: Option<bool>)
    | OctaveShiftMark(octaveShift: Option<OctaveShiftKind>, size: int)
    | RehearsalMark(enclosure: RehearsalKind, text: string)
    | TempoMark(perMinute: int)

  datatype Element =
    | NoteElement(note: Note)
    | DirectionElement(direction: Direction)
    | ChordElement(chord: Id)
    | TupletElement(tuplet: Tuplet)
    | GracenotesElement(gracenotes: Id)
    | BarlineElement(barline: Barline)
    | RepeatElement(repeat: Id)

  datatype Chunk = Chunk(id: Id, elements: seq<Element>)

  /** A voice: its chunks, the last being the current one, and its lyric chunks. */
  datatype Voice = Voice(
    number: int,
    divisionsPerWholeNote: int,
    chunks: seq<Chunk>,
    lyricschunks: seq<Id>)

  /** A voice holds at least its current chunk. */
  predicate HasChunk(v: Voice) {
    |v.chunks| > 0
  }

  function CurrentChunk(v: Voice): Chunk
    requires HasChunk(v)
  {
    v.chunks[|v.chunks| - 1]
  }

  /** The elements of a sequence of chunks, in order. */
  function Flatten(cs: seq<Chunk>): (r: seq<Element>)
    ensures |cs| == 0 ==> r == []
  {
    if |cs| == 0 then [] else Flatten(cs[..|cs| - 1]) + cs[|cs| - 1].elements
  }

  /** Everything in a voice, chunk boundaries forgotten. */
  function Timeline(v: Voice): seq<Element> {
    Flatten(v.chunks)
  }

  /** A new voice starts with one empty chunk. */
  function NewVoice(number: int, chunkId: Id): (v: Voice)
    ensures HasChunk(v) && Timeline(v) == [] && CurrentChunk(v).id == chunkId
  {
    var v := Voice(number, 0, [Chunk(chunkId, [])], []);
    assert v.chunks[..0] == [];
    v
  }

  function WithCurrentChunk(v: Voice, c: Chunk): (r: Voice)
    requires HasChunk(v)
    ensures HasChunk(r) && CurrentChunk(r) == c
    ensures r.chunks[..|r.chunks| - 1] == v.chunks[..|v.chunks| - 1]
    ensures Timeline(r) == Flatten(v.chunks[..|v.chunks| - 1]) + c.elements
  {
    var r := v.(chunks := v.chunks[..|v.chunks| - 1] + [c]);
    assert r.chunks[..|r.chunks| - 1] == v.chunks[..|v.chunks| - 1];
    r
  }

  /** Appends an element to the current chunk of the voice. */
  function Append(v: Voice, e: Element): (r: Voice)
    requires HasChunk(v)
    ensures HasChunk(r) && |r.chunks| == |v.chunks|
    ensures Timeline(r) == Timeline(v) + [e]
    ensures CurrentChunk(r).id == CurrentChunk(v).id
    ensures CurrentChunk(r).elements == CurrentChunk(v).elements + [e]
    ensures r.chunks[..|r.chunks| - 1] == v.chunks[..|v.chunks| - 1]
    ensures r.number == v.number && r.lyricschunks == v.lyricschunks
  {
    var c := CurrentChunk(v);
    WithCurrentChunk(v, c.(elements := c.elements + [e]))
  }

  /**
   * Removes the last element of the current chunk, returning it; nothing is
   * removed when the current chunk is empty.
   */
  function RemoveLast(v: Voice): (r: (Option<Element>, Voice))
    requires HasChunk(v)
    ensures HasChunk(r.1) && |r.1.chunks| == |v.chunks|
    ensures r.0.Some? ==> Timeline(r.1) + [r.0.value] == Timeline(v)
    ensures r.0.None? <==> CurrentChunk(v).elements == []
    ensures r.0.None? ==> r.1 == v
    ensures r.1.number == v.number && r.1.lyricschunks == v.lyricschunks
  {
    var c := CurrentChunk(v);
    if |c.elements| == 0 then (None, v)
    else
      var last := c.elements[|c.elements| - 1];
      var rest := c.elements[..|c.elements| - 1];
      assert c.elements == rest + [last];
      (Some(last), WithCurrentChunk(v, c.(elements := rest)))
  }

  /** Removing the last element undoes appending it. */
  lemma RemoveLastAfterAppend(v: Voice, e: Element)
    requires HasChunk(v)
    ensures RemoveLast(Append(v, e)) == (Some(e), v)
  {
    var c := CurrentChunk(v);
    var a := Append(v, e);
    assert CurrentChunk(a).elements == c.elements + [e];
    assert (c.elements + [e])[..|c.elements|] == c.elements;
    assert v.chunks == v.chunks[..|v.chunks| - 1] + [c];
  }

  /**
   * Removing the last element of a voice and appending another replaces the
   * last element of its timeline.
   */
  lemma ReplaceLast(v: Voice, e: Element)
    requires HasChunk(v) && RemoveLast(v).0.Some?
    ensures var t := Timeline(v);
      |t| > 0 && t[|t| - 1] == RemoveLast(v).0.value &&
      Timeline(Append(RemoveLast(v).1, e)) == t[..|t| - 1] + [e]
  {
    var r := RemoveLast(v);
    assert Timeline(r.1) + [r.0.value] == Timeline(v);
  }

  /** Prepends an element to the current chunk of the voice. */
  function Prepend(v: Voice, e: Element): (r: Voice)
    requires HasChunk(v)
    ensures HasChunk(r) && |r.chunks| == |v.chunks|
    ensures Timeline(r) == Flatten(v.chunks[..|v.chunks| - 1]) + [e] + CurrentChunk(v).elements
    ensures r.number == v.number && r.lyricschunks == v.lyricschunks
  {
    var c := CurrentChunk(v);
    WithCurrentChunk(v, c.(elements := [e] + c.elements))
  }

  /** Starts a new, empty current chunk; what the voice holds does not change. */
  function NewChunk(v: Voice, chunkId: Id): (r: Voice)
    ensures HasChunk(r) && CurrentChunk(r) == Chunk(chunkId, [])
    ensures r.chunks[..|r.chunks| - 1] == v.chunks
    ensures Timeline(r) == Timeline(v)
    ensures r.number == v.number && r.lyricschunks == v.lyricschunks
  {
    var r := v.(chunks := v.chunks + [Chunk(chunkId, [])]);
    assert r.chunks[..|r.chunks| - 1] == v.chunks;
    r
  }

  /** Prepending to a chunk just started amounts to appending to the voice. */
  lemma PrependToNewChunk(v: Voice, chunkId: Id, e: Element)
    ensures Timeline(Prepend(NewChunk(v, chunkId), e)) == Timeline(v) + [e]
  {
  }

  // ---------------------------------------------------------------------------
  // Chords

  /**
   * The chord a note turns out to begin: it takes the note's duration, divisions
   * per whole note and tie, has the note as its only member, and receives copies
   * of the note's articulations, ornaments, dynamics, words, slurs and wedges.
   */
  function ChordFromFirstNote(first: Note): (c: Chord)
    ensures c.notes == [first]
    ensures c.divisions == first.data.divisions && c.tie == first.tie
    ensures c.divisionsPerWholeNote == first.divisionsPerWholeNote
    ensures CarriesDecorationsOf(c, [first])
  {
    DecorationsOfOne(first);
    CopyNoteElementsToChord(
      AddNoteToChord(Chord(first.data.divisions, first.divisionsPerWholeNote, first.tie, [], [], [], [], [], [], []), first),
      first)
  }

  function AddNoteToChord(c: Chord, n: Note): (r: Chord)
    ensures r.notes == c.notes + [n]
    ensures r.(notes := c.notes) == c
  {
    c.(notes := c.notes + [n])
  }

  /** The note's decorations are copied onto the chord; the note keeps them. */
  function CopyNoteElementsToChord(c: Chord, n: Note): (r: Chord)
    ensures r.notes == c.notes && r.divisions == c.divisions && r.tie == c.tie
    ensures r.divisionsPerWholeNote == c.divisionsPerWholeNote
    ensures r.articulations == c.articulations + n.articulations
    ensures r.ornaments == c.ornaments + n.ornaments
    ensures r.dynamics == c.dynamics + n.dynamics
    ensures r.words == c.words + n.words
    ensures r.slurs == c.slurs + n.slurs
    ensures r.wedges == c.wedges + n.wedges
  {
    c.(articulations := c.articulations + n.articulations,
       ornaments := c.ornaments + n.ornaments,
       dynamics := c.dynamics + n.dynamics,
       words := c.words + n.words,
       slurs := c.slurs + n.slurs,
       wedges := c.wedges + n.wedges)
  }

  /** The concatenated decorations of a sequence of notes. */
  function AllArticulations(ns: seq<Note>): seq<ArticulationKind> {
    if |ns| == 0 then [] else AllArticulations(ns[..|ns| - 1]) + ns[|ns| - 1].articulations
  }
  function AllOrnaments(ns: seq<Note>): seq<OrnamentKind> {
    if |ns| == 0 then [] else AllOrnaments(ns[..|ns| - 1]) + ns[|ns| - 1].ornaments
  }
  function AllDynamics(ns: seq<Note>): seq<DynamicsKind> {
    if |ns| == 0 then [] else AllDynamics(ns[..|ns| - 1]) + ns[|ns| - 1].dynamics
  }
  function AllWords(ns: seq<Note>): seq<Words> {
    if |ns| == 0 then [] else AllWords(ns[..|ns| - 1]) + ns[|ns| - 1].words
  }
  function AllSlurs(ns: seq<Note>): seq<Slur> {
    if |ns| == 0 then [] else AllSlurs(ns[..|ns| - 1]) + ns[|ns| - 1].slurs
  }
  function AllWedges(ns: seq<Note>): seq<Wedge> {
    if |ns| == 0 then [] else AllWedges(ns[..|ns| - 1]) + ns[|ns| - 1].wedges
  }

  /** A single note's decorations, concatenated, are its own. */
  lemma DecorationsOfOne(n: Note)
    ensures AllArticulations([n]) == n.articulations && AllOrnaments([n]) == n.ornaments
    ensures AllDynamics([n]) == n.dynamics && AllWords([n]) == n.words
    ensures AllSlurs([n]) == n.slurs && AllWedges([n]) == n.wedges
  {
    assert [n][..0] == [];
  }

  /** The chord carries, in order, the decorations of the given notes. */
  predicate CarriesDecorationsOf(c: Chord, ns: seq<Note>) {
    c.articulations == AllArticulations(ns) && c.ornaments == AllOrnaments(ns) &&
    c.dynamics == AllDynamics(ns) && c.words == AllWords(ns) &&
    c.slurs == AllSlurs(ns) && c.wedges == AllWedges(ns)
  }

  /**
   * A chord built by the visitor carries the decorations of all its members:
   * joining a note to a chord and copying its decorations keeps that so.
   */
  lemma JoinKeepsDecorations(c: Chord, n: Note)
    requires CarriesDecorationsOf(c, c.notes)
    ensures var r := CopyNoteElementsToChord(AddNoteToChord(c, n), n);
      CarriesDecorationsOf(r, r.notes)
  {
    var ns := c.notes + [n];
    assert ns[..|ns| - 1] == c.notes;
  }

  /** A chord begun by one note and joined by a second has them as members, in that order. */
  lemma ChordOfTwoNotes(first: Note, second: Note)
    ensures var c := CopyNoteElementsToChord(AddNoteToChord(ChordFromFirstNote(first), second), second);
      c.notes == [first, second] && c.divisions == first.data.divisions && c.tie == first.tie &&
      CarriesDecorationsOf(c, [first, second])
  {
    JoinKeepsDecorations(ChordFromFirstNote(first), second);
  }

  // ---------------------------------------------------------------------------
  // Tuplets

  function AddToTuplet(t: Tuplet, m: TupletMember): (r: Tuplet)
    ensures r.members == t.members + [m]
    ensures r.(members := t.members) == t
  {
    t.(members := t.members + [m])
  }

  /**
   * The tuplet that results from closing every tuplet of a stack (bottom first):
   * each one is nested, as its last member, in the one beneath it.
   */
  function NestChain(s: seq<Tuplet>): (r: Tuplet)
    requires |s| > 0
    ensures r.(members := s[0].members) == s[0]
    ensures |s| == 1 ==> r == s[0]
  {
    if |s| == 1 then s[0] else AddToTuplet(s[0], MemberTuplet(NestChain(s[1..])))
  }

  /**
   * Closing the top tuplet into the one beneath does not change the result of
   * closing the whole stack; this is what the flushing loop relies on.
   */
  lemma {:induction false} NestChainSplit(p: seq<Tuplet>, q: seq<Tuplet>)
    requires |q| > 0
    ensures NestChain(p + q) == NestChain(p + [NestChain(q)])
  {
    if |p| > 0 {
      assert (p + q)[1..] == p[1..] + q;
      assert (p + [NestChain(q)])[1..] == p[1..] + [NestChain(q)];
      NestChainSplit(p[1..], q);
    } else {
      assert p + q == q;
      assert p + [NestChain(q)] == [NestChain(q)];
    }
  }

  /** One step of the flush: pop the top tuplet and nest it in the new top. */
  function PopIntoNext(s: seq<Tuplet>): (r: seq<Tuplet>)
    requires |s| >= 2
    ensures |r| == |s| - 1
    ensures r[..|r| - 1] == s[..|s| - 2]
    ensures NestChain(r) == NestChain(s)
  {
    var r := s[..|s| - 2] + [AddToTuplet(s[|s| - 2], MemberTuplet(s[|s| - 1]))];
    assert s == s[..|s| - 2] + [s[|s| - 2], s[|s| - 1]];
    NestChainSplit(s[..|s| - 2], [s[|s| - 2], s[|s| - 1]]);
    assert [s[|s| - 2], s[|s| - 1]][1..] == [s[|s| - 1]];
    r
  }

  /** The stack of open tuplets (innermost last) with `m` added to the innermost one. */
  function AddToTop(stack: seq<Tuplet>, m: TupletMember): (r: seq<Tuplet>)
    requires |stack| > 0
    ensures |r| == |stack| && r[..|r| - 1] == stack[..|stack| - 1]
    ensures r[|r| - 1] == AddToTuplet(stack[|stack| - 1], m)
  {
    stack[..|stack| - 1] + [AddToTuplet(stack[|stack| - 1], m)]
  }

  /**
   * A tuplet stop: the innermost tuplet receives `m` and is popped; it becomes
   * the last member of the tuplet beneath, or, when there is none, it is
   * returned to be appended to the voice.
   */
  function CloseTop(stack: seq<Tuplet>, m: TupletMember): (r: (seq<Tuplet>, Option<Tuplet>))
    requires |stack| > 0
    ensures |r.0| == |stack| - 1 && (r.1.Some? <==> |stack| == 1)
    ensures |stack| == 1 ==> r.1 == Some(AddToTuplet(stack[0], m))
    ensures |stack| > 1 ==> r.0 == AddToTop(stack[..|stack| - 1], MemberTuplet(AddToTuplet(stack[|stack| - 1], m)))
  {
    var closed := AddToTuplet(stack[|stack| - 1], m);
    if |stack| == 1 then ([], Some(closed))
    else (AddToTop(stack[..|stack| - 1], MemberTuplet(closed)), None)
  }

  // ---------------------------------------------------------------------------
  // Staves, parts, part groups, score

  /** A staff: its voices by number. */
  datatype Staff = Staff(id: Id, number: int, voices: map<int, Id>)

  datatype Part = Part(
    partID: string,
    name: string,
    abbreviation: string,
    instrumentName: string,
    divisionsPerWholeNote: int,
    staves: map<int, Staff>)

  datatype PartgroupElement = SubPartgroup(group: Id) | PartMember(part: Id)

  datatype Partgroup = Partgroup(
    number: int,
    name: string,
    abbreviation: string,
    symbol: PartgroupSymbol,
    symbolDefaultX: int,
    barline: bool,
    parent: Option<Id>,
    elements: seq<PartgroupElement>)

  datatype Score = Score(
    partgroups: seq<Id>,
    groups: map<Id, Partgroup>,
    parts: map<Id, Part>,
    voices: map<Id, Voice>,
    chords: map<Id, Chord>,
    gracenotes: map<Id, Gracenotes>,
    repeats: map<Id, Repeat>,
    lyricschunks: map<Id, Lyricschunk>)

  const EmptyScore := Score([], map[], map[], map[], map[], map[], map[], map[])

  predicate KeysBelow<T>(m: map<Id, T>, next: Id) {
    forall k :: k in m ==> k < next
  }

  predicate StaffWellFormed(st: Staff, voices: map<Id, Voice>, next: Id) {
    st.id < next && forall n :: n in st.voices ==> st.voices[n] in voices
  }

  predicate PartWellFormed(p: Part, voices: map<Id, Voice>, next: Id) {
    forall n :: n in p.staves ==> StaffWellFormed(p.staves[n], voices, next)
  }

  /**
   * Every id in use is below `next`, every voice a staff names exists, and every
   * voice has a current chunk.
   */
  predicate WellFormed(s: Score, next: Id) {
    KeysBelow(s.groups, next) && KeysBelow(s.parts, next) && KeysBelow(s.voices, next) &&
    KeysBelow(s.chords, next) && KeysBelow(s.gracenotes, next) && KeysBelow(s.repeats, next) &&
    KeysBelow(s.lyricschunks, next) &&
    (forall p :: p in s.parts ==> PartWellFormed(s.parts[p], s.voices, next)) &&
    (forall v :: v in s.voices ==> HasChunk(s.voices[v]))
  }

  /** Raising the id bound keeps a score well formed. */
  lemma WellFormedMonotonic(s: Score, next: Id, next': Id)
    requires WellFormed(s, next) && next <= next'
    ensures WellFormed(s, next')
  {
    forall p | p in s.parts
      ensures PartWellFormed(s.parts[p], s.voices, next')
    {
      assert PartWellFormed(s.parts[p], s.voices, next);
    }
  }

  /** The part, among the members of a part group, whose part ID is the given one. */
  function FetchPartFromPartgroup(s: Score, elements: seq<PartgroupElement>, partID: string): (r: Option<Id>)
    ensures r.Some? ==> PartMember(r.value) in elements && r.value in s.parts && s.parts[r.value].partID == partID
    ensures r.None? ==> forall e :: e in elements && e.PartMember? && e.part in s.parts ==> s.parts[e.part].partID != partID
  {
    if |elements| == 0 then None
    else
      var e := elements[0];
      if e.PartMember? && e.part in s.parts && s.parts[e.part].partID == partID then Some(e.part)
      else
        var r := FetchPartFromPartgroup(s, elements[1..], partID);
        assert forall x :: x in elements ==> x == e || x in elements[1..];
        r
  }

  // ---------------------------------------------------------------------------
  // Get-or-create addressing of staves and voices

  /**
   * The part with a staff numbered `number`: the part itself when it has one,
   * otherwise the part with a new staff of that number, id `id` and no voices.
   */
  function EnsureStaff(p: Part, number: int, id: Id): (r: Part)
    ensures number in r.staves
    ensures number in p.staves ==> r == p
    ensures number !in p.staves ==> r.staves[number] == Staff(id, number, map[])
    ensures r.staves.Keys == p.staves.Keys + {number}
    ensures forall n :: n in p.staves ==> r.staves[n] == p.staves[n]
    ensures r.(staves := p.staves) == p
  {
    if number in p.staves then p else p.(staves := p.staves[number := Staff(id, number, map[])])
  }

  /** A second lookup of the same staff finds the one the first created and adds nothing. */
  lemma EnsureStaffOnce(p: Part, number: int, id: Id, id': Id)
    ensures EnsureStaff(EnsureStaff(p, number, id), number, id') == EnsureStaff(p, number, id)
  {
  }

  /** `addStaffToPart`: a new, empty staff of that number, replacing any staff of that number. */
  function AddStaff(p: Part, number: int, id: Id): (r: Part)
    ensures r.staves.Keys == p.staves.Keys + {number}
    ensures r.staves[number] == Staff(id, number, map[])
    ensures forall n :: n in p.staves && n != number ==> r.staves[n] == p.staves[n]
    ensures r.(staves := p.staves) == p
  {
    p.(staves := p.staves[number := Staff(id, number, map[])])
  }

  /**
   * The part after `<staves>n</staves>`: staves 2 to n added in turn, staff k
   * new and empty with id `id + k - 2`, replacing any staff of that number.
   */
  function AddStaves(p: Part, n: int, id: Id): (r: Part)
    decreases n
    ensures r.(staves := p.staves) == p
    ensures p.staves.Keys <= r.staves.Keys
    ensures forall k :: k in r.staves && k !in p.staves ==> 2 <= k <= n
    ensures forall k :: 2 <= k <= n ==> k in r.staves && r.staves[k] == Staff(id + k - 2, k, map[])
    ensures forall k :: k in p.staves && !(2 <= k <= n) ==> r.staves[k] == p.staves[k]
  {
    if n < 2 then p else AddStaff(AddStaves(p, n - 1, id), n, id + n - 2)
  }

  /** The staff with a voice numbered `voiceNumber`: the staff itself when it has one, otherwise with voice id `v` added. */
  function EnsureVoiceInStaff(st: Staff, voiceNumber: int, v: Id): (r: Staff)
    ensures voiceNumber in r.voices
    ensures voiceNumber in st.voices ==> r == st
    ensures voiceNumber !in st.voices ==> r.voices == st.voices[voiceNumber := v]
    ensures r.(voices := st.voices) == st
  {
    if voiceNumber in st.voices then st else st.(voices := st.voices[voiceNumber := v])
  }

  /** Whether the score already has that voice in that staff of part `p`. */
  predicate HasVoice(s: Score, p: Id, staffNumber: int, voiceNumber: int)
    requires p in s.parts
  {
    staffNumber in s.parts[p].staves && voiceNumber in s.parts[p].staves[staffNumber].voices
  }

  /**
   * The voice numbered `voiceNumber` in staff `staffNumber` of part `p`, created
   * if absent: a missing staff gets id `id`, a missing voice id `id + 1` and a
   * first chunk of id `id + 2`. The score is returned with the voice's id.
   */
  function EnsureVoice(s: Score, p: Id, staffNumber: int, voiceNumber: int, id: Id): (r: (Score, Id))
    requires WellFormed(s, id) && p in s.parts
    ensures p in r.0.parts && staffNumber in r.0.parts[p].staves
    ensures voiceNumber in r.0.parts[p].staves[staffNumber].voices
    ensures r.0.parts[p].staves[staffNumber].voices[voiceNumber] == r.1
    ensures r.1 in r.0.voices && HasChunk(r.0.voices[r.1])
    // an existing voice is found, and nothing is added
    ensures HasVoice(s, p, staffNumber, voiceNumber) ==>
      r == (s, s.parts[p].staves[staffNumber].voices[voiceNumber])
    // a missing voice is added, empty, under the fresh id, and only its staff changes
    ensures !HasVoice(s, p, staffNumber, voiceNumber) ==>
      r.1 == id + 1 && r.0.voices == s.voices[id + 1 := NewVoice(voiceNumber, id + 2)] &&
      r.0.parts == s.parts[p := r.0.parts[p]] &&
      r.0.parts[p] == EnsureStaff(s.parts[p], staffNumber, id).(staves := r.0.parts[p].staves) &&
      r.0.parts[p].staves == EnsureStaff(s.parts[p], staffNumber, id).staves[staffNumber := r.0.parts[p].staves[staffNumber]]
    ensures r.0.(parts := s.parts, voices := s.voices) == s
  {
    var part := EnsureStaff(s.parts[p], staffNumber, id);
    var staff := part.staves[staffNumber];
    if voiceNumber in staff.voices then
      assert part == s.parts[p];
      assert PartWellFormed(s.parts[p], s.voices, id);
      assert StaffWellFormed(staff, s.voices, id);
      (s, staff.voices[voiceNumber])
    else
      var part' := part.(staves := part.staves[staffNumber := EnsureVoiceInStaff(staff, voiceNumber, id + 1)]);
      (s.(parts := s.parts[p := part'], voices := s.voices[id + 1 := NewVoice(voiceNumber, id + 2)]), id + 1)
  }

  /** Get-or-create keeps the score well formed, with three more ids in use. */
  lemma EnsureVoiceWellFormed(s: Score, p: Id, staffNumber: int, voiceNumber: int, id: Id)
    requires WellFormed(s, id) && p in s.parts
    ensures var r := EnsureVoice(s, p, staffNumber, voiceNumber, id);
      WellFormed(r.0, id + 3) && r.1 in r.0.voices && r.0.parts.Keys == s.parts.Keys
  {
    if HasVoice(s, p, staffNumber, voiceNumber) {
      WellFormedMonotonic(s, id, id + 3);
    } else {
      NewVoiceWellFormed(s, p, staffNumber, voiceNumber, id);
    }
  }

  /** The creating half of get-or-create: the new staff, voice and chunk ids are all below `id + 3`. */
  lemma NewVoiceWellFormed(s: Score, p: Id, staffNumber: int, voiceNumber: int, id: Id)
    requires WellFormed(s, id) && p in s.parts && !HasVoice(s, p, staffNumber, voiceNumber)
    ensures WellFormed(EnsureVoice(s, p, staffNumber, voiceNumber, id).0, id + 3)
  {
    var part := EnsureStaff(s.parts[p], staffNumber, id);
    var staff := EnsureVoiceInStaff(part.staves[staffNumber], voiceNumber, id + 1);
    var part' := part.(staves := part.staves[staffNumber := staff]);
    var voices := s.voices[id + 1 := NewVoice(voiceNumber, id + 2)];
    assert EnsureVoice(s, p, staffNumber, voiceNumber, id).0 == s.(parts := s.parts[p := part'], voices := voices);
    assert PartWellFormed(s.parts[p], s.voices, id);
    forall n | n in part'.staves
      ensures StaffWellFormed(part'.staves[n], voices, id + 3)
    {
      if n != staffNumber || staffNumber in s.parts[p].staves {
        assert StaffWellFormed(s.parts[p].staves[n], s.voices, id);
      }
    }
    forall q | q in s.parts && q != p
      ensures PartWellFormed(s.parts[q], voices, id + 3)
    {
      assert PartWellFormed(s.parts[q], s.voices, id);
    }
  }

  /** Looking a voice up again finds the one the first lookup created, and adds nothing. */
  lemma EnsureVoiceOnce(s: Score, p: Id, staffNumber: int, voiceNumber: int, id: Id, id': Id)
    requires WellFormed(s, id) && p in s.parts && id + 3 <= id'
    ensures WellFormed(EnsureVoice(s, p, staffNumber, voiceNumber, id).0, id')
    ensures var r := EnsureVoice(s, p, staffNumber, voiceNumber, id);
      EnsureVoice(r.0, p, staffNumber, voiceNumber, id') == r
  {
    EnsureVoiceWellFormed(s, p, staffNumber, voiceNumber, id);
    WellFormedMonotonic(EnsureVoice(s, p, staffNumber, voiceNumber, id).0, id + 3, id');
  }

  /** The score with voice `v` replaced; it stays well formed when the new voice has a current chunk. */
  function SetVoice(s: Score, v: Id, voice: Voice): (r: Score)
    requires v in s.voices
    ensures r.voices.Keys == s.voices.Keys && r.voices[v] == voice
    ensures forall w :: w in s.voices && w != v ==> r.voices[w] == s.voices[w]
    ensures r.(voices := s.voices) == s
    ensures forall next: Id :: WellFormed(s, next) && HasChunk(voice) ==> WellFormed(r, next)
  {
    var r := s.(voices := s.voices[v := voice]);
    assert r.voices.Keys == s.voices.Keys;
    r
  }

  // ---------------------------------------------------------------------------
  // Fresh objects keep the score well formed

  lemma FreshGroupWellFormed(s: Score, next: Id, g: Partgroup)
    requires WellFormed(s, next)
    ensures WellFormed(s.(groups := s.groups[next := g]), next + 1)
  {
    WellFormedMonotonic(s, next, next + 1);
  }

  lemma FreshPartWellFormed(s: Score, next: Id, p: Part)
    requires WellFormed(s, next) && p.staves == map[]
    ensures WellFormed(s.(parts := s.parts[next := p]), next + 1)
  {
    WellFormedMonotonic(s, next, next + 1);
  }

  /** Replacing a part by one with the same staves keeps a score well formed. */
  lemma SameStavesWellFormed(s: Score, next: Id, p: Id, part: Part)
    requires WellFormed(s, next) && p in s.parts && part.staves == s.parts[p].staves
    ensures WellFormed(s.(parts := s.parts[p := part]), next)
  {
    assert PartWellFormed(s.parts[p], s.voices, next);
  }

  /** Replacing a part by a well-formed one keeps a score well formed. */
  lemma PartUpdateWellFormed(s: Score, next: Id, p: Id, part: Part)
    requires WellFormed(s, next) && p in s.parts && PartWellFormed(part, s.voices, next)
    ensures WellFormed(s.(parts := s.parts[p := part]), next)
  {
  }

  /** A staff looked up or created with a fresh id keeps its part well formed. */
  lemma EnsureStaffWellFormed(s: Score, p: Id, number: int, id: Id)
    requires WellFormed(s, id) && p in s.parts
    ensures WellFormed(s.(parts := s.parts[p := EnsureStaff(s.parts[p], number, id)]), id + 1)
  {
    WellFormedMonotonic(s, id, id + 1);
    assert PartWellFormed(s.parts[p], s.voices, id + 1);
    PartUpdateWellFormed(s, id + 1, p, EnsureStaff(s.parts[p], number, id));
  }

  /** So does a staff added, or replaced, with a fresh id. */
  lemma AddStaffWellFormed(s: Score, p: Id, number: int, id: Id)
    requires WellFormed(s, id) && p in s.parts
    ensures WellFormed(s.(parts := s.parts[p := AddStaff(s.parts[p], number, id)]), id + 1)
  {
    WellFormedMonotonic(s, id, id + 1);
    assert PartWellFormed(s.parts[p], s.voices, id + 1);
    PartUpdateWellFormed(s, id + 1, p, AddStaff(s.parts[p], number, id));
  }

  /** Adding staves 2 to n with fresh ids keeps a score well formed, with n - 1 more ids in use. */
  lemma AddStavesWellFormed(s: Score, p: Id, n: int, id: Id)
    requires WellFormed(s, id) && p in s.parts && n >= 1
    ensures WellFormed(s.(parts := s.parts[p := AddStaves(s.parts[p], n, id)]), id + n - 1)
  {
    WellFormedMonotonic(s, id, id + n - 1);
    var part := AddStaves(s.parts[p], n, id);
    assert PartWellFormed(s.parts[p], s.voices, id + n - 1);
    forall k | k in part.staves
      ensures StaffWellFormed(part.staves[k], s.voices, id + n - 1)
    {
      if !(2 <= k <= n) {
        assert StaffWellFormed(s.parts[p].staves[k], s.voices, id + n - 1);
      }
    }
    PartUpdateWellFormed(s, id + n - 1, p, part);
  }

  lemma FreshChordWellFormed(s: Score, next: Id, c: Chord)
    requires WellFormed(s, next)
    ensures WellFormed(s.(chords := s.chords[next := c]), next + 1)
  {
    WellFormedMonotonic(s, next, next + 1);
  }

  lemma FreshGracenotesWellFormed(s: Score, next: Id, g: Gracenotes)
    requires WellFormed(s, next)
    ensures WellFormed(s.(gracenotes := s.gracenotes[next := g]), next + 1)
  {
    WellFormedMonotonic(s, next, next + 1);
  }

  lemma FreshRepeatWellFormed(s: Score, next: Id, r: Repeat)
    requires WellFormed(s, next)
    ensures WellFormed(s.(repeats := s.repeats[next := r]), next + 1)
  {
    WellFormedMonotonic(s, next, next + 1);
  }

  lemma FreshLyricschunkWellFormed(s: Score, next: Id, l: Lyricschunk)
    requires WellFormed(s, next)
    ensures WellFormed(s.(lyricschunks := s.lyricschunks[next := l]), next + 1)
  {
    WellFormedMonotonic(s, next, next + 1);
  }

  // ---------------------------------------------------------------------------
  // The list of open part groups, ordered by symbol default-x

  predicate NonDecreasing(xs: seq<int>) {
    forall i, j :: 0 <= i < j < |xs| ==> xs[i] <= xs[j]
  }

  /** The symbol default-x of each listed part group. */
  function DefaultXs(list: seq<Id>, groups: map<Id, Partgroup>): (r: seq<int>)
    requires forall g :: g in list ==> g in groups
    ensures |r| == |list|
    ensures forall i :: 0 <= i < |list| ==> list[i] in groups && r[i] == groups[list[i]].symbolDefaultX
  {
    if |list| == 0 then []
    else
      var last := list[|list| - 1];
      assert last in list;
      DefaultXs(list[..|list| - 1], groups) + [groups[last].symbolDefaultX]
  }

  /**
   * Where a group with default-x `x` goes: before the first entry whose
   * default-x is strictly greater, at the end if there is none.
   */
  function InsertPosition(xs: seq<int>, x: int): (r: nat)
    ensures r <= |xs|
    ensures forall i :: 0 <= i < r ==> xs[i] <= x
    ensures r < |xs| ==> x < xs[r]
  {
    if |xs| == 0 then 0
    else if x < xs[0] then 0
    else 1 + InsertPosition(xs[1..], x)
  }

  /** The entries of a sequence with `x` inserted at position `r`. */
  lemma InsertedAt(xs: seq<int>, r: nat, x: int, k: nat)
    requires r <= |xs| && k <= |xs|
    ensures (xs[..r] + [x] + xs[r..])[k] == if k < r then xs[k] else if k == r then x else xs[k - 1]
  {
  }

  /**
   * Inserting at that position keeps a non-decreasing sequence non-decreasing,
   * and the new entry comes after every entry equal to it.
   */
  lemma InsertKeepsOrder(xs: seq<int>, x: int)
    requires NonDecreasing(xs)
    ensures var r := InsertPosition(xs, x);
      NonDecreasing(xs[..r] + [x] + xs[r..]) &&
      forall i :: 0 <= i < |xs| && xs[i] == x ==> i < r
  {
    var r := InsertPosition(xs, x);
    var ys := xs[..r] + [x] + xs[r..];
    forall i, j | 0 <= i < j < |ys|
      ensures ys[i] <= ys[j]
    {
      InsertedAt(xs, r, x, i);
      InsertedAt(xs, r, x, j);
      if i == r {
        assert xs[r] <= xs[j - 1];
      }
    }
    forall i | 0 <= i < |xs| && xs[i] == x
      ensures i < r
    {
      if r < |xs| {
        assert xs[i] < xs[r];
      }
    }
  }

  /** The first position of `g` in the list, if any. */
  function FirstIndexOf(list: seq<Id>, g: Id): (r: Option<nat>)
    ensures r.Some? ==> r.value < |list| && list[r.value] == g && g !in list[..r.value]
    ensures r.None? <==> g !in list
  {
    if |list| == 0 then None
    else if list[0] == g then Some(0)
    else
      var r := FirstIndexOf(list[1..], g);
      assert forall x :: x in list ==> x == list[0] || x in list[1..];
      if r.None? then None
      else
        assert list[..r.value + 1] == [list[0]] + list[1..][..r.value];
        Some(r.value + 1)
  }

  /** Inserting an entry adds exactly that entry to the members of a list. */
  lemma InsertedMembers(list: seq<Id>, i: nat, g: Id)
    requires i <= |list|
    ensures forall h :: h in list[..i] + [g] + list[i..] <==> h == g || h in list
  {
    assert list == list[..i] + list[i..];
  }

  /** Removing an entry keeps only members of the list. */
  lemma RemovedMembers(list: seq<Id>, i: nat)
    requires i < |list|
    ensures forall h :: h in list[..i] + list[i + 1..] ==> h in list
  {
    assert list == list[..i] + [list[i]] + list[i + 1..];
  }

  /** Removing the first occurrence of a listed group takes away exactly one of its occurrences. */
  lemma RemoveFirstCounts(list: seq<Id>, i: nat)
    requires i < |list|
    ensures multiset(list[..i] + list[i + 1..]) == multiset(list) - multiset{list[i]}
  {
    assert list == list[..i] + [list[i]] + list[i + 1..];
  }
}
