# xml2MsrVisitor in Dafny

A model of the MusicXML → MSR visitor of the xml2lilypond converter
(`src/lilypond/xml2MsrVisitor.cpp`). The visitor makes one pass over a MusicXML tree. Each
element start or end updates its "current" fields. At the right moments it commits MSR
(Music Score Representation) objects: part groups, parts, staves, voices and their chunks,
notes, chords, tuplets, grace notes, barlines, repeats and lyric chunks.

The project is organised as follows:

- `wrappers.dfy`: the `Option` type.
- `kinds.dfy`: the MSR enumerations, the diagnostics the visitor reports, and every
  string-to-kind lookup the visitor applies to MusicXML values. Each lookup has a `Name`
  inverse, which pins down which string yields which kind.
- `barlines.dfy`: the MSR barline record, the classifier that `</barline>` applies, and the
  implicit repeat-start barline.
- `lyrics.dfy`: the choice of lyric chunk kind and the handling of lyric text.
- `msr.dfy`: the MSR score as a value. Objects the visitor refers to by identity live in maps
  keyed by an id. The file also holds the operations the visitor performs on voices, chords,
  tuplets, staves and the list of open part groups, with their lemmas.
- `assembly.dfy`: the loops of note assembly: draining the pending queues, copying a note's
  decorations onto a chord, flushing the tuplet stack, and binding lyric chunks to their note.
- `visitor.dfy`: the class `Xml2MsrVisitor`. Its fields are the visitor's fields; the MSR
  objects and the visitor's handles on them form one field `msr`, which keeps the invariant
  `Valid()`. There is one method per callback and per handler.
- `repeats.dfy`: what the barline handlers do to a voice's timeline and to the stack of pending
  barlines, stated apart from the order of their steps.

Error handling follows the visitor:

- A MusicXML error or warning is appended to `diagnostics`, and processing goes on.
- An internal error, or a dereference of an object that does not exist (no current part, no
  current repeat, an empty tuplet stack, no last handled note), ends the method with an
  `Aborted` status.

## Model

The ghost outcome functions of the visitor (RepeatStartAdded, EndingClosed, BarlineDispatched, BarlineEndOutcome, NonChordPlaced, TupletsFlushed, StandalonePlaced, ChordPlaced, TupletPlaced, ChordForgotten, StoppedPartgroup and their siblings) are the contracts of the methods that carry them; each is covered by the row of its method, and by the rows of the lemmas stated about it.

| member | source | states |
|---|---|---|
| Kinds.PartgroupTypeOf | src/lilypond/xml2MsrVisitor.cpp:836-851 | "start" and "stop" give their types; an absent type gives none silently; any other value is reported as unknown and gives none |
| Kinds.PartgroupTypeName | src/lilypond/xml2MsrVisitor.cpp:836-851 | each part-group type comes, without a report, from its own string |
| Kinds.PartgroupSymbolOf | src/lilypond/xml2MsrVisitor.cpp:859-882 | brace, bracket, line and square give their symbols; "none" and an absent symbol give none silently; anything else is reported and gives none |
| Kinds.PartgroupSymbolName | src/lilypond/xml2MsrVisitor.cpp:859-882 | each symbol comes, without a report, from its own string |
| Kinds.PartgroupBarlineOf | src/lilypond/xml2MsrVisitor.cpp:887-899 | the group barline is on exactly for "yes"; values other than yes and no are reported |
| Kinds.PartgroupBarlineName | src/lilypond/xml2MsrVisitor.cpp:887-899 | both flag values come, without a report, from their string |
| Kinds.BarlineLocationOf | src/lilypond/xml2MsrVisitor.cpp:3071-3095 | left, middle and right are accepted; anything else, even an absent location, is reported and gives right |
| Kinds.BarlineLocationName | src/lilypond/xml2MsrVisitor.cpp:3071-3095 | each location comes, without a report, from its own string |
| Kinds.BarStyleOf | src/lilypond/xml2MsrVisitor.cpp:3101-3154 | the ten MusicXML bar styles are accepted; any other value is reported and leaves no style |
| Kinds.BarStyleName | src/lilypond/xml2MsrVisitor.cpp:3101-3154 | each bar style comes, without a report, from one of the ten names |
| Kinds.EndingTypeOf | src/lilypond/xml2MsrVisitor.cpp:3351-3381 | start, stop and discontinue are accepted; anything else is reported and the previous ending type is kept |
| Kinds.EndingTypeName | src/lilypond/xml2MsrVisitor.cpp:3351-3381 | each ending type comes, without a report, from its own string, whatever the previous type |
| Kinds.RepeatDirectionOf | src/lilypond/xml2MsrVisitor.cpp:3395-3415 | forward and backward are accepted; anything else is reported and leaves no direction |
| Kinds.RepeatDirectionName | src/lilypond/xml2MsrVisitor.cpp:3395-3415 | each direction comes, without a report, from its own string |
| Kinds.RepeatWingedOf | src/lilypond/xml2MsrVisitor.cpp:3417-3451 | the five winged values are accepted; an absent value gives none silently; anything else is reported and gives none |
| Kinds.RepeatWingedName | src/lilypond/xml2MsrVisitor.cpp:3417-3451 | each winged kind comes, without a report, from its own string |
| Kinds.PedalTypeOf | src/lilypond/xml2MsrVisitor.cpp:3261-3292 | start, continue, change and stop are accepted; anything else is reported and leaves the kind unspecified |
| Kinds.PedalTypeName | src/lilypond/xml2MsrVisitor.cpp:3261-3292 | each pedal type comes, without a report, from its own string |
| Kinds.PedalLineOf | src/lilypond/xml2MsrVisitor.cpp:3294-3317 | yes and no set the line flag; anything else, even an absent value, is reported and leaves it unspecified |
| Kinds.StepOf | src/lilypond/xml2MsrVisitor.cpp:3908-3922 | the step is the first character of the value (the null character when the value is empty); a value that is not exactly one character is reported |
| Kinds.TieKindOf | src/lilypond/xml2MsrVisitor.cpp:2250-2304 | start, continue and stop give their tie kind; any other value gives no tie and is reported only when present and outside a slur, quoting the slur type |
| Kinds.TieKindName | src/lilypond/xml2MsrVisitor.cpp:2250-2304 | each tie kind comes, without a report, from its own string in any context |
| Kinds.SlurOf | src/lilypond/xml2MsrVisitor.cpp:2307-2383 | start opens the ongoing slur and stop closes it; continue leaves it alone; an unknown value keeps the previous kind and is reported only when present and outside a slur |
| Kinds.SlurKindName | src/lilypond/xml2MsrVisitor.cpp:2307-2383 | each slur kind comes from its own string in any context |
| Kinds.WedgeKindOf | src/lilypond/xml2MsrVisitor.cpp:2386-2420 | crescendo, diminuendo and stop give their kinds; any other value leaves the kind unspecified and is reported when present |
| Kinds.WedgeKindName | src/lilypond/xml2MsrVisitor.cpp:2386-2420 | each wedge kind comes, without a report, from its own string |
| Kinds.StemKindOf | src/lilypond/xml2MsrVisitor.cpp:3991-4029 | up, down, none and double give their kinds; anything else is reported, quoting the beam value, and leaves the kind unspecified |
| Kinds.StemKindName | src/lilypond/xml2MsrVisitor.cpp:3991-4029 | each stem kind comes, without a report, from its own string |
| Kinds.BeamKindOf | src/lilypond/xml2MsrVisitor.cpp:4031-4089 | the five beam values give their kinds; anything else draws a warning and gives no beam |
| Kinds.BeamKindName | src/lilypond/xml2MsrVisitor.cpp:4031-4089 | each beam kind comes, without a report, from its own string |
| Kinds.GraceSlashOf | src/lilypond/xml2MsrVisitor.cpp:4805-4828 | yes and no set the slash flag; anything else keeps the previous flag and is reported when present |
| Kinds.TupletKindOf | src/lilypond/xml2MsrVisitor.cpp:4868-4898 | start, continue and stop give their kinds; anything else, even an absent type, is reported and gives no tuplet kind |
| Kinds.TupletKindName | src/lilypond/xml2MsrVisitor.cpp:4868-4898 | each tuplet kind comes, without a report, from its own string |
| Kinds.DynamicsKindOf | src/lilypond/xml2MsrVisitor.cpp:4563-4802 | exactly the listed dynamics elements create a kind, and no element creates PPP, since `ppp` creates PP |
| Kinds.DynamicsElementName | src/lilypond/xml2MsrVisitor.cpp:4563-4802 | every dynamics kind except PPP is created by some element |
| Kinds.LevelElementName | src/lilypond/xml2MsrVisitor.cpp:4563-4802 | every loudness level except PPP is created by its element |
| Kinds.AccentElementName | src/lilypond/xml2MsrVisitor.cpp:4563-4802 | every accent-like dynamics kind is created by its element |
| Kinds.DirectionPlacementOf | src/lilypond/xml2MsrVisitor.cpp:1561-1581 | above and below set the words placement; any other value keeps the placement, and is reported when present |
| Kinds.OctaveShiftSizeReport | src/lilypond/xml2MsrVisitor.cpp:1620-1633 | a size other than 8 or 15 is reported |
| Kinds.OctaveShiftKindOf | src/lilypond/xml2MsrVisitor.cpp:1635-1659 | up, down and stop give their kinds; anything else is reported and leaves the kind unspecified |
| Kinds.OctaveShiftKindName | src/lilypond/xml2MsrVisitor.cpp:1635-1659 | each octave-shift kind comes, without a report, from its own string |
| Kinds.RehearsalKindOf | src/lilypond/xml2MsrVisitor.cpp:6992-7074 | only the spellings the visitor compares against ("kRectangle", ...) give an enclosure; any other present enclosure draws a warning and gives none |
| Kinds.RehearsalKindName | src/lilypond/xml2MsrVisitor.cpp:6992-7074 | each enclosure comes, without a report, from its own spelling |
| Kinds.ParenthesesOf | src/lilypond/xml2MsrVisitor.cpp:1732-1753 | both "yes" and "no" set the parentheses flag; any other present value is reported and keeps the flag |
| Kinds.MetronomeGuard | src/lilypond/xml2MsrVisitor.cpp:1782-1796 | a tempo is made exactly when there is one beat unit and a non-zero per-minute value; otherwise the matching warning is issued |
| Kinds.Upper | src/lilypond/xml2MsrVisitor.cpp:1168-1173 | the clef sign is upper-cased character by character, keeping its length |
| Kinds.ClefReadingOf | src/lilypond/xml2MsrVisitor.cpp:1163-1352 | the treble, treble-line-1, bass, tenor and alto rows; an unknown line for G, F or C is reported; other signs are not modelled |
| Kinds.DivisionsOf | src/lilypond/xml2MsrVisitor.cpp:1090-1117 | divisions per whole note are four times the divisions per quarter note; a non-positive value is reported but still used |
| Barlines.Classify | src/lilypond/xml2MsrVisitor.cpp:3492-3791 | each barline category holds exactly when its own test holds and no earlier test does; a barline with no test holding and no bar style has no category |
| Barlines.ImplicitRepeatStart | src/lilypond/xml2MsrVisitor.cpp:6920-6938 | the invented barline is a left, heavy-light, forward repeat with an ending start carrying the current ending number and winged value; its category is repeat start, the one the classifier gives its attributes |
| Lyrics.SyllabicOf | src/lilypond/xml2MsrVisitor.cpp:2447-2469 | the four syllabic values give their text chunk kinds; anything else is reported and keeps the previous kind |
| Lyrics.SyllabicChunkKind | src/lilypond/xml2MsrVisitor.cpp:2588-2599 | read again at `</lyric>`, the four values give their text kinds and anything else gives no chunk, silently |
| Lyrics.ChooseChunkKind | src/lilypond/xml2MsrVisitor.cpp:2588-2720 | the chunk kind of a `</lyric>`: each outcome (text, tied, skip, slur, slur beyond end, none) holds exactly when its own condition holds |
| Lyrics.StripSpaces | src/lilypond/xml2MsrVisitor.cpp:2476-2478 | the stripped text has no space, and every other character keeps its number of occurrences |
| Lyrics.StripSpacesKeepsSpaceless | src/lilypond/xml2MsrVisitor.cpp:2476-2478 | a text without spaces is left as it is |
| Lyrics.StripSpacesIdempotent | src/lilypond/xml2MsrVisitor.cpp:2476-2478 | stripping twice is stripping once |
| Lyrics.StripSpacesConcat | src/lilypond/xml2MsrVisitor.cpp:2476-2478 | stripping distributes over concatenation |
| Lyrics.NextText | src/lilypond/xml2MsrVisitor.cpp:2480-2483 | after an elision the stripped fragment follows the text so far and a space; otherwise it replaces the text |
| Msr.NewVoice | src/lilypond/xml2MsrVisitor.cpp:221-246 | a created voice holds one empty chunk, with the given id |
| Msr.Append | src/lilypond/xml2MsrVisitor.cpp:6300-6308 | appending adds the element at the end of the voice's timeline and of its current chunk; earlier chunks, the number and the lyric chunks are kept |
| Msr.RemoveLast | src/lilypond/xml2MsrVisitor.cpp:6050-6060 | the removed element was the last of the timeline; nothing is removed exactly when the current chunk is empty |
| Msr.RemoveLastAfterAppend | src/lilypond/xml2MsrVisitor.cpp:6050-6083 | removing the last element undoes appending it |
| Msr.ReplaceLast | src/lilypond/xml2MsrVisitor.cpp:6050-6083 | removing the last note and appending the chord replaces the last element of the voice's timeline |
| Msr.Prepend | src/lilypond/xml2MsrVisitor.cpp:6940-6942 | prepending puts the element in front of the current chunk's elements, after the earlier chunks |
| Msr.NewChunk | src/lilypond/xml2MsrVisitor.cpp:6970-6972 | a new, empty chunk becomes current, and the timeline is unchanged |
| Msr.PrependToNewChunk | src/lilypond/xml2MsrVisitor.cpp:6540-6610 | prepending to a chunk just started amounts to appending to the voice |
| Msr.ChordFromFirstNote | src/lilypond/xml2MsrVisitor.cpp:4954-5004 | the chord takes the note's duration, divisions per whole note and tie, has the note as its only member and carries its decorations |
| Msr.AddNoteToChord | src/lilypond/xml2MsrVisitor.cpp:6090-6112 | the note becomes the last member of the chord, and nothing else changes |
| Msr.CopyNoteElementsToChord | src/lilypond/xml2MsrVisitor.cpp:5181-5201 | each kind of decoration of the note is appended to the chord's, and the rest of the chord is kept |
| Msr.JoinKeepsDecorations | src/lilypond/xml2MsrVisitor.cpp:6090-6112 | a chord that carries the decorations of its members still does after another note joins it |
| Msr.ChordOfTwoNotes | src/lilypond/xml2MsrVisitor.cpp:6013-6112 | a chord begun by one note and joined by a second has them as members, in that order, with both notes' decorations |
| Msr.AddToTuplet | src/lilypond/xml2MsrVisitor.cpp:6116-6177 | the member becomes the tuplet's last member, and nothing else changes |
| Msr.NestChain | src/lilypond/xml2MsrVisitor.cpp:6349-6409 | flushing the stack keeps the bottom tuplet's attributes, and a one-tuplet stack gives that tuplet |
| Msr.NestChainSplit | src/lilypond/xml2MsrVisitor.cpp:6349-6409 | closing the upper part of the stack first does not change the result of the flush |
| Msr.PopIntoNext | src/lilypond/xml2MsrVisitor.cpp:6349-6409 | one step of the flush shortens the stack by one and keeps the flush's result |
| Msr.AddToTop | src/lilypond/xml2MsrVisitor.cpp:6116-6177 | only the innermost tuplet receives the member |
| Msr.CloseTop | src/lilypond/xml2MsrVisitor.cpp:5337-5418 | a tuplet stop adds the note to the innermost tuplet and pops it; it nests in the tuplet beneath, or goes to the voice when there is none |
| Msr.FetchPartFromPartgroup | src/lilypond/xml2MsrVisitor.cpp:989-1000 | the part found is a member of the group with that part ID; none is found only when no member has that ID |
| Msr.EnsureStaff | src/lilypond/xml2MsrVisitor.cpp:200-218 | the part has a staff of that number afterwards; an existing staff is kept; otherwise a new empty one is added and nothing else changes |
| Msr.EnsureStaffOnce | src/lilypond/xml2MsrVisitor.cpp:200-218 | a second staff lookup adds nothing |
| Msr.AddStaff | src/lilypond/xml2MsrVisitor.cpp:1883-1893 | a new empty staff of that number is added, replacing any staff of that number; other staves are kept |
| Msr.AddStaves | src/lilypond/xml2MsrVisitor.cpp:1857-1894 | after `<staves>n</staves>` the part has new empty staves 2 to n; other staves are kept |
| Msr.EnsureVoiceInStaff | src/lilypond/xml2MsrVisitor.cpp:221-246 | the staff has a voice of that number afterwards; an existing one is kept |
| Msr.EnsureVoice | src/lilypond/xml2MsrVisitor.cpp:221-246 | the voice of those numbers exists in the part afterwards, holding a chunk; an existing voice is returned unchanged; otherwise a staff, voice and chunk are created with fresh ids |
| Msr.EnsureVoiceOnce | src/lilypond/xml2MsrVisitor.cpp:221-246 | a second lookup of the same voice finds the first one and adds nothing |
| Msr.InsertPosition | src/lilypond/xml2MsrVisitor.cpp:654-684 | a new part group goes before the first open group whose default-x is strictly greater, at the end when there is none |
| Msr.InsertKeepsOrder | src/lilypond/xml2MsrVisitor.cpp:654-684 | inserting there keeps the list ordered by default-x, and the new group comes after groups of equal default-x |
| Msr.InsertedMembers | src/lilypond/xml2MsrVisitor.cpp:654-684 | insertion adds exactly the new group to the list's members |
| Msr.FirstIndexOf | src/lilypond/xml2MsrVisitor.cpp:720-746 | the index found is the first occurrence of the group; none is found exactly when the group is not listed |
| Msr.RemovedMembers | src/lilypond/xml2MsrVisitor.cpp:740-742 | removing an entry keeps only groups that were listed |
| Msr.RemoveFirstCounts | src/lilypond/xml2MsrVisitor.cpp:740-742 | removing the found entry takes away exactly one occurrence of that group |
| Assembly.WithPending | src/lilypond/xml2MsrVisitor.cpp:5555-5716 | a rest keeps its decorations; any other note receives every pending queue, in order, after what it has; nothing else of the note changes |
| Assembly.RestWarnings | src/lilypond/xml2MsrVisitor.cpp:5555-5699 | on a rest, unless rests' dynamics are delayed, one warning for the dynamics and one per pending word, slur and wedge; none otherwise |
| Assembly.PendingSurvivesRest | src/lilypond/xml2MsrVisitor.cpp:5555-5716 | decorations left pending on a rest reach the next note, in the order they were queued |
| Assembly.AppendAll | src/lilypond/xml2MsrVisitor.cpp:5555-5699 | the drain loop appends the queue's items, in order |
| Assembly.WarnEach | src/lilypond/xml2MsrVisitor.cpp:5588-5624 | the loop over a pending list on a rest issues one warning per item |
| Assembly.CopyNoteElements | src/lilypond/xml2MsrVisitor.cpp:5181-5201 | the copy loops compute `CopyNoteElementsToChord` |
| Assembly.CreateChord | src/lilypond/xml2MsrVisitor.cpp:4954-5004 | the chord built is `ChordFromFirstNote` of the note |
| Assembly.NestAll | src/lilypond/xml2MsrVisitor.cpp:6349-6409 | the flush loop leaves nothing for an empty stack and otherwise the whole stack nested into its bottom tuplet |
| Assembly.StopThenFlush | src/lilypond/xml2MsrVisitor.cpp:5337-5418 | a tuplet stop followed by the flush gives the voice the same tuplet as the flush alone with the note added to the innermost tuplet |
| Assembly.LinkLyricschunks | src/lilypond/xml2MsrVisitor.cpp:6412-6427 | every listed lyric chunk gets the note as its note; no other chunk changes |
| Visitor.FindInsertPosition | src/lilypond/xml2MsrVisitor.cpp:654-684 | the insertion scan stops at `InsertPosition` of the open groups' default-x values |
| Visitor.FindPartgroup | src/lilypond/xml2MsrVisitor.cpp:720-746 | the search finds the group's first occurrence in the list, or nothing |
| Visitor.CreateStaves | src/lilypond/xml2MsrVisitor.cpp:1883-1893 | the staff loop computes `AddStaves` |
| Visitor.Lookup | src/lilypond/xml2MsrVisitor.cpp:221-246 | looking a voice up yields a voice holding a chunk, and changes only the score and the id counter |
| Visitor.AppendedTo | src/lilypond/xml2MsrVisitor.cpp:6300-6308 | appending to a voice extends its timeline by that element |
| Visitor.LookupAgain | src/lilypond/xml2MsrVisitor.cpp:221-246 | looking the same voice up again, once the parts are as the first lookup left them, finds the same voice and adds nothing |
| Visitor.ChordStarted | src/lilypond/xml2MsrVisitor.cpp:6013-6087 | the chord made from the first note gets a fresh id and becomes the current chord |
| Visitor.ChordStartedInVoice | src/lilypond/xml2MsrVisitor.cpp:6013-6087 | when starting a chord proceeds, there is a current chord and it exists |
| Visitor.GracenotesStarted | src/lilypond/xml2MsrVisitor.cpp:6234-6262 | a grace notes group gets a fresh id, is appended to the voice and becomes current |
| Visitor.KindOfNote | src/lilypond/xml2MsrVisitor.cpp:5926-5939 | chord member exactly for a chord note; tuplet member for a tuplet note outside a chord; then grace note, then rest; a note never stays of unknown kind |
| Visitor.NoteCreated | src/lilypond/xml2MsrVisitor.cpp:5798-5907 | the note's voice is the one looked up; it is in the graph, four more ids are used, the current part is kept and the graph stays consistent |
| Visitor.LyricsBound | src/lilypond/xml2MsrVisitor.cpp:6412-6427 | binding the lyric chunks changes no voice, grace notes group or chord, keeps the set of lyric chunks and empties the list of the note's chunks |
| Visitor.StandaloneNoteAppended | src/lilypond/xml2MsrVisitor.cpp:6180-6346 | a standalone note or rest becomes the last element of its voice, followed only by the open tuplets closed into one; no grace notes group is current, no chord is going on, and the note's lyric chunks are bound to it |
| Visitor.StandaloneEndedInVoice | src/lilypond/xml2MsrVisitor.cpp:6331-6345 | the end of a standalone note adds to the note's voice only the open tuplets closed into one, and keeps the grace notes |
| Visitor.GraceNoteJoinsGroup | src/lilypond/xml2MsrVisitor.cpp:6230-6275 | a grace note with a current group becomes that group's last note |
| Visitor.GraceNoteStartsGroup | src/lilypond/xml2MsrVisitor.cpp:6234-6275 | a grace note without a current group starts a new one, slashed as the grace tag says, made of that note alone, appended to the voice and made current |
| Visitor.ChordMemberJoins | src/lilypond/xml2MsrVisitor.cpp:6090-6112 | a chord member during a chord becomes the last note of the current chord, which keeps carrying all its members' decorations |
| Visitor.ChordMemberStartsChord | src/lilypond/xml2MsrVisitor.cpp:6013-6112 | a chord member with no chord going on needs the voice's last handled note as the voice's last element; that note is replaced by a chord of it and the new note, carrying both notes' decorations, which becomes current; without a last handled note it aborts |
| Visitor.TupletStopAppends | src/lilypond/xml2MsrVisitor.cpp:5337-5418 | stopping the only open tuplet appends it, with the note as its last member, to the note's voice; stopping an inner tuplet adds nothing to the voices |
| Visitor.LyricschunkOf | src/lilypond/xml2MsrVisitor.cpp:2612-2720 | the chunk has the voice, lyrics number, kind and divisions; only the text kinds carry text and elision; it is not yet bound to a note |
| Visitor.LyricschunkAdded | src/lilypond/xml2MsrVisitor.cpp:2626-2728 | the chunk gets a fresh id and is listed among the lyric chunks of the note being visited |
| Visitor.ChunkStarted | src/lilypond/xml2MsrVisitor.cpp:6970-6972 | the voice gets a new empty current chunk with a fresh id; its timeline and the repeats are unchanged |
| Visitor.RepeatEnsured | src/lilypond/xml2MsrVisitor.cpp:6950-6962 | a current repeat exists afterwards; an existing one is kept; otherwise a new one on that chunk, without endings, is created |
| Visitor.EndingAdded | src/lilypond/xml2MsrVisitor.cpp:6565-6579 | the current repeat receives the ending as its last one; voices are unchanged |
| Visitor.PrependedTo | src/lilypond/xml2MsrVisitor.cpp:6940-6942 | prepending to a voice changes neither the current repeat nor the repeats |
| Visitor.ImplicitRepeatAdded | src/lilypond/xml2MsrVisitor.cpp:6920-6981 | after the implicit repeat start, the voice's current chunk holds just the current repeat |
| Visitor.HookedEndingAdded | src/lilypond/xml2MsrVisitor.cpp:6525-6579 | after a hooked ending is recorded, the voice exists and holds a chunk |
| Visitor.HooklessEndingAdded | src/lilypond/xml2MsrVisitor.cpp:6700-6749 | after a hookless ending is recorded, the voice exists and holds a chunk |
| Visitor.Xml2MsrVisitor.constructor | src/lilypond/xml2MsrVisitor.cpp:36-87 | the visitor starts with an empty score, no diagnostics, and the initial values of its counters, numbers and flags |
| Visitor.Xml2MsrVisitor.PartgroupStart | src/lilypond/xml2MsrVisitor.cpp:518-531 | the group number and type are recorded; name, abbreviation and symbol are cleared; default-x is INT_MIN and the barline is "yes" |
| Visitor.Xml2MsrVisitor.GroupName | src/lilypond/xml2MsrVisitor.cpp:533-536 | the group name is recorded |
| Visitor.Xml2MsrVisitor.GroupAbbreviation | src/lilypond/xml2MsrVisitor.cpp:538-541 | the group abbreviation is recorded |
| Visitor.Xml2MsrVisitor.GroupSymbol | src/lilypond/xml2MsrVisitor.cpp:543-549 | the group symbol and its default-x are recorded |
| Visitor.Xml2MsrVisitor.GroupBarline | src/lilypond/xml2MsrVisitor.cpp:551-554 | the group barline value is recorded |
| Visitor.Xml2MsrVisitor.PartgroupFor | src/lilypond/xml2MsrVisitor.cpp:612-646 | a group already known by that number is reused; otherwise a new one with the current attributes, whose parent is the head of the open list, is created and mapped |
| Visitor.Xml2MsrVisitor.HandlePartgroupStart | src/lilypond/xml2MsrVisitor.cpp:603-687 | the group is mapped by its number and inserted in the open list at `InsertPosition` |
| Visitor.Xml2MsrVisitor.HandlePartgroupStop | src/lilypond/xml2MsrVisitor.cpp:690-818 | an unmapped group, or one missing from the list, aborts; otherwise its first occurrence is removed, it goes to the score or under the new head (aborting if that has the same number), and it is unmapped |
| Visitor.Xml2MsrVisitor.DetachPartgroup | src/lilypond/xml2MsrVisitor.cpp:740-812 | the stop proper, once the group is found at that index |
| Visitor.Xml2MsrVisitor.PartgroupEnd | src/lilypond/xml2MsrVisitor.cpp:821-920 | type, symbol and barline are converted with their reports; a start leaves the group mapped and open; a stop that proceeds unmaps it; no type changes nothing |
| Visitor.Xml2MsrVisitor.CreateImplicitPartgroup | src/lilypond/xml2MsrVisitor.cpp:113-159 | group 1, "Implicit"/"Impl.", bracket, with a barline, is created, mapped, put at the front of the open list and remembered |
| Visitor.Xml2MsrVisitor.StopImplicitPartgroup | src/lilypond/xml2MsrVisitor.cpp:1014-1022 | with an implicit group, group 1 is stopped and the implicit group forgotten; otherwise nothing changes |
| Visitor.Xml2MsrVisitor.PartListEnd | src/lilypond/xml2MsrVisitor.cpp:487-498 | the implicit group, if any, is stopped and forgotten |
| Visitor.Xml2MsrVisitor.ScorePartStart | src/lilypond/xml2MsrVisitor.cpp:923-935 | the part ID is recorded and the names are cleared |
| Visitor.Xml2MsrVisitor.PartName | src/lilypond/xml2MsrVisitor.cpp:937-940 | the part name is recorded |
| Visitor.Xml2MsrVisitor.PartAbbreviation | src/lilypond/xml2MsrVisitor.cpp:942-945 | the part abbreviation is recorded |
| Visitor.Xml2MsrVisitor.InstrumentName | src/lilypond/xml2MsrVisitor.cpp:947-950 | the instrument name is recorded |
| Visitor.Xml2MsrVisitor.PartInPartgroup | src/lilypond/xml2MsrVisitor.cpp:989-1000 | the group's member with that part ID is reused; otherwise a new part is created and added as the group's last member |
| Visitor.Xml2MsrVisitor.SetPartNames | src/lilypond/xml2MsrVisitor.cpp:1004-1009 | the part's name, abbreviation and instrument name are set, and nothing else changes |
| Visitor.Xml2MsrVisitor.RegisterPart | src/lilypond/xml2MsrVisitor.cpp:982-1012 | the part is found or created in the current group, named, and registered under its ID |
| Visitor.Xml2MsrVisitor.ScorePartEnd | src/lilypond/xml2MsrVisitor.cpp:952-1028 | the part is registered with its names, and an implicit group is stopped afterwards |
| Visitor.Xml2MsrVisitor.PartStart | src/lilypond/xml2MsrVisitor.cpp:1031-1067 | an unregistered ID aborts; otherwise that part becomes current and staff and voice numbers are 1 |
| Visitor.Xml2MsrVisitor.Divisions | src/lilypond/xml2MsrVisitor.cpp:1090-1117 | the current part's divisions per whole note become four times the value, reported when not positive |
| Visitor.Xml2MsrVisitor.Staves | src/lilypond/xml2MsrVisitor.cpp:1857-1894 | n > 1 adds staves 2 to n to the current part; otherwise nothing changes |
| Visitor.Xml2MsrVisitor.StaffInCurrentPart | src/lilypond/xml2MsrVisitor.cpp:200-218 | the current part gets that staff if it lacks it |
| Visitor.Xml2MsrVisitor.VoiceInCurrentPart | src/lilypond/xml2MsrVisitor.cpp:221-246 | the voice is looked up or created in the current part, as `Lookup` says |
| Visitor.Xml2MsrVisitor.StaffElement | src/lilypond/xml2MsrVisitor.cpp:1896-1982 | a non-positive number aborts; otherwise the staff is made sure of and the number goes to the forward, note or direction, or is reported out of context |
| Visitor.Xml2MsrVisitor.VoiceElement | src/lilypond/xml2MsrVisitor.cpp:1985-2086 | in a forward or a note the number is recorded and a staff is made sure of (numbered by the voice inside a forward); elsewhere it is reported |
| Visitor.Xml2MsrVisitor.Duration | src/lilypond/xml2MsrVisitor.cpp:3934-3975 | the duration goes to the backup, forward or note in progress, or draws a warning |
| Visitor.Xml2MsrVisitor.NoteStart | src/lilypond/xml2MsrVisitor.cpp:3870-3905 | the note data is neutral, numbers are 1, lyrics, beam, tie and slur state are reset, and a note is going on |
| Visitor.Xml2MsrVisitor.ResetNoteNumbers | src/lilypond/xml2MsrVisitor.cpp:3877-3902 | staff and voice numbers, for the note too, are 1 |
| Visitor.Xml2MsrVisitor.ResetNoteLyrics | src/lilypond/xml2MsrVisitor.cpp:3885-3889 | lyrics number, syllabic and text are reset, and the note has no lyrics |
| Visitor.Xml2MsrVisitor.ResetNoteNotations | src/lilypond/xml2MsrVisitor.cpp:3891-3899 | beam, tie and slur state are reset |
| Visitor.Xml2MsrVisitor.Step | src/lilypond/xml2MsrVisitor.cpp:3908-3922 | the note's step is `StepOf` the value, with its report |
| Visitor.Xml2MsrVisitor.Octave | src/lilypond/xml2MsrVisitor.cpp:3929-3932 | the note's octave is recorded |
| Visitor.Xml2MsrVisitor.Dot | src/lilypond/xml2MsrVisitor.cpp:3977-3980 | the note gains a dot |
| Visitor.Xml2MsrVisitor.NoteType | src/lilypond/xml2MsrVisitor.cpp:3982-3989 | the note type is recorded |
| Visitor.Xml2MsrVisitor.StemElement | src/lilypond/xml2MsrVisitor.cpp:3991-4029 | a stem of `StemKindOf` kind is recorded, with its report |
| Visitor.Xml2MsrVisitor.BeamElement | src/lilypond/xml2MsrVisitor.cpp:4031-4089 | value and number are recorded; a known value makes the current beam, an unknown one keeps it and draws a warning |
| Visitor.Xml2MsrVisitor.Articulation | src/lilypond/xml2MsrVisitor.cpp:4096-4301 | the articulation is appended to the current ones |
| Visitor.Xml2MsrVisitor.Ornament | src/lilypond/xml2MsrVisitor.cpp:4312-4498 | the ornament is appended to the current ones |
| Visitor.Xml2MsrVisitor.DynamicsElement | src/lilypond/xml2MsrVisitor.cpp:4563-4802 | a dynamics element queues its kind; any other element queues nothing |
| Visitor.Xml2MsrVisitor.Grace | src/lilypond/xml2MsrVisitor.cpp:4805-4828 | the note is a grace note, and the slash flag follows `GraceSlashOf` |
| Visitor.Xml2MsrVisitor.ChordTag | src/lilypond/xml2MsrVisitor.cpp:4831-4841 | the note belongs to a chord |
| Visitor.Xml2MsrVisitor.TimeModification | src/lilypond/xml2MsrVisitor.cpp:4844-4851 | the note belongs to a tuplet |
| Visitor.Xml2MsrVisitor.ActualNotes | src/lilypond/xml2MsrVisitor.cpp:4853-4856 | the actual notes are recorded |
| Visitor.Xml2MsrVisitor.NormalNotes | src/lilypond/xml2MsrVisitor.cpp:4858-4861 | the normal notes are recorded |
| Visitor.Xml2MsrVisitor.TupletTag | src/lilypond/xml2MsrVisitor.cpp:4868-4898 | the tuplet number and `TupletKindOf` kind are recorded, with its report |
| Visitor.Xml2MsrVisitor.Rest | src/lilypond/xml2MsrVisitor.cpp:4901-4912 | the note is a rest |
| Visitor.Xml2MsrVisitor.DisplayStep | src/lilypond/xml2MsrVisitor.cpp:4915-4933 | the display step is `StepOf` the value, with its report |
| Visitor.Xml2MsrVisitor.DisplayOctave | src/lilypond/xml2MsrVisitor.cpp:4935-4938 | the display octave is recorded |
| Visitor.Xml2MsrVisitor.UnpitchedEnd | src/lilypond/xml2MsrVisitor.cpp:4940-4951 | the note is unpitched, with the display step and octave as its pitch |
| Visitor.Xml2MsrVisitor.Tied | src/lilypond/xml2MsrVisitor.cpp:2250-2304 | the tie kind follows `TieKindOf`; a known kind makes the current tie, otherwise it is kept |
| Visitor.Xml2MsrVisitor.SlurTag | src/lilypond/xml2MsrVisitor.cpp:2307-2383 | number, type, kind and the ongoing flag follow `SlurOf`, and a slur of that kind is queued |
| Visitor.Xml2MsrVisitor.WedgeTag | src/lilypond/xml2MsrVisitor.cpp:2386-2420 | a wedge of `WedgeKindOf` kind is queued, with its report |
| Visitor.Xml2MsrVisitor.AttachPending | src/lilypond/xml2MsrVisitor.cpp:5555-5716 | the note is `WithPending` of the queues; a rest leaves them queued and may draw warnings, any other note empties them |
| Visitor.Xml2MsrVisitor.RemoveLastFromVoice | src/lilypond/xml2MsrVisitor.cpp:6057 | the voice's last element is removed and returned |
| Visitor.Xml2MsrVisitor.AppendToVoice | src/lilypond/xml2MsrVisitor.cpp:6083 | the element is appended to the voice |
| Visitor.Xml2MsrVisitor.StartChord | src/lilypond/xml2MsrVisitor.cpp:6013-6087 | no last handled note, or a last element that is not that note, aborts; otherwise that note is replaced by a chord made from it, which becomes current |
| Visitor.Xml2MsrVisitor.SetVoiceDivisions | src/lilypond/xml2MsrVisitor.cpp:5844-5845 | the voice's divisions per whole note are set |
| Visitor.Xml2MsrVisitor.CompleteNoteData | src/lilypond/xml2MsrVisitor.cpp:5832-5871 | staff, voice and type go into the note data; a typed grace note takes its duration from its type, with any report |
| Visitor.Xml2MsrVisitor.CreateNote | src/lilypond/xml2MsrVisitor.cpp:5829-5907 | the note gets a fresh id, the completed data, the voice's divisions, the current tie, stem, beam, articulations and ornaments; the latter two are emptied |
| Visitor.Xml2MsrVisitor.JoinChord | src/lilypond/xml2MsrVisitor.cpp:6090-6112 | the note joins the current chord |
| Visitor.Xml2MsrVisitor.StartChordInVoice | src/lilypond/xml2MsrVisitor.cpp:6013-6087 | the status and graph are `ChordStartedInVoice`: the voice is looked up and the chord started from its last handled note |
| Visitor.Xml2MsrVisitor.HandleChordNote | src/lilypond/xml2MsrVisitor.cpp:5985-6113 | the note is a chord member; a rest is reported; the status and graph are `ChordPlaced`: it joins the ongoing chord, or one started from the voice's last handled note, aborting when there is none or it is not the voice's last element |
| Visitor.Xml2MsrVisitor.JoinOrStartChord | src/lilypond/xml2MsrVisitor.cpp:6013-6112 | the status and graph are `ChordPlaced` |
| Visitor.Xml2MsrVisitor.FinalizeTuplet | src/lilypond/xml2MsrVisitor.cpp:5337-5418 | an empty stack aborts; otherwise `CloseTop`, appending the popped tuplet to the voice when it was the outermost |
| Visitor.Xml2MsrVisitor.PlaceInTuplet | src/lilypond/xml2MsrVisitor.cpp:6116-6177 | the status and graph are `TupletPlaced`; start pushes a new tuplet with the note and turns the kind to continue; continue adds it to the innermost; stop closes the innermost; no tuplet kind changes nothing |
| Visitor.Xml2MsrVisitor.StopTupletInVoice | src/lilypond/xml2MsrVisitor.cpp:6168-6172 | the voice is looked up and the innermost tuplet finalized with the note |
| Visitor.Xml2MsrVisitor.HandleTupletNote | src/lilypond/xml2MsrVisitor.cpp:6116-6177 | the note is a tuplet member with the pending decorations; the status and graph are `TupletPlaced`; a start pushes a new tuplet and continues, a continue adds to the innermost tuplet, a stop pops it, no tuplet kind leaves the stack |
| Visitor.Xml2MsrVisitor.StartGracenotes | src/lilypond/xml2MsrVisitor.cpp:6234-6262 | a grace notes group is started in the voice |
| Visitor.Xml2MsrVisitor.AddGraceNote | src/lilypond/xml2MsrVisitor.cpp:6273-6274 | the note is appended to the current grace notes group |
| Visitor.Xml2MsrVisitor.PlaceStandaloneNote | src/lilypond/xml2MsrVisitor.cpp:6277-6308 | the grace notes group is forgotten and the note appended to the voice |
| Visitor.Xml2MsrVisitor.FlushTuplets | src/lilypond/xml2MsrVisitor.cpp:6349-6409 | the stack is emptied and, when it was not empty, the nested tuplet is appended to the voice |
| Visitor.Xml2MsrVisitor.AppendTupletInVoice | src/lilypond/xml2MsrVisitor.cpp:6395-6409 | the voice is looked up and the nested tuplet, if any, appended |
| Visitor.Xml2MsrVisitor.HandleLyrics | src/lilypond/xml2MsrVisitor.cpp:6412-6427 | every lyric chunk of the visited note is bound to the note, no other chunk changes, and the list is emptied |
| Visitor.Xml2MsrVisitor.PlaceNonChordNote | src/lilypond/xml2MsrVisitor.cpp:6230-6308 | the graph is `NonChordPlaced`: a grace note joins the current group, started if there is none; any other note ends the group and is appended to the voice |
| Visitor.Xml2MsrVisitor.HandleStandaloneNote | src/lilypond/xml2MsrVisitor.cpp:6180-6346 | the note gets its kind and the pending decorations; the status and graph are `StandalonePlaced`; after it no tuplet, lyric chunk or chord is pending and the slur's first chunk kind is `SlurChunkKind` |
| Visitor.Xml2MsrVisitor.VoiceOfCurrentPart | src/lilypond/xml2MsrVisitor.cpp:6192-6198 | with a current part, the graph and voice are `Lookup` for those numbers, and the diagnostics are unchanged |
| Visitor.Xml2MsrVisitor.StandaloneNoteInVoice | src/lilypond/xml2MsrVisitor.cpp:6230-6345 | the note gets its kind and the pending decorations, and the graph is `StandaloneInVoice` for the known voice |
| Visitor.Xml2MsrVisitor.PlaceInVoice | src/lilypond/xml2MsrVisitor.cpp:6230-6345 | the graph is `StandaloneInVoice` for the note; the tuplet stack and the note's lyric chunks end empty, no chord is going on and the slur's first chunk kind is `SlurChunkKind` |
| Visitor.Xml2MsrVisitor.EndStandaloneNote | src/lilypond/xml2MsrVisitor.cpp:6332-6345 | the tuplet stack and the note's lyric chunks are empty, the slur's first chunk kind follows the slur kind, and no chord is going on |
| Visitor.Xml2MsrVisitor.BindLyricsAndSlur | src/lilypond/xml2MsrVisitor.cpp:6334-6345 | the note's lyric chunks are bound to it, the slur's first chunk kind is `SlurChunkKind` of the slur kind, and no chord is going on |
| Visitor.Xml2MsrVisitor.EndChord | src/lilypond/xml2MsrVisitor.cpp:6345 | no chord is going on |
| Visitor.Xml2MsrVisitor.PlaceNote | src/lilypond/xml2MsrVisitor.cpp:5926-5939 | the note keeps its id and data and gets the kind `KindOfNote` gives them; a chord member's outcome is `ChordPlaced`, a tuplet member's `TupletPlaced`, any other note's `StandalonePlaced`, after which no tuplet, lyric chunk or chord is pending |
| Visitor.Xml2MsrVisitor.ForgetChord | src/lilypond/xml2MsrVisitor.cpp:5966-5974 | the current chord is forgotten and no chord is going on |
| Visitor.Xml2MsrVisitor.CreateNoteInVoice | src/lilypond/xml2MsrVisitor.cpp:5798-5907 | the graph and voice are `NoteCreated` for the note's staff and voice numbers, the note has the next id, the completed data, four times the divisions per quarter note, and the current tie, stem, beam, articulations and ornaments, which are emptied; the fields the placement reads are unchanged |
| Visitor.Xml2MsrVisitor.NoteEnd | src/lilypond/xml2MsrVisitor.cpp:5769-5983 | without a current part it aborts with the graph unchanged; otherwise the note, with id and data of `NoteCreated`, is placed as `FinishNote` says on the graph `NoteCreated` gives, becomes the voice's last handled note, and a non-chord note after a note ends the chord |
| Visitor.Xml2MsrVisitor.NoteEndInPart | src/lilypond/xml2MsrVisitor.cpp:5769-5983 | with a current part, the same outcome as `NoteEnd` |
| Visitor.Xml2MsrVisitor.FinishNote | src/lilypond/xml2MsrVisitor.cpp:5926-5981 | the same placement, with the current chord forgotten after a non-chord note while a note was going on (`ChordForgotten`); when it proceeds the note is the voice's last handled note (`NoteHandled`) and no note is going on; an abort changes neither |
| Visitor.Xml2MsrVisitor.NoteHandledInVoice | src/lilypond/xml2MsrVisitor.cpp:5966-5981 | after a non-chord note while a note was going on the chord is forgotten (`ChordForgotten`); the note becomes the voice's last handled note and no note is going on |
| Visitor.Xml2MsrVisitor.BackupStart | src/lilypond/xml2MsrVisitor.cpp:2089-2102 | a backup is going on; without a current part it aborts with the graph unchanged; otherwise the tuplet stack is empty and the graph is `TupletsFlushed` for the note's staff number and the current voice number |
| Visitor.Xml2MsrVisitor.BackupEnd | src/lilypond/xml2MsrVisitor.cpp:2104-2150 | the current voice is looked up, and the backup ends |
| Visitor.Xml2MsrVisitor.ForwardStart | src/lilypond/xml2MsrVisitor.cpp:2153-2174 | a forward is going on with the current staff and voice numbers; without a current part it aborts with the graph unchanged; otherwise the tuplet stack is empty and the graph is `TupletsFlushed` for the note's staff number and the current voice number |
| Visitor.Xml2MsrVisitor.ForwardEnd | src/lilypond/xml2MsrVisitor.cpp:2176-2247 | the forward's numbers become current; the staff is made sure of and the voice looked up; the forward ends |
| Visitor.Xml2MsrVisitor.LyricStart | src/lilypond/xml2MsrVisitor.cpp:2423-2445 | the lyrics number is recorded, reported when negative; no text or elision yet, and the note has lyrics |
| Visitor.Xml2MsrVisitor.Syllabic | src/lilypond/xml2MsrVisitor.cpp:2447-2469 | the syllabic value is recorded and the chunk kind follows `SyllabicOf` |
| Visitor.Xml2MsrVisitor.TextEnd | src/lilypond/xml2MsrVisitor.cpp:2471-2493 | the text follows `NextText`, and the lyric has text |
| Visitor.Xml2MsrVisitor.ElisionEnd | src/lilypond/xml2MsrVisitor.cpp:2495-2498 | an elision is recorded |
| Visitor.Xml2MsrVisitor.AddLyricschunk | src/lilypond/xml2MsrVisitor.cpp:2626-2728 | the chunk is added to the voice and to the note's lyric chunks |
| Visitor.Xml2MsrVisitor.LyricEnd | src/lilypond/xml2MsrVisitor.cpp:2500-2729 | the chunk kind is `ChooseChunkKind`; the voice is looked up and a chunk of that kind added unless none; a text chunk marks the note and an ongoing slur as having lyrics |
| Visitor.Xml2MsrVisitor.LyricEndOfKind | src/lilypond/xml2MsrVisitor.cpp:2601-2729 | the same, once the kind is chosen |
| Visitor.Xml2MsrVisitor.AddLyricschunkInVoice | src/lilypond/xml2MsrVisitor.cpp:2601-2728 | the voice is looked up and the chunk, if any, added |
| Visitor.Xml2MsrVisitor.DirectionStart | src/lilypond/xml2MsrVisitor.cpp:1523-1589 | the words placement follows `DirectionPlacementOf`; the words are cleared and a direction is going on |
| Visitor.Xml2MsrVisitor.DirectionEnd | src/lilypond/xml2MsrVisitor.cpp:1845-1854 | the direction ends |
| Visitor.Xml2MsrVisitor.DirectionTypeStart | src/lilypond/xml2MsrVisitor.cpp:1591-1594 | a direction type is going on |
| Visitor.Xml2MsrVisitor.DirectionTypeEnd | src/lilypond/xml2MsrVisitor.cpp:1596-1599 | the direction type ends |
| Visitor.Xml2MsrVisitor.AppendDirection | src/lilypond/xml2MsrVisitor.cpp:1671-1680 | the voice is looked up and the direction appended to it |
| Visitor.Xml2MsrVisitor.OctaveShift | src/lilypond/xml2MsrVisitor.cpp:1601-1681 | size and type are checked with their reports, and an octave shift of that kind and size is appended to the direction's voice |
| Visitor.Xml2MsrVisitor.WordsTag | src/lilypond/xml2MsrVisitor.cpp:1683-1720 | the contents are recorded; non-empty words with the current placement are queued |
| Visitor.Xml2MsrVisitor.MetronomeStart | src/lilypond/xml2MsrVisitor.cpp:1723-1754 | beat count, per-minute value and beat unit are reset; the parentheses flag follows `ParenthesesOf` |
| Visitor.Xml2MsrVisitor.BeatUnit | src/lilypond/xml2MsrVisitor.cpp:1828-1837 | a beat unit already held is counted, and the new one recorded |
| Visitor.Xml2MsrVisitor.PerMinute | src/lilypond/xml2MsrVisitor.cpp:1842-1843 | the per-minute value is recorded |
| Visitor.Xml2MsrVisitor.MetronomeEnd | src/lilypond/xml2MsrVisitor.cpp:1756-1826 | the last beat unit is counted; a failed guard draws its warning and adds nothing; otherwise a tempo is appended to the direction's voice |
| Visitor.Xml2MsrVisitor.CountLastBeatUnit | src/lilypond/xml2MsrVisitor.cpp:1776-1780 | a beat unit still held is counted and cleared |
| Visitor.Xml2MsrVisitor.Tempo | src/lilypond/xml2MsrVisitor.cpp:1782-1823 | a failing `MetronomeGuard` adds its warning and leaves the graph; otherwise a tempo of that per-minute value is appended to the voice of those numbers, or the missing part aborts |
| Visitor.Xml2MsrVisitor.Mark | src/lilypond/xml2MsrVisitor.cpp:3157-3186 | in a direction type the mark goes to the current voice; otherwise, in a barline, the segno or coda flag is set |
| Visitor.Xml2MsrVisitor.MarkBarline | src/lilypond/xml2MsrVisitor.cpp:3183-3185 | in a barline, the segno or coda flag is set |
| Visitor.Xml2MsrVisitor.Segno | src/lilypond/xml2MsrVisitor.cpp:3157-3186 | in a direction type a segno is appended to the voice of the current staff and voice numbers, or the missing part aborts with the graph unchanged; in a barline outside a direction type the segno flag is set; elsewhere nothing changes, and the coda flag never does |
| Visitor.Xml2MsrVisitor.Coda | src/lilypond/xml2MsrVisitor.cpp:3188-3217 | in a direction type a coda is appended to the voice of the current numbers, or the missing part aborts with the graph unchanged; in a barline outside a direction type the coda flag is set; elsewhere nothing changes, and the segno flag never does |
| Visitor.Xml2MsrVisitor.Eyeglasses | src/lilypond/xml2MsrVisitor.cpp:3219-3248 | in a direction type eyeglasses are appended to the voice of the current numbers, or the missing part aborts; in a barline outside a direction type the coda flag is set, as for a coda; the segno flag never changes |
| Visitor.Xml2MsrVisitor.Pedal | src/lilypond/xml2MsrVisitor.cpp:3250-3348 | an unknown type and an unknown line are each reported; in a direction type a pedal mark of the looked-up type and line is appended to the voice of the current numbers, or the missing part aborts; in a barline outside a direction type the coda flag is set |
| Visitor.Xml2MsrVisitor.PedalOf | src/lilypond/xml2MsrVisitor.cpp:3319-3347 | with the type and line already looked up, their reports are added and the pedal is handled as `Pedal` says |
| Visitor.Xml2MsrVisitor.Rehearsal | src/lilypond/xml2MsrVisitor.cpp:6992-7074 | a rehearsal mark with `RehearsalKindOf` enclosure and the text is appended to the current voice |
| Visitor.Xml2MsrVisitor.BarlineStart | src/lilypond/xml2MsrVisitor.cpp:3037-3098 | the barline strings and attributes are reset, the location follows `BarlineLocationOf`, and a barline is going on |
| Visitor.Xml2MsrVisitor.ResetBarlineStrings | src/lilypond/xml2MsrVisitor.cpp:3054-3071 | the raw barline strings are reset and the location recorded |
| Visitor.Xml2MsrVisitor.ResetBarline | src/lilypond/xml2MsrVisitor.cpp:3061-3069 | the barline attributes are reset, with the given location |
| Visitor.Xml2MsrVisitor.BarlineSoFar | src/lilypond/xml2MsrVisitor.cpp:3469-3481 | the barline built from the current attributes has no category yet |
| Visitor.Xml2MsrVisitor.BarStyleTag | src/lilypond/xml2MsrVisitor.cpp:3101-3154 | the style follows `BarStyleOf`, with its report |
| Visitor.Xml2MsrVisitor.EndingTag | src/lilypond/xml2MsrVisitor.cpp:3351-3381 | type and number are recorded; the ending type follows `EndingTypeOf` |
| Visitor.Xml2MsrVisitor.RepeatTag | src/lilypond/xml2MsrVisitor.cpp:3384-3452 | direction and winged follow their lookups, with their reports |
| Visitor.Xml2MsrVisitor.StartChunk | src/lilypond/xml2MsrVisitor.cpp:6970-6972 | the voice gets a new current chunk |
| Visitor.Xml2MsrVisitor.EnsureRepeat | src/lilypond/xml2MsrVisitor.cpp:6950-6962 | a repeat is made sure of |
| Visitor.Xml2MsrVisitor.AddEnding | src/lilypond/xml2MsrVisitor.cpp:6565-6579 | the current repeat receives the ending |
| Visitor.Xml2MsrVisitor.PrependToVoice | src/lilypond/xml2MsrVisitor.cpp:6940-6942 | the element is prepended to the voice's current chunk |
| Visitor.Xml2MsrVisitor.AddImplicitRepeat | src/lilypond/xml2MsrVisitor.cpp:6920-6981 | the implicit repeat start is added |
| Visitor.Xml2MsrVisitor.CloseEnding | src/lilypond/xml2MsrVisitor.cpp:6913-6988 | with nothing pending the implicit repeat start is added; otherwise the innermost pending barline is popped |
| Visitor.Xml2MsrVisitor.HandleRepeatStart | src/lilypond/xml2MsrVisitor.cpp:6430-6493 | a repeat is made sure of, a new chunk started and the barline appended; the barline is pushed |
| Visitor.Xml2MsrVisitor.AddHookedEnding | src/lilypond/xml2MsrVisitor.cpp:6525-6579 | the barline is appended, a chunk started, a repeat made sure of, and a hooked ending added |
| Visitor.Xml2MsrVisitor.HandleHookedEndingEnd | src/lilypond/xml2MsrVisitor.cpp:6496-6659 | the hooked ending is added, then the ending is closed |
| Visitor.Xml2MsrVisitor.AddHooklessEnding | src/lilypond/xml2MsrVisitor.cpp:6700-6749 | the barline is appended, a hookless ending added, a chunk started and the repeat appended |
| Visitor.Xml2MsrVisitor.HandleHooklessEndingEnd | src/lilypond/xml2MsrVisitor.cpp:6662-6828 | with no current repeat it aborts after appending the barline; otherwise the hookless ending is added and the ending closed |
| Visitor.Xml2MsrVisitor.HandleRepeatEnd | src/lilypond/xml2MsrVisitor.cpp:6881-6989 | the barline is appended, then the ending is closed |
| Visitor.Xml2MsrVisitor.HandleEndingStart | src/lilypond/xml2MsrVisitor.cpp:6831-6878 | the barline is appended and pushed |
| Visitor.Xml2MsrVisitor.DispatchBarline | src/lilypond/xml2MsrVisitor.cpp:3492-3791 | the barline, with its category, is handled by that category's handler |
| Visitor.Xml2MsrVisitor.BarlineInVoice | src/lilypond/xml2MsrVisitor.cpp:3461-3791 | the voice is looked up and the barline dispatched, when it has a category |
| Visitor.Xml2MsrVisitor.BarlineEnd | src/lilypond/xml2MsrVisitor.cpp:3455-3824 | the barline is classified and handled; an unhandled barline is reported with its strings; the barline ends |
| Repeats.ImplicitRepeatTimeline | src/lilypond/xml2MsrVisitor.cpp:6913-6983 | the invented barline goes to the front of the current chunk, and the current repeat (kept, or new on that chunk) follows in a chunk of its own |
| Repeats.StartsAndBars | src/lilypond/xml2MsrVisitor.cpp:3492-3791 | a repeat start, an ending start and a plain bar add just their barline to the voice; the starts push it, a plain bar pushes nothing |
| Repeats.RepeatStartRepeat | src/lilypond/xml2MsrVisitor.cpp:6430-6493 | a repeat start leaves a current repeat: the one there was, or a new one on the chunk the barline closes |
| Repeats.HookedEndingRecorded | src/lilypond/xml2MsrVisitor.cpp:6525-6579 | a hooked ending end records a hooked ending of the barline's number, on the chunk it closes, as the repeat's last ending |
| Repeats.HookedEndingPopped | src/lilypond/xml2MsrVisitor.cpp:6496-6659 | with a barline pending, a hooked ending end adds just its barline to the voice and pops the innermost pending barline |
| Repeats.HookedEndingUnpended | src/lilypond/xml2MsrVisitor.cpp:6581-6653 | with nothing pending, the implicit repeat start follows the barline, then the current repeat, and the stack stays empty |
| Repeats.EndingClosedFacts | src/lilypond/xml2MsrVisitor.cpp:6913-6988 | closing an ending pops when a barline is pending, and otherwise adds the implicit repeat start and keeps the stack empty |
| Repeats.HookedEndingAddedFacts | src/lilypond/xml2MsrVisitor.cpp:6525-6579 | the hooked ending proper, before the pending barlines are looked at |
| Repeats.RepeatEndPopped | src/lilypond/xml2MsrVisitor.cpp:6881-6989 | with a barline pending, a repeat end adds just its barline and pops the innermost pending barline |
| Repeats.RepeatEndUnpended | src/lilypond/xml2MsrVisitor.cpp:6913-6983 | with nothing pending, the implicit repeat start goes in front of the chunk the barline closes, so the whole chunk is repeated |
| Repeats.HooklessEndingAddedFacts | src/lilypond/xml2MsrVisitor.cpp:6700-6749 | the hookless ending proper, before the pending barlines are looked at |
| Repeats.HooklessEndingPopped | src/lilypond/xml2MsrVisitor.cpp:6662-6828 | with a barline pending, the repeat gets a hookless ending; the voice gains the barline and the repeat; the innermost pending barline is popped |
| Repeats.HooklessEndingUnpended | src/lilypond/xml2MsrVisitor.cpp:6751-6822 | with nothing pending, the voice gains the barline, the implicit repeat start, then the current repeat twice |
| Repeats.PendingStack | src/lilypond/xml2MsrVisitor.cpp:6430-6989 | a start pushes exactly one barline; an end that proceeds pops exactly one when there is one; a plain bar leaves the stack alone |
| Repeats.OnlyStartsStayPending | src/lilypond/xml2MsrVisitor.cpp:6430-6989 | only repeat starts and ending starts are ever pushed |
| Repeats.StackStepKeepsStarts | src/lilypond/xml2MsrVisitor.cpp:6430-6989 | a push of a start, a pop, or no change keeps only starts pending |
| Repeats.StartThenEndRestoresPending | src/lilypond/xml2MsrVisitor.cpp:6430-6989 | a start followed, in the same voice, by an end that proceeds leaves the pending barlines as before the start |
| Repeats.UnhandledBarlineNotRecorded | src/lilypond/xml2MsrVisitor.cpp:3455-3824 | a barline with no category is recorded nowhere; the stack and every existing voice's chunks are unchanged |

## Left out

- Input positions, tracing and debug output, and the message texts: a diagnostic records its severity and what it is about.
- Floating-point and layout attributes: fonts of words, slur placement, tied orientation, default-y and relative-x, and articulation and ornament placements. These values do not affect the MSR structure.
- Elements whose handlers only copy values into MSR objects that the model does not represent: identification, work, movement, page and system layout, key, time, transpose, accidentals, fermatas, bar checks, bar number checks, breaks and the clef's own element handlers.
- Kinds.ClefReadingOf: the rows whose switch labels are duplicated, and every sign other than G, F and C (all of them fall into the tablature branch), are not modelled. Clefs are never appended to a voice in this model.
- Visitor.Xml2MsrVisitor.CompleteNoteData: the duration of a typed grace note is a parameter. `noteTypeAsDivisions` is not part of this model.
- Visitor.Xml2MsrVisitor.NoteEnd: the tuplet display factor a tuplet note receives (`applyTupletMemberDisplayFactor`), and the display divisions, are not modelled.
- Visitor.Xml2MsrVisitor.DirectionEnd: the words that the source attaches to a tempo as its indication are not modelled. A tempo keeps only its per-minute value, without the rational beat-unit computation.
- Visitor.Xml2MsrVisitor.VoiceElement: the visitor dereferences the staff it creates; the model only makes sure of it.
- The MSR library's internals are not part of this model. The model gives their effect on a voice: an element appended or prepended to the current chunk, the last element of the current chunk removed, a new empty chunk started, and a new voice holding one empty chunk. Staves are added replacing any staff of the same number.
- `stringSpaceRemover` is not part of this model; it is taken to drop every space character.
- The end of a part (`removePartEmptyVoices`) and the tie and lyric copying the MSR library does inside a chord are not modelled.
- Several handlers look a voice up a second time. The model looks it up once, except where the tuplet flush at the end of a standalone note looks it up again as the source does; EnsureVoiceOnce and LookupAgain prove that the second lookup finds the same voice and adds nothing.
- An aborted method (an internal error, or a dereference of a missing object) leaves the state unspecified beyond `Valid()`, except where its contract says otherwise. Visitor.Xml2MsrVisitor.LyricEnd and Visitor.Xml2MsrVisitor.StartChord set their flags before the voice is fetched, which differs from the source only when the source would have crashed.
- A kind the visitor leaves uninitialised after an unknown value (pedal type and line, wedge, stem, octave shift) is `None` in the model.
- Integers are unbounded: the 32-bit `int` of the source is not wrapped. This matters only for counters and divisions beyond 2^31.
