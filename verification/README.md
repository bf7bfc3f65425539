# A verified model of the score transposer and the job worker

This project models, in Dafny, the two parts of the music web application that
carry its hardest promises, and proves them.

**Scores.** YuE2 plans a song as ABC notation. `internal/abc/transpose.go` moves
a whole score by a number of semitones: every note, every chord symbol and every
key field, spelled against the new key, with accidentals that read the same
whether a reader carries them for one octave or for the letter. The score page
(`internal/server/handlers.go`) reads key, meter and tempo back out of the text,
offers a key picker, and edits key and tempo.

**Jobs.** A generation is a row in a local store, a compare-and-set claim, a
remote POST that is billed if it is accepted, polling, and a song. The worker
(`internal/worker/worker.go`) may die at any point, HTTP handlers create and
delete rows at any point, and the remote may accept what its caller has given up
on. The store (`internal/store/store.go`) also guards the last administrator,
and the server limits rates and signs links to uploaded recordings.

## How it is laid out

- `Prelude`, `GoArith`, `GoText`, `GoNumbers`: option and result, Go's integer division, the string operations and decimal numbers the code uses.
- `AbcKeys`, `AbcIntervals`: keys, signatures and intervals: the tables and searches of the program proved equal to closed forms on the line of fifths.
- `AbcTokens`: the tokens a line of music is scanned into, and when printed tokens scan back.
- `AbcMoves`: what transposition does to tokens, lines and scores, as functions of the rewriter's state.
- `AbcRewriter`: the rewriter as a class that scans character by character, proved to compute `AbcMoves`.
- `AbcInvariants`, `AbcRescan`, `AbcLines`: what every step keeps, and how the output is read back.
- `AbcSpelling`: which notes of the output carry an accidental.
- `AbcReading`, `AbcChords`: independent readers of notes and of chord symbols, and the theorems that they find every pitch, root and bass moved.
- `AbcComposition`, `AbcLegible`, `AbcSkeleton`: composition and inverses, when a result can be read back and moved on, what is left alone.
- `AbcGuards`, `AbcRefusals`: the conditions under which tokens, lines and scores are refused, what never is, when the program panics.
- `AbcPlaces`, `AbcComments`: where on which line something happens, and exactly when a comment after music is changed or gets the score refused.
- `AbcExamples`: concrete scores on which the promises fail.
- `ScoreHeaders`, `KeyLabels`: score headers, key picker and its labels, tempo, and the edit that applies both.
- `StoreTables`, `StorePages`, `StoreClass`, `Accounts`: tables and their atomic statements, what a scan tells, the store class that performs them, and the account theorems.
- `Runpod`, `JobProtocol`, `JobSafety`, `JobRecords`, `JobSongs`: the job protocol with any number of interleaved workers, and its safety.
- `Budgets`, `SoloWorker`, `SoloSafety`, `SoloHistory`, `SoloSlots`, `SoloLiveness`: one worker over time: spacing, caps, places kept for older jobs, and the bound within which every job ends.
- `RowOutcomes`: what becomes of one row, said in minutes, attempts and answers: which job goes out, which is failed, what each answer makes of it.
- `JobWorker`, `WorkerRuns`: the worker's methods on the store and what they make of each row; each pass, a whole tick and a restart are proved to be runs of that machine.
- `SoloRefinement`: every run of that machine is a run of the interleaved protocol, so what the protocol keeps holds of the worker.
- `CoverLinks`, `Limiter`: signed links to uploads, and the rate limiter.

A score is read here as the ABC music standard v2.1 has it: a letter is an
absolute pitch (section 4.1), an accidental holds to the end of its bar (section
4.2) for its octave or for its letter (the propagation directives of section
11.3), and `K:` sets the signature (section 3.1.14).

## Where the code and its comments differ

The model follows the code.

- Transpose's comment promises that comments are left byte-identical
  (`internal/abc/transpose.go:200-202`). Whole comment lines are; a comment that
  follows music on the same line is scanned as music. `CommentSurvivesExactly`
  says for every score and accepted shift exactly which such comments come through,
  and `CommentRefusesExactly` which get the whole score refused;
  `CommentIsRewritten` and `CommentRefusesScore` are scores where it happens. The
  reader theorem holds for readers that stop at a percent sign as well as for
  readers that do not.
- The same comment promises that everything but pitches and keys is left alone and
  that the result reads the same. A moved note that loses its accidental and octave
  marks can run into its neighbours: a colon after it turns the start of a line, or
  what follows a bracket, into a field, and an accidental left on its own before it
  becomes its own. `ScoreReadsBackExactly` gives the exact condition, `NotesLegible`;
  `NoteLostBeforeColon`, `LostNoteIsNotHeard`, `NoteLostAfterBracket` and
  `NoteTakesAccidental` are scores that fail it.
- Chord symbols are split on the assumption that no quality begins with a sharp or a
  flat (`internal/abc/transpose.go:473-475`); when one does, a moved root can take it.
  `RootReadsBackExactly` says when, and `RootTakesQuality` is such a score.
- Blanks and a carriage return around a key field's value are dropped
  (`internal/abc/transpose.go:256, 286-289`).
- The text `[]:` in a line of music leaves an inline field with no first letter,
  and `internal/abc/transpose.go:326` looks at that letter: the program panics.
  `PanicsExactly` says when, for every score and shift, and `ScorePanics` names a
  score. The model gives the panic an error value of its own.
- The comment on `classifySubmit` says that only an explicit 429 is retried
  (`internal/worker/worker.go:528-531`); the code retries 409, 429, 503 and an
  accepted call without a job id, and so does the model.

## Model

| member | source | states |
|---|---|---|
| `GoArith.ModAsWritten` | internal/abc/transpose.go:104 | the remainder written with Go's truncating operator is the non-negative one, for every dividend |
| `GoArith.FloorDivAsWritten` | internal/abc/transpose.go:107-112 | the corrected truncating quotient rounds toward negative infinity |
| `GoText.JoinSplit` | internal/abc/transpose.go:225-236 | joining the lines of a score restores the score |
| `AbcKeys.TableIsCircleOfFifths` | internal/abc/transpose.go:38-43 | the thirty-key table accepts exactly the keys with at most seven sharps or flats on the circle of fifths, and gives their number |
| `AbcKeys.AcceptedNamesReadBack` | internal/abc/transpose.go:59-88 | reading an accepted key name and printing the key gives the name |
| `AbcKeys.AcceptedKeysReadBack` | internal/abc/transpose.go:59-88 | printing an accepted key and reading the name gives the key |
| `AbcIntervals.Signature` | internal/abc/transpose.go:91-101 | the sharps and flats placed in order are the key's seven consecutive fifths |
| `AbcIntervals.SignatureTransport` | internal/abc/transpose.go:131-184 | at every position, written alteration minus target signature equals read alteration minus source signature |
| `AbcIntervals.WrapHidesNothing` | internal/abc/transpose.go:116-122 | for every interval a score can have, folding an alteration into -6..5 never hides an octave |
| `AbcIntervals.TargetIsSimplest` | internal/abc/transpose.go:131-146 | no accepted spelling of the moved tonic is simpler than the target key, flats winning a tie |
| `AbcIntervals.StepsReachTheTonic` | internal/abc/transpose.go:151-161 | the step count is the only integer that carries the source tonic to the target tonic by exactly the semitones, at every octave |
| `AbcIntervals.TargetKey` | internal/abc/transpose.go:131-162 | the search over spellings and the nearest-candidate loop find that key and that step count |
| `AbcIntervals.TargetsCompose` | internal/abc/transpose.go:124-162 | intervals add: moving by m and then by n picks the key and steps of moving by m + n |
| `AbcIntervals.AltsAdd` | internal/abc/transpose.go:404-416 | a pitch moved twice has the alteration one move by the summed interval gives |
| `AbcIntervals.MoveKeyOnFifths` | internal/abc/transpose.go:173-184 | moving a later key with the wrapped arithmetic of the code is a shift on the circle of fifths, refused past seven either way |
| `AbcIntervals.MoveKeysAdd` | internal/abc/transpose.go:173-184 | later keys moved twice land where one move by the sum lands |
| `AbcTokens.LexShow` | internal/abc/transpose.go:301-362 | clean tokens, printed, scan back as themselves |
| `AbcTokens.NoteScans` | internal/abc/transpose.go:373-394 | a printed note reads back as its accidental, letter and octave, at any octave |
| `AbcInvariants.SetKeyKeepsState` | internal/abc/transpose.go:255-278 | after any key, header or later, the target signature is the source signature moved by the score's interval |
| `AbcInvariants.TokensKeepState` | internal/abc/transpose.go:301-362 | every scan of music keeps signatures the interval apart |
| `AbcInvariants.NoteMoves` | internal/abc/transpose.go:404-442 | the letter, octave, accidental and marks a note is written with, and that it is refused exactly outside double accidentals |
| `AbcInvariants.RefusalIsExact` | internal/abc/transpose.go:405-420 | a note is refused if and only if target signature plus alteration minus source signature leaves -2..2 |
| `AbcMoves.MovePitchFoldsNothing` | internal/abc/transpose.go:493-498 | chord pitches, folded because they have no octave, move as notes do |
| `AbcSpelling.AccidentalsWrittenExactly` | internal/abc/transpose.go:204-208 | a note is written with an accidental if and only if its moved alteration differs from the target signature or its letter has carried one before it in the output since the last bar line, key field or start of the line |
| `AbcRewriter.ReadAccidental` | internal/abc/transpose.go:364-380 | the table scan finds the accidental that starts the text |
| `AbcRewriter.ReadMarks` | internal/abc/transpose.go:395-402 | octave marks add and take octaves |
| `AbcRewriter.Rewriter.SetKey` | internal/abc/transpose.go:255-278 | reads a key, fixes or applies the interval, sets both signatures, resets the bar, keeps trailing text |
| `AbcRewriter.Rewriter.Note` | internal/abc/transpose.go:373-443 | consumes and writes exactly the token's note and leaves the state the specification gives |
| `AbcRewriter.Rewriter.WriteMoved` | internal/abc/transpose.go:411-442 | spells the moved pitch and marks its letter |
| `AbcRewriter.Rewriter.Chord` | internal/abc/transpose.go:449-469 | moves root and bass and leaves the quality |
| `AbcRewriter.Rewriter.Turn` | internal/abc/transpose.go:304-359 | each turn of the scan consumes one token and writes its move |
| `AbcRewriter.Rewriter.Music` | internal/abc/transpose.go:301-362 | the loop over characters writes the moved tokens of the line |
| `AbcRewriter.Rewriter.Line` | internal/abc/transpose.go:285-298 | key lines, copied lines and music |
| `AbcRewriter.Rewrite` | internal/abc/transpose.go:223-237 | rewriting the array of lines in place gives the specified text or the first refusal |
| `AbcRewriter.Transpose` | internal/abc/transpose.go:210-218 | range check, zero unchanged, otherwise the rewrite |
| `AbcRescan.MovedMusicScansExactly` | internal/abc/transpose.go:301-443 | accepted music, moved and printed, scans to exactly the moved tokens if and only if no bracket and no accidental on its own runs into the note after it |
| `AbcRescan.MovedTokensClean` | internal/abc/transpose.go:301-443 | the same on tokens: each moved token would be cut from the printed text as itself if and only if the notes as printed stay apart |
| `AbcLines.MusicStaysMusicExactly` | internal/abc/transpose.go:280-298 | a moved music line is music again if and only if its first note does not stand before a colon and print as a bare letter |
| `AbcLines.MusicReadsBackExactly` | internal/abc/transpose.go:280-362 | a moved line of music reads back as music and as the moved tokens if and only if no note in it runs into a colon, a bracket or an accidental beside it |
| `AbcLines.ScoreReadsBackExactly` | internal/abc/transpose.go:223-237 | split and scanned, an accepted score gives the moved tokens on every line of music if and only if that holds on every line |
| `AbcLines.RewrittenScoreSplits` | internal/abc/transpose.go:225-236 | splitting the output gives the rewritten lines, one for one |
| `AbcReading.NoteHeard` | internal/abc/transpose.go:404-442 | one note: whichever way accidentals carry, the output reader hears the source pitch plus n |
| `AbcReading.SetKeyReadsBack` | internal/abc/transpose.go:255-278 | a rewritten key field reads as the target signature |
| `AbcReading.TransposeMovesEveryPitch` | internal/abc/transpose.go:200-237 | for every score and accepted shift, a reader of either accidental scope, stopping at comments or not, hears the source's pitches in order with n added to each, as long as in what it reads no note runs into its neighbours |
| `AbcReading.LegibleIsFollowable` | internal/abc/transpose.go:200-237 | for a reader that reads everything that condition is exactly that the output reads back |
| `AbcChords.TransposeMovesEveryChord` | internal/abc/transpose.go:449-511 | for every accepted score that reads back, the pitch class of every chord root and bass is the source's with n added, modulo twelve |
| `AbcComposition.RootReadsBackExactly` | internal/abc/transpose.go:473-511 | a printed root reads back before its quality if and only if the quality's first character could not be taken for more of it |
| `AbcSkeleton.TransposeKeepsTheRest` | internal/abc/transpose.go:200-237 | everything but pitches, chord roots and basses, key names, and blanks and a carriage return around a key field's value is unchanged, note for note and line for line |
| `AbcSkeleton.EveryLineIsAccountedFor` | internal/abc/transpose.go:280-299 | line by line: a key line stays one; what stands before the first key line, blank lines, comments and fields come through character for character; everything else is printed from its moved tokens |
| `AbcComments.TextSurvivesExactly` | internal/abc/transpose.go:301-443 | for every accepted text on a music line and every shift but zero, it comes through unchanged if and only if it has no key field, no chord pitch, and no note but, when the shift keeps letters, bare notes that no accidental in their bar touches, written as the program writes notes |
| `AbcComments.CommentSurvivesExactly` | internal/abc/transpose.go:200-237 | in every accepted score the comment after a line's music comes through unchanged under that condition and no other |
| `AbcComments.CommentRefusesExactly` | internal/abc/transpose.go:301-443 | with nothing before it refused, a comment gets the whole score refused if and only if one of its tokens is the first to meet its refusal condition |
| `AbcGuards.RefusedExactly` | internal/abc/transpose.go:404-511 | a note or a chord pitch is refused if and only if target signature plus alteration minus source signature leaves -2..2, a key field if and only if its name is not in the table or its fifths plus the interval's leave -7..7, and an empty field always |
| `AbcGuards.TransposeAcceptsExactly` | internal/abc/transpose.go:209-240 | a score is accepted if and only if the shift is less than an octave either way, there is a key line, and no line meets its refusal condition; one that lacks only the key line is refused for that |
| `AbcGuards.RangeIsBelowAnOctave` | internal/abc/transpose.go:45-47 | whatever the score, a shift is out of range from twelve semitones on and never below |
| `AbcComposition.ChordThereAndBack` | internal/abc/transpose.go:449-511 | a chord symbol moved by an interval and back is the same text |
| `AbcComposition.NoteChained` | internal/abc/transpose.go:404-442 | a second pass over a written note writes what one direct pass writes |
| `AbcComposition.RewriteComposes` | internal/abc/transpose.go:223-237 | rewriting by m then n equals rewriting by m + n, text for text and refusal for refusal, whenever the first result reads back |
| `AbcComposition.TransposeComposes` | internal/abc/transpose.go:210-218 | the same for the bounded operation |
| `AbcLegible.LegibilityComposes` | internal/abc/transpose.go:223-237 | a result that reads back still does n further on if and only if the source does under m + n |
| `AbcComposition.TransposeInverts` | internal/abc/transpose.go:210-237 | from a score the rewriter printed, n and then -n restores the text whenever the result of n reads back |
| `AbcRefusals.DiatonicIsNeverRefused` | internal/abc/transpose.go:405-420 | a score in one accepted key, with no written accidental and diatonic chords, is never refused |
| `AbcRefusals.EmptyInlineIsItsText` | internal/abc/transpose.go:319-326 | the field with no letter is exactly the text that starts with bracket, bracket, colon |
| `AbcRefusals.PanicsExactly` | internal/abc/transpose.go:319-326 | for every score and shift the program panics if and only if that text is reached in music with nothing before it refused |
| `AbcExamples.NoteLostBeforeColon` | internal/abc/transpose.go:285-298 | K:G, ^F:&#124; moved up two semitones is K:A, G:&#124; |
| `AbcExamples.LostNoteIsNotHeard` | internal/abc/transpose.go:285-298 | the source's F sharp is heard, and in the moved score nothing is |
| `AbcExamples.NoteLostAfterBracket` | internal/abc/transpose.go:319-330 | K:G, [^F: moved up two semitones is K:A, [G:, an inline field that never closes |
| `AbcExamples.NoteTakesAccidental` | internal/abc/transpose.go:373-394 | K:G, &#124;_^F moved up two semitones is K:A, &#124;_G, where the G is flat |
| `AbcExamples.RootTakesQuality` | internal/abc/transpose.go:473-511 | in G up two semitones the chord Eb#5 becomes F#5, whose root reads as F sharp |
| `AbcExamples.CommentIsRewritten` | internal/abc/transpose.go:200-202 | K:G, &#124;%^F moved up two semitones is K:A, &#124;%G |
| `AbcExamples.CommentRefusesScore` | internal/abc/transpose.go:200-202 | in G up two semitones a comment with a B double sharp gets the score refused |
| `AbcExamples.ScorePanics` | internal/abc/transpose.go:326 | K:G, []: panics under every shift but zero |
| `GoNumbers.AtoiItoa` | internal/server/handlers.go:210-216 | a printed 64-bit integer reads back |
| `GoNumbers.AtoiReads` | internal/server/handlers.go:614-628 | a form's number is one sign or none and then digits, with the value and sign they write |
| `ScoreHeaders.ReadScoreMeta` | internal/server/handlers.go:280-310 | the loop over lines finds the first value of each header |
| `ScoreHeaders.FirstHeaderWins` | internal/server/handlers.go:280-310 | the first line that gives a key, a meter, or a beat and a tempo, is what the score page shows |
| `ScoreHeaders.KeyOptions` | internal/server/handlers.go:233-246 | thirteen entries, from six semitones up to six down, when the picker is offered, and none when it is not |
| `ScoreHeaders.OfferedExactly` | internal/server/handlers.go:233-236 | the picker is offered if and only if the score's key is in the table of thirty |
| `ScoreHeaders.PickerIsAccepted` | internal/server/handlers.go:612-640 | on a score that stays in one key every entry of the picker, sent back as the form's number, is accepted and moves the score by that much |
| `ScoreHeaders.PickerLabelsDiffer` | internal/server/handlers.go:233-269 | the text of an entry is the label of its own key and shift and of no other |
| `KeyLabels.LabelsAreOneToOne` | internal/server/handlers.go:249-269 | the words of key and shift, put together with a dash, can be taken apart again |
| `KeyLabels.KeyInWordsSaysTheKey` | internal/server/handlers.go:248-255 | a key in words is its letter, its sharp or flat sign and its mode |
| `KeyLabels.ShiftWordsSayTheShift` | internal/server/handlers.go:257-270 | a label says up for a higher melody and down for a lower one, and by how many semitones |
| `ScoreHeaders.PickerTellsTheTruth` | internal/server/handlers.go:233-246 | when the picker is offered and the score transposes, the new score's key is the one named, meter and tempo unchanged |
| `ScoreHeaders.PickerReachesEveryKey` | internal/server/handlers.go:218-221 | six semitones either way reach every key of the mode that the transposer writes |
| `ScoreHeaders.SetTempo` | internal/server/handlers.go:647-656 | replaces the first tempo line in place, or reports that there is none |
| `ScoreHeaders.TempoChangesOneLine` | internal/server/handlers.go:642-656 | the first tempo line is written anew with a quarter-note beat and every other line of the score is as it was |
| `ScoreHeaders.TempoReadsBack` | internal/server/handlers.go:642-656 | the rewritten score reads back the requested tempo, with key and meter unchanged |
| `ScoreHeaders.TempoCommutesWithTranspose` | internal/server/handlers.go:612-640 | tempo and key changes commute, refusals included |
| `ScoreHeaders.EditIsWhatWasAsked` | internal/server/handlers.go:612-640 | an accepted edit has the named key, the requested tempo, the old meter, and every pitch moved by the shift |
| `ScoreHeaders.EditIsAcceptedExactly` | internal/server/handlers.go:612-640 | an edit is accepted if and only if the key field is blank or a number from -6 to 6 by which the score can be moved, and the tempo field is blank or a number from 20 to 400 and there is a tempo line; and which of the four messages it gets otherwise |
| `StoreClass.Store.CreateJob` | internal/store/store.go:701-711 | inserts a queued row with its defaults |
| `StoreClass.Store.TransitionJob` | internal/store/store.go:742-759 | compare-and-set on the state, with the assigned columns |
| `StoreClass.Store.FailJob` | internal/store/store.go:762-771 | fails any row that is not terminal |
| `StoreClass.Store.OrphanSubmission` | internal/store/store.go:854-862 | fails a submitting row and records the remote id |
| `StoreClass.Store.BumpRetries` | internal/store/store.go:865-871 | increments the counter of any row that exists |
| `StoreClass.Store.JobsByState` | internal/store/store.go:833-849 | the oldest rows of a state, in order of creation, and no more than the limit |
| `StoreClass.Store.CreateSong` | internal/store/store.go:875-885 | inserts unless the song or its job already has a row |
| `StoreClass.Store.SongForJob` | internal/store/store.go:933-943 | finds the job's song if there is one |
| `StoreClass.Store.DeleteSong` | internal/store/store.go:1050-1075 | removes an owned song and its job together |
| `StoreClass.Store.CreateUser` | internal/store/store.go:1118-1141 | inserts unless the id or, ignoring case, the name is taken |
| `StoreClass.Store.GuardLastAdmin` | internal/store/store.go:1206-1226 | the guard's three outcomes |
| `StoreClass.Store.UpdateUserStatus` | internal/store/store.go:1172-1195 | sets the status and revokes sessions, or changes nothing |
| `StoreClass.Store.DeleteUser` | internal/store/store.go:1245-1261 | removes the account's rows and returns exactly the files those rows named |
| `StoreClass.Store.UserFiles` | internal/store/store.go:1266-1286 | the audio of the account's songs and its staged uploads, and no other file |
| `StoreClass.Store.DeleteUserRows` | internal/store/store.go:1290-1309 | the six deletions together |
| `Accounts.AdminIsNeverLost` | internal/store/store.go:1172-1261 | once an approved administrator exists, every sequence of sign-ups, status changes and deletions keeps one |
| `Accounts.RefusalIsExact` | internal/store/store.go:1206-1226 | an operation is refused for that reason if and only if the account is the only approved administrator |
| `Accounts.ChangesAreAccepted` | internal/store/store.go:1172-1261 | a deletion goes through if and only if the account is there and not the only approved administrator; a status change if and only if the status is one of the three as well, approval always |
| `Accounts.DisablingEndsSessions` | internal/store/store.go:1169-1195 | leaving the approved state ends the account's sessions and no one else's, and changes nothing but its status |
| `Accounts.NamesStayDistinct` | internal/store/store.go:1115-1141 | no two accounts ever differ only in case |
| `Accounts.SignUpIsAccepted` | internal/store/store.go:1115-1141 | a sign-up goes through if and only if its id is new and no name is the same but for the case of A to Z |
| `Accounts.SignUpIsPending` | internal/server/auth.go:271-274 | a sign-up through the form adds one row, pending and an ordinary user's, or changes nothing |
| `Accounts.NoOneApprovesThemselves` | internal/store/store.go:1118-1195 | over any operations with sign-ups through the form, administrators are those there were, and an account is approved only if it was or was given approval |
| `Accounts.DeletionIsExact` | internal/store/store.go:1230-1309 | a deletion removes exactly one account's rows and links and leaves every other row |
| `Accounts.FilesAreTheirs` | internal/store/store.go:1263-1286 | the files to unlink are the audio of the account's songs and its uploads under the data volume, and no other |
| `Accounts.SongDeletionIsExact` | internal/store/store.go:1045-1075 | a song goes if and only if its owner or an administrator asks; then it and the job it names go, and no other row |
| `Accounts.DeletionLeavesNoDanglingLink` | internal/store/store.go:1292-1299 | no link is left that serves something the deletion took |
| `Runpod.EnvelopeIsTransparent` | internal/runpod/runpod.go:376-420 | both shapes of a completed answer mean the same |
| `Runpod.OutputIsDelivered` | internal/runpod/runpod.go:376-439 | a completed answer is good if and only if no error is reported and audio is brought by its payload, or by its envelope's when its own brings none; the output then holds each field of that payload, with the delivery inferred where none is stated |
| `JobSafety.StepKeepsBilling` | internal/worker/worker.go:305-452 | every step of every actor keeps the billing invariant |
| `JobSafety.HearErrorKeepsBilling` | internal/worker/worker.go:536-550 | only a refusal of the job's one live POST lets a worker move toward the queue |
| `JobSafety.AtMostOneGeneration` | internal/worker/worker.go:359-415 | in every interleaving with crashes and deletions the remote takes at most one generation per job, and none while the row is queued |
| `JobRecords.StepIsSound` | internal/store/store.go:740-771 | every step moves every row along the closed machine and keeps its owner |
| `JobRecords.TerminalIsForever` | internal/store/store.go:740-741 | over every run a terminal state never changes and a row never changes owner |
| `JobRecords.RemoteIdsAreWhereTheMachineSays` | internal/runpod/runpod.go:359-364 | submitted, running and succeeded rows have a remote id; queued and submitting rows never do |
| `JobSongs.StepKeepsSongs` | internal/worker/worker.go:497-513 | every step keeps one song per job, with the job's owner, and a song behind every succeeded row |
| `JobSongs.SucceededHasOneSong` | internal/worker/worker.go:497-513 | in every run a succeeded row has exactly one song and both have the same owner |
| `Budgets.SubmitDelay` | internal/worker/worker.go:109-121 | the doubling loop equals the capped power of two, for every retry count |
| `Budgets.WaitsFitTheBudget` | internal/worker/worker.go:38-59 | the queue budget outlasts the waits of a number of refusals if and only if it is under twenty-five |
| `SoloSafety.StepKeepsSolo` | internal/worker/worker.go:335-452 | snapshots stay true, one job is being submitted, refusals are counted and spaced |
| `SoloSafety.AtMostTwentyFivePosts` | internal/worker/worker.go:365-375 | in any run, restarts included, no job is POSTed more than twenty-five times |
| `SoloHistory.StartedOnce` | internal/worker/worker.go:475-484 | a recorded start is never rewritten and terminal states never change |
| `SoloHistory.PollOutcome` | internal/worker/worker.go:464-513 | in the machine, an answer makes of the row what `Answered` says; a job is marked succeeded if and only if its output could be read and the songs table now holds its song, and the one song row added is the job's, its owner's, with the file that was stored |
| `SoloHistory.FailuresEndAtTheCap` | internal/worker/worker.go:554-595 | poll and store failures in any order count on one counter: the job fails if and only if a poll failure comes third or later or a store failure fifth or later |
| `SoloHistory.ScanIsExact` | internal/store/store.go:824-849 | the count of active jobs is right if and only if neither state has more rows than one scan returns |
| `SoloHistory.InFlightStaysUnderTheLimit` | internal/worker/worker.go:335-355 | with a limit of at most a hundred, submitted plus running jobs never exceed it |
| `SoloSlots.PageLeavesAPlace` | internal/store/store.go:833-838 | oldest first: a batch that holds a job younger than a waiting one is not all younger |
| `SoloSlots.StepKeepsWorking` | internal/worker/worker.go:335-355 | while a job waits, younger jobs in flight or chosen to go out leave a place under the limit, after every step |
| `SoloLiveness.StepUsesTicks` | internal/worker/worker.go:220-239 | for an overdue job the ticks it may outlive go down with every finished tick |
| `SoloLiveness.EveryJobEnds` | internal/worker/worker.go:31-38 | a job older than two queue budgets and a call is terminal or gone after two more ticks than there are waiting jobs as old |
| `RowOutcomes.NewJobStartsAfresh` | internal/store/store.go:701-729 | a new id makes a queued row, ready at once, with 45 minutes to start and then 8, 20 or 45 by engine and mode, blank meaning MiniMax; an id there is refused |
| `RowOutcomes.DecidesExactly` | internal/worker/worker.go:359-378 | the machine claims a queued job if and only if it is ready, and gives it up if and only if it is out of time |
| `RowOutcomes.ReadyJobGoesOut` | internal/worker/worker.go:359-396 | in the machine a ready job is tested, claimed and POSTed once more, and one that is not ready cannot be |
| `RowOutcomes.AnswerIsRecorded` | internal/worker/worker.go:395-415 | what the POST's answer makes of a claimed row; a row that moved on keeps its state and remote id |
| `RowOutcomes.StatusIsApplied` | internal/worker/worker.go:464-595 | what each status makes of an active row: its state, retries and start, and when it ends the job |
| `RowOutcomes.LooksExactly` | internal/worker/worker.go:423-445 | when an active job is left alone, failed without an endpoint, cancelled for its time, or asked about |
| `RowOutcomes.TurnComes` | internal/store/store.go:833-849 | a queued job is in every scan with room for the rows as old as it |
| `JobWorker.RowIsSubmitted` | internal/worker/worker.go:359-392 | one submission, in terms of its row |
| `JobWorker.RowIsPolled` | internal/worker/worker.go:423-450 | one poll, in terms of its row |
| `JobWorker.RowsArePolled` | internal/worker/worker.go:417-452 | a pass over several rows comes to the same for each as a poll of it alone |
| `JobWorker.ChosenAreSubmitted` | internal/worker/worker.go:335-355 | a submitting pass comes to the same for each chosen row as its submission alone, and leaves none out whose turn it is |
| `JobWorker.RowsAreStale` | internal/worker/worker.go:319-333 | at a restart an active row fails for being out of time and for nothing else |
| `JobWorker.Worker.SubmitOne` | internal/worker/worker.go:359-392 | a queued row goes out if and only if it has no remote id, is within its 45 minutes and past its wait, and its engine is configured; it comes to submitted with the answer's id, back to the queue with one more retry, or to failed, if and only if the answer says so; a row that left the queue is not touched while it has time |
| `JobWorker.Worker.Post` | internal/worker/worker.go:395-415 | a claimed row is submitted with the answer's id, requeued after a 409, 429, 503 or a missing id, failed after anything else |
| `JobWorker.Worker.ClassifySubmit` | internal/worker/worker.go:528-550 | requeues a definite refusal and orphans the rest |
| `JobWorker.Worker.PollOne` | internal/worker/worker.go:423-450 | an active row is failed without an endpoint, or 45 minutes from its creation before it has started, or 8, 20 or 45 from its start by engine and mode; left alone within three or ten seconds of its last change; otherwise it comes to what the answer says |
| `JobWorker.Worker.ApplyStatus` | internal/worker/worker.go:464-494 | an active row fails if and only if the answer is a failure, a cancellation, an unknown status, an unreadable output, a final error, a third failed call or a fifth failed store; and exactly which state, retries and start every other answer leaves |
| `JobWorker.Worker.Complete` | internal/worker/worker.go:497-513 | stores the song first and only then marks the row |
| `JobWorker.Worker.Finish` | internal/worker/worker.go:612-648 | a song that is there is not stored again |
| `JobWorker.Worker.PollActive` | internal/worker/worker.go:417-452 | every row of the store's active scans comes to what its own answer says, and no other row changes |
| `JobWorker.Worker.SubmitQueued` | internal/worker/worker.go:335-355 | every chosen row is submitted on its own answer, no other row changes, and a queued row is chosen whenever the rows as old as it fit under the limit beside the active ones |
| `JobWorker.Worker.FailAmbiguousSubmissions` | internal/worker/worker.go:305-317 | fails every submitting row of the store's scan |
| `JobWorker.Worker.FailExpired` | internal/worker/worker.go:319-333 | of the rows in the store's active scans exactly those out of time are failed, and no other row changes |
| `WorkerRuns.TickIsARun` | internal/worker/worker.go:229-239 | whatever a polling pass and a submitting pass of the methods may do to the tables, the machine reaches in a run that finishes one tick |
| `WorkerRuns.PollActiveIsARun` | internal/worker/worker.go:417-452 | a polling pass is a run of the machine, songs and clock included |
| `WorkerRuns.SubmitQueuedIsARun` | internal/worker/worker.go:335-415 | so is a submitting pass |
| `WorkerRuns.RestartIsARun` | internal/worker/worker.go:219-226 | and a restart, from a dead process to one that takes ticks |
| `WorkerRuns.RecoveryClearsSubmissions` | internal/worker/worker.go:305-317 | after a restart each half-way submission of the scan is failed, none is requeued and no other row changes; none is left half way if and only if no more were than one scan returns |
| `SoloRefinement.WorkerRefinesProtocol` | internal/worker/worker.go:219-239 | every run of the single worker is a run of the interleaved protocol on the same rows and songs, with a message for every POST |
| `SoloRefinement.SucceededHasOneSong` | internal/worker/worker.go:497-513 | in every run of the single worker a succeeded row has exactly one song, its owner's |
| `CoverLinks.StepKeeps` | internal/server/cover.go:199-218 | uploads and links stay until they lapse or their account goes |
| `CoverLinks.LinkLapses` | internal/store/store.go:313-335 | in every run a token serves its upload until it is two hours old and never after, unless its account is deleted |
| `CoverLinks.LinkPurgeIsExact` | internal/store/store.go:337-349 | a purge leaves no lapsed link, and every token serves what it served |
| `CoverLinks.UploadPurgeIsExact` | internal/store/store.go:369-390 | in every run a purge leaves every upload of the last day whose account is there, as it was recorded, and none that is older |
| `CoverLinks.CoverSourceIsAlive` | internal/server/cover.go:32-38 | for every cover row whose account is there, past its budget or not: as long as the time past its budget, the status call and the form's delay leave something of 75 minutes before its start or 30 after, its link serves its upload for at least what they leave, and the upload row is there |
| `CoverLinks.PostFindsItsLink` | internal/worker/worker.go:363-396 | every POST of an upload cover, its row deleted meanwhile or not, finds its link with 75 minutes left, less the form's delay and the time since the test before its claim, and the upload row there |
| `Limiter.RateLimiter.Allow` | internal/server/ratelimit.go:25-38 | opens a window after the last one ended, then counts the key |
| `Limiter.GrantsWithinWindow` | internal/server/ratelimit.go:25-38 | between resets a key gets exactly its first calls, up to the limit |
| `Limiter.TwiceTheLimit` | internal/server/ratelimit.go:25-38 | over every trace, any closed interval one window long grants a key at most twice its limit |
| `Limiter.TwiceIsReached` | internal/server/ratelimit.go:25-38 | for every limit and window a trace that reaches twice |

## Left out

- SoloLiveness.EveryJobEnds: assumes, as the promise does, one worker, a limit between one and a hundred, and store calls that succeed; a tick is one finished pass over polling and submitting.
- SoloSafety.AtMostTwentyFivePosts: for one worker; with several, a stale snapshot can miss a refusal another worker counted.
- CoverLinks.CoverSourceIsAlive: accounts deleted meanwhile are excluded because their links go with them.
- SoloWorker: neighbouring statements with no call between them read the clock once: a poll's budget and cadence tests, a submission's budget and backoff tests. A status answer is taken as heard within the call's thirty seconds; time the process itself is held up adds to that.
- JobWorker.Worker.PollOne: the method has the store to itself while it runs; the machine it is a run of lets handlers, time and crashes come between its steps. Errors of the store itself are steps of the protocol only.
- AbcReading.TransposeMovesEveryPitch: the source is read with accidentals per octave, as the rewriter reads it; the reader cuts lines and tokens as the rewriter does, starts a fresh bar at a line and at a key change, and hears nothing after a quote, an exclamation mark or an inline field that its line never closes.
- Text is a sequence of code points; input that is not valid UTF-8 is not modelled. An inline field needs an ASCII letter before its colon, which is what the byte test amounts to.
- Error messages are reduced to their kinds, and the hook by which tests observe pitches is not modelled.
- Request payloads, titles and the descriptive columns of jobs and songs are copied through and carry no invariant.
- The remote's cancel call is best effort and changes no row.
- The remote's side of the protocol is an assumption: a 409, 429 or 503, or an answer without a job id, means that it enqueued nothing and will not; every other failure may hide an accepted job.
- SQL text, SQLite and the file system: a table is a map, a statement or transaction is one step that happens or does not, and a scan answers with any rows its ORDER BY and LIMIT allow. File removal after a deletion is left to the caller.
- JSON decoding: a completed answer is an already decoded record.
- Login, sessions' tokens, hashing and route classification: ids and tokens are fresh by assumption.
- Audio transcoding, downloads and lyric services: a finished job's output cannot be read, becomes a song file, or cannot be had for now.
- The score reader of the remote worker (worker/abc_score.py) is not part of this model.
- The probe helpers that delete single rows (internal/store/store.go:400-420) break the invariants on purpose.
- That a song may outlive its job or its owner is possible in the model too; the reverse claims are not made.
