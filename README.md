# A verified model of the `edl` package

The `edl` package reads and writes CMX 3600 edit decision lists (EDLs). An
EDL is a text file. It starts with a `TITLE:` line and an optional `FCM:`
line. Then come events, each made of standard-form statements (the
numbered F1–F9 lines), M2 motion-memory notes and comments.

This project models the package's core in Dafny and proves what its code
promises. There is one module per source file:

| module | source | form |
|---|---|---|
| `FrameCounting` | `edl/fcm.py` | the three frame counting modes and their header tokens |
| `Tracks` | `edl/tracks.py` | a track as type letter and index; its name, equality, order and hash key |
| `Sources` | `edl/sources.py` | Black, Aux and Tape reels, the validators and the `from_string` factory |
| `Comments` | `edl/comments.py` | field and standard comments: validators, parsers, printers |
| `StandardForm` | `edl/sfm.py` | the five statement classes: patterns, parsers, printers |
| `NoteForm` | `edl/nfm.py` | the M2 note: pattern, parser, printer |
| `Events` | `edl/events.py` | the line classifier, the event constructor and reader, derived sets, printing |
| `EditDecisionList` | `edl/edl.py` | header parsing and printing, the segmentation loop, the `Edl` class |
| `Timecodes` | the `timecode` library | `HH:MM:SS:FF` tokens as four two-digit fields |
| `Text` | Python's `str` methods | `strip`, `split`, `splitlines`, `isnumeric`, `zfill`, `ljust`, `upper`/`lower`, `int` |
| `Wrappers` | — | `Option`, `Result`, and the exceptions as an `Error` datatype |

Every exception the core raises is a value of `Wrappers.Error`. The
`ValueError("Line {n}: …")` that `Edl.from_file` wraps around loop errors is
`AtLine(n, cause)`.

The regular expressions are not run by a regex engine; each becomes a
matcher of its own shape.
- The five statement patterns (`edl/sfm.py`) and `PAT_NOTE`
  (`edl/nfm.py:35-42`) are chains of maximal tokens separated by `\s`. They
  are matched over the words of a line: `Text.Lex` turns a line into words,
  each with the width of the whitespace before it, plus the trailing width.
  For these chains the word view is exact.
- The field-comment pattern `PAT_MATCH` (`edl/comments.py:33`) is not a token
  chain. It is matched character by character, as `Comments.FieldShape`.
- The two `re.search` calls become character predicates. The search for
  `\n` (`edl/comments.py:24`) becomes `'\n' !in line`. The search for
  whitespace (`edl/sources.py:77`) becomes `Text.NoSpace`.

The word view keeps the statement and note patterns' quirks:
- `K\s?B` allows at most one whitespace character inside `K B`.
- Without `(F)`, at least two whitespace characters must come before the
  source-in timecode.
- The M2 pattern needs whitespace after its timecode.

Whitespace is Python's `str.isspace` set, and line boundaries are those of
`str.splitlines`.

The imperative parts follow the source's form, and each is proved against a
specification function:
- `Events.IdentifyLine` and `Events.FromString` are loops over the registries
  and the lines.
- `EditDecisionList.SegmentBody` is the `from_file` loop. It keeps the
  events, the buffer and the current event number.
- `Events.EventTracks`, `Edl.UsedTracks` and `Edl.UsedSources` are the
  accumulating loops.
- `Edl` is a class with `title`, `fcm` and `events` fields and validating
  setters.

A file is read as the sequence of its lines, each without its `"\n"`. Printing
produces the text that `write` sends to its stream.

Beyond the per-operation contracts, the main results are:
- `StandardForm.PrintRoundTrip`: a printed statement parses back with the
  same class, number, reel, track, transition fields and timecodes.
- `Events.RenderRoundTrip`: an event of statements reads back from its
  printed text.
- `EditDecisionList.SegmentationKeepsLines`: the groups the loop flushes,
  concatenated, are the non-empty body lines in order, and each group's event
  is the event read from its text.
- `EditDecisionList.FileRoundTrip`: a printed EDL reads back with the same
  title and FCM and its events normalized, when the title is one the setter
  accepts and the events can be printed and read back (see "## Left out").
  `Edl.Text` states the same of a valid `Edl` object.

## Model

| member | source | states |
|---|---|---|
| `FrameCounting.FromValue` | edl/fcm.py:3-8 | `Fcm(s)` succeeds exactly for "NON-DROP FRAME", "DROP FRAME" and "PAL" (case-sensitive), and the member found has `s` as its value |
| `FrameCounting.FromValueOfValue` | edl/fcm.py:6-8 | looking up a member's value gives that member back, and no two members share a value |
| `FrameCounting.Value` | edl/fcm.py:3-8 | `Fcm.value`, the header token of each mode; no contract of its own: `FrameCounting.FromValue` and `FrameCounting.FromValueOfValue` prove the three tokens distinct and each read back as its mode |
| `Tracks.TypeFromValue` | edl/tracks.py:9-16 | `Track.Type(s)` accepts exactly "V" and "A", the type found has that value, and anything else is a ValueError |
| `Tracks.FromName` | edl/tracks.py:18-22 | the constructor accepts a name exactly when its upper-cased first letter is V or A and the rest (if any) is an integer literal; the index is that integer or 1; an empty name raises IndexError |
| `Tracks.Name` | edl/tracks.py:24-30 | the name is the type letter alone when the index is at most 1, and otherwise the letter followed by the decimal digits of the index |
| `Tracks.NameReparse` | edl/tracks.py:18-30 | re-parsing a track's name gives the track with index 1 in place of any index at most 1, whose name is the same |
| `Tracks.NameStable` | edl/tracks.py:18-30 | `Track(Track(s).name).name == Track(s).name` for every name the constructor accepts |
| `Tracks.NameIsToken` | edl/tracks.py:24-30 | a track's name is a non-empty word without whitespace |
| `Tracks.EqualsIff` | edl/tracks.py:42-53 | two tracks are equal exactly when their types agree and their indexes are equal or both at most 1; equal tracks hash alike |
| `Tracks.EqualityExamples` | edl/tracks.py:42-45 | `Track("A1") == Track("a") == Track("A")` and `Track("V") != Track("A")` |
| `Tracks.OrderExamples` | edl/tracks.py:47-50 | `<` compares indexes only: `Track("V") < Track("A2")`, while `Track("V")` and `Track("A")` are neither `<` nor `==`; `Track("B")` raises |
| `Tracks.LessThanOrder` | edl/tracks.py:47-50 | `<` between tracks is a strict order (irreflexive, asymmetric, transitive), total up to equal indexes, and blind to the type letter |
| `Tracks.EqualTracksOrdered` | edl/tracks.py:42-50 | `a == b` and `a < b` hold together exactly when both have the same type and `a`'s index is below `b`'s, which is at most 1, since `==` reads any index up to 1 as 1 |
| `Tracks.EqualButLess` | edl/tracks.py:42-50 | `Track("A0") == Track("A")` and yet `Track("A0") < Track("A")` |
| `Tracks.NonTrackComparisons` | edl/tracks.py:42-50 | `==` and `<` against a non-Track are both false |
| `Tracks.Equals` | edl/tracks.py:42-45 | `__eq__`: false against a non-Track, and otherwise equality of names; no contract of its own: `Tracks.EqualsIff` states it by type and index |
| `Tracks.LessThan` | edl/tracks.py:47-50 | `__lt__`: false against a non-Track, and otherwise by index alone; no contract of its own: `Tracks.LessThanOrder` and `Tracks.EqualTracksOrdered` state its order properties |
| `Tracks.HashKey` | edl/tracks.py:52-53 | `__hash__` hashes the name, so the key is the name; no contract of its own: `Tracks.EqualsIff` proves that equal tracks have equal keys |
| `Sources.IsTapeIff` | edl/sources.py:74-77 | the Tape validator holds exactly for a non-empty name without whitespace |
| `Sources.Name` | edl/sources.py:6-13 | `name`: "BL" for Black, "AX" for Aux and the stored name for a Tape; no contract of its own: `Sources.FromStringNames` and `Sources.CanonicalNameIsToken` state what the factory's reels are named |
| `Sources.IsBlack` | edl/sources.py:41-44 | `BlackSource.validate`: the name upper-cases to "BL"; no contract of its own: `Sources.FromString` states the dispatch on it |
| `Sources.IsAux` | edl/sources.py:51-53 | `AuxSource.validate`: the name upper-cases to "AX"; no contract of its own: `Sources.FromString` states the dispatch on it |
| `Sources.NewTape` | edl/sources.py:66-72 | the Tape constructor keeps a valid name verbatim and raises "invalid characters" otherwise |
| `Sources.FromString` | edl/sources.py:24-34 | the factory gives Black iff the name upper-cases to "BL", else Aux iff it upper-cases to "AX", else a Tape of the name iff it validates, else ValueError |
| `Sources.FromStringNames` | edl/sources.py:36-53 | Black and Aux are named "BL" and "AX" whatever the input's case, a Tape keeps its token, and the name always upper-cases like the input |
| `Sources.FromStringIdempotent` | edl/sources.py:24-34 | `from_string(from_string(s).name) == from_string(s)`, and that name is a token |
| `Sources.CanonicalNameIsToken` | edl/sources.py:10-13 | a reel the factory builds has a name that is a token |
| `Sources.CanonicalSameReel` | edl/sources.py:18-22 | among reels the factory builds, equality by name is equality of reels |
| `Sources.TapeNamedLikeBlack` | edl/sources.py:18-22 | a Tape built directly from "BL" is equal to Black, but the factory would never build it |
| `Sources.TapeNamedLikeAux` | edl/sources.py:18-22 | a Tape built directly from "AX" is equal to Aux, but the factory would never build it |
| `Sources.FromStringIgnoresCase` | edl/sources.py:36-53 | "bl" gives Black and "Ax" gives Aux |
| `Sources.TapeRejects` | edl/sources.py:62-77 | a blank name or a name with whitespace makes the Tape constructor raise, and the factory too unless it names Black or Aux |
| `Timecodes.Format` | edl/sfm.py:62-67 | a printed timecode is an `HH:MM:SS:FF` token |
| `Timecodes.Parse` | edl/sfm.py:62-67 | `Timecode(token)` on an `HH:MM:SS:FF` token reads its four two-digit fields; no contract of its own: `Timecodes.ParseFormat` and `Timecodes.FormatParse` prove it inverse to `Timecodes.Format` |
| `Timecodes.ParseFormat` | edl/sfm.py:62-67 | parsing a printed timecode gives it back |
| `Timecodes.FormatParse` | edl/sfm.py:62-67 | printing a parsed `HH:MM:SS:FF` token gives the token back |
| `Timecodes.LeAntisymmetric` | edl/events.py:107-113 | the order used by `min` and `max` is antisymmetric, so it is total |
| `Comments.BaseValidate` | edl/comments.py:18-26 | `validate` raises IndexError exactly on an empty or whitespace-only line, and otherwise holds iff the stripped line is non-empty, has no '\n', and its first word does not start with a digit |
| `Comments.BaseValidateFirstChar` | edl/comments.py:22-26 | on a non-blank line the third check is about the line's first non-whitespace character |
| `Comments.FieldValidate` | edl/comments.py:39-44 | `FieldComment.validate` raises on the same lines as the base check, and otherwise holds iff the base check holds and the line is `*`, non-whitespace, `:`, non-whitespace |
| `Comments.StandardValidate` | edl/comments.py:78-82 | `StandardComment.validate` is `super().validate(line)`, so it gives exactly what the base check gives; what that check holds for is stated by `Comments.BaseValidate` and `Comments.BaseValidateFirstChar`, and `Comments.FieldImpliesStandard` compares it with the field validator |
| `Comments.FieldFromString` | edl/comments.py:46-53 | `from_string` drops the first character, splits at the first ':' and strips both halves; IndexError exactly when there is no ':' |
| `Comments.StandardFromString` | edl/comments.py:69-76 | the constructor succeeds exactly on lines that validate and keeps the line; otherwise it raises, IndexError on a blank line |
| `Comments.FieldImpliesStandard` | edl/comments.py:39-44 | every line `FieldComment` accepts `StandardComment` accepts too, and both raise on the same lines |
| `Comments.FieldValidatedParses` | edl/comments.py:39-53 | a line `FieldComment.validate` accepts has a ':' to split at, so `from_string` does not raise |
| `Comments.StandardRendersLine` | edl/comments.py:84-85 | a standard comment prints as the line it was made from |
| `Comments.FieldRoundTrip` | edl/comments.py:46-64 | "* field: value" parses back to the same field and value exactly when neither starts or ends with whitespace and the field has no ':' (line breaks and empty parts included) |
| `Comments.FieldFromStringSplittable` | edl/comments.py:46-53 | the field and value `from_string` returns are stripped and the field has no ':', so they print and read back unchanged |
| `Comments.FieldPrintedValidates` | edl/comments.py:39-44 | a printed field comment passes `FieldComment.validate` |
| `Comments.SourceFileExample` | edl/comments.py:46-53 | "* SOURCE FILE: clip_01.mov" validates and gives field "SOURCE FILE" and value "clip_01.mov" |
| `Comments.Render` | edl/comments.py:63-64 | a standard comment prints as its own text; a field comment prints with `*` first and is four characters longer than its field and value, and when the field has no ':' the first ':' after the `*` is the one that ends the field, where `from_string` splits it again (`Comments.FieldRoundTrip`) |
| `StandardForm.MatchWords` | edl/sfm.py:120-129 | a match starts at column 0 with the event number's digits and yields groups of its class's shape whose event number, reel and track are the first three tokens, whose timecodes are the last four tokens in order, whose duration is the fifth token (dissolve, wipe, key foreground) and whose wipe id is the digits after `W` |
| `StandardForm.MatchWordsAccepts` | edl/sfm.py:120-129 | the acceptance direction: tokens of each class's shape (a digit run at column 0, a reel, a track token, the class's F4/F5 and four timecodes) match its pattern |
| `StandardForm.MatchKeyBackground` | edl/sfm.py:313-323 | a match has `KB` as one token, or `K` and `B` exactly one whitespace character apart; the fade flag is set exactly when `(F)` follows; without it at least two whitespace characters come before source-in; the line ends with exactly four timecodes, which are the last four tokens and become the four timecode groups; conversely every such line matches |
| `StandardForm.MatchStatement` | edl/sfm.py:49-54 | a line that matches yields groups of its class's shape; the event number, reel and track groups are the first three tokens of `line.split()` and the timecode groups its last four |
| `StandardForm.MatchStartsWithDigit` | edl/sfm.py:120-129 | every statement pattern needs a digit at column 0 |
| `StandardForm.MatchExclusive` | edl/sfm.py:152-162 | the type fields C, D, W, K and K B exclude each other: no line matches two classes |
| `StandardForm.TrackTokenParses` | edl/sfm.py:120-129 | a token the track pattern admits builds a Track exactly when it is not `B`; `B` raises "invalid track type" |
| `StandardForm.TransitionOf` | edl/sfm.py:181-194 | F4 and F5 become the transition of the matched class |
| `StandardForm.ParseFromPattern` | edl/sfm.py:56-69 | parsing matched groups fails exactly for track `B`; otherwise the statement has the matched class, the event number `int()` reads, the track `Track()` builds from the track group, a reel the factory builds whose name is the reel group up to case, the transition of the class's fields, and the source and record ranges of the four timecode groups in order |
| `StandardForm.ParsedStatementFields` | edl/sfm.py:48-69 | a statement read from a line, whatever its spacing: the event number is the first token's value, the reel is named by the second token up to case, the track is the one the third names, and the printed source in/out and record in/out are the last four tokens in order |
| `StandardForm.ParseFromString` | edl/sfm.py:48-54 | `parse_from_string` raises "not a valid …" when its pattern fails and otherwise converts the groups, so the only errors are that one and "invalid track type"; a statement read is of the class asked for, has an event number and a reel the factory builds, and comes from a line starting with a digit |
| `StandardForm.ReelName` | edl/sfm.py:76-79 | `reel_name` is the name of the statement's source; no contract of its own: `Events.ReelNamesAreSourceNames` relates it to `sources` |
| `StandardForm.StatementFcm` | edl/sfm.py:101-105 | `fcm` is NON_DROP_FRAME for every statement; no contract of its own: `Events.FcmSetOfStatements` uses it |
| `StandardForm.Print` | edl/sfm.py:145-147 | a printed statement is its words (zero-filled number, reel, track, type fields, four timecodes) laid out with the padding as gaps and nothing after the last timecode; `StandardForm.LexPrint` and `StandardForm.PrintRoundTrip` read it back |
| `StandardForm.ZFill3` | edl/sfm.py:145-147 | `str(n).zfill(3)` is a digit run whose value is `n`, three long when `n < 1000` |
| `StandardForm.LexPrint` | edl/sfm.py:145-147 | splitting a printed statement gives back exactly those words |
| `StandardForm.MatchPrinted` | edl/sfm.py:120-129 | a printed statement matches its own class's pattern, with groups holding the printed fields |
| `StandardForm.ParsePrinted` | edl/sfm.py:131-143 | those groups parse to the statement, with event number 1 for none and the track rebuilt from its name |
| `StandardForm.PrintRoundTrip` | edl/sfm.py:120-359 | parsing a printed statement with its own class gives it back: event number, reel, track, length, wipe id or fade flag, and timecodes |
| `StandardForm.PrintOtherKinds` | edl/sfm.py:120-359 | every other class rejects a printed statement |
| `StandardForm.VideoTrackNameRejected` | edl/sfm.py:123 | the name of a video track above 1 (`V2`) is not a token the track pattern admits |
| `StandardForm.PrintedVideoTrackRejected` | edl/sfm.py:145-147 | so a statement on such a track prints as a line no class accepts |
| `StandardForm.KeyBackgroundSplitTooWide` | edl/sfm.py:313-323 | `K` and `B` with two or more whitespace characters between do not match |
| `StandardForm.KeyBackgroundNeedsTwoSpaces` | edl/sfm.py:313-323 | without `(F)`, fewer than two whitespace characters before the next token do not match |
| `StandardForm.KeyBackgroundFade` | edl/sfm.py:342-355 | the fade flag is set exactly when `(F)` follows the type field |
| `StandardForm.HeadLayout` | edl/sfm.py:145-147 | F1–F3 print as the zero-filled number, the reel left-justified to 128 and the track to 3, two spaces apart |
| `StandardForm.TypeFieldLayout` | edl/sfm.py:196-198 | the type field prints as its words with the spaces the printers put around them |
| `StandardForm.TimecodeLayout` | edl/sfm.py:145-147 | the four timecodes print one space apart |
| `NoteForm.MatchWords` | edl/nfm.py:35-42 | `PAT_NOTE` matches exactly: `M2` at column 0, a reel token, a speed token over `[+-.0-9]`, a timecode token, and whitespace after it; what that means for printed notes is stated by `NoteForm.MatchPaddedPrint` (matched once whitespace follows) and `NoteForm.PrintedNoteNotMatched` (rejected as printed) |
| `NoteForm.MatchNote` | edl/nfm.py:35-42 | a match yields a reel token, a speed token and a timecode token |
| `NoteForm.MatchStartsWithM` | edl/nfm.py:35-42 | a matched line starts with `M` or `m` |
| `NoteForm.Unsigned` | edl/nfm.py:74 | a speed with a leading sign is that sign followed by the unsigned text, and one without is kept whole; the literals `float()` then accepts are pinned down by `NoteForm.FloatLiteralAccepted` and `NoteForm.FloatLiteralRejected` |
| `NoteForm.New` | edl/nfm.py:44-47 | the constructor succeeds exactly when the reel factory does, and keeps the speed and the timecode |
| `NoteForm.ReelName` | edl/nfm.py:54-57 | `reel_name` is the name of the note's source; no contract of its own |
| `NoteForm.ParseFromPattern` | edl/nfm.py:69-81 | parsing the groups fails exactly when the speed is not a float literal, and keeps the speed text and the timecode |
| `NoteForm.ParseLine` | edl/nfm.py:69-81 | a line is read as a note exactly when it matches; a matched line starts with `M` or `m`; the only error is the float conversion of the speed; a note read has a reel the factory builds and a float-literal speed |
| `NoteForm.Print` | edl/nfm.py:83-84 | a printed note is "M2", the reel name, the speed and the timecode laid out with the padding as gaps (five spaces, the reel left-justified to 129, two spaces, the speed right-justified to 6, two spaces) and nothing after the timecode |
| `NoteForm.LexPrint` | edl/nfm.py:83-84 | splitting a printed note gives back its four words |
| `NoteForm.PrintedNoteNotMatched` | edl/nfm.py:83-84 | a printed note has no whitespace after its timecode, so `PAT_NOTE` rejects it |
| `NoteForm.PaddedPrintRoundTrip` | edl/nfm.py:35-84 | with whitespace added after it, a printed note parses back to the same reel, speed and timecode |
| `NoteForm.MatchPaddedPrint` | edl/nfm.py:35-42 | a printed note with whitespace added matches with its own reel, speed and timecode as groups |
| `NoteForm.ParsePrintedGroups` | edl/nfm.py:69-81 | the groups of a printed note parse back to the note |
| `NoteForm.PrintExample` | edl/nfm.py:83-84 | a concrete printed note, column by column |
| `NoteForm.FloatLiteralAccepted` | edl/nfm.py:74 | "1.5", "-.5", "+3." and "030.0" are float literals |
| `NoteForm.FloatLiteralRejected` | edl/nfm.py:74 | "1.2.3", "--1", ".", "+" and "1-" are not |
| `Events.Classify` | edl/events.py:50-75 | the first statement class that matches decides the line; a digit at column 0 with no match raises "Unrecognized standard form statement"; only lines without a leading digit become notes or comments |
| `Events.IdentifyLine` | edl/events.py:50-75 | the loops over the three registries, with early return, compute `Classify` |
| `Events.FirstStatementIsOnly` | edl/events.py:54-59 | when a class matches, the scan returns that class's parse, and nothing when the class is not in the registry |
| `Events.NoStatementMatches` | edl/events.py:54-59 | when no class matches, the statement scan finds nothing |
| `Events.MatchedStatementDecides` | edl/events.py:56-59 | a line that matches a statement pattern is that statement, or raises when its fields do not convert (track `B`); it never falls through to notes or comments |
| `Events.DigitLineIsStatement` | edl/events.py:61-63 | a line starting with a digit is a statement or raises |
| `Events.PrintedStatementClassified` | edl/events.py:50-59 | a printed statement is classified as its normalized statement |
| `Events.NoStatementWithoutDigit` | edl/events.py:54-59 | no statement matches a line without a leading digit |
| `Events.ClassifyAsComment` | edl/events.py:65-75 | a line without a leading digit that is not a note goes to the comment stage |
| `Events.BlankLineRaises` | edl/events.py:71-73 | a whitespace-only line raises IndexError in the comment validators |
| `Events.PrintedFieldCommentClassified` | edl/events.py:71-73 | a printed field comment is read as that field comment, since `FieldComment` is tried first |
| `Events.StandardCommentLine` | edl/events.py:71-73 | a single line starting with `M` that is not a note is a standard comment |
| `Events.PrintedNoteIsComment` | edl/events.py:65-73 | a printed M2 note is read back as a standard comment, not as a note |
| `Events.NewEvent` | edl/events.py:8-20 | the constructor raises exactly when there is no statement, and otherwise keeps the three lists with FCM NON_DROP_FRAME |
| `Events.FcmSetOfStatements` | edl/events.py:15-18 | the statements' FCM set is always `{NON_DROP_FRAME}`, so the mismatch error cannot happen |
| `Events.FromString` | edl/events.py:22-48 | the loop over the lines, appending to three lists, computes `EventOf` |
| `Events.EventOf` | edl/events.py:22-48 | `from_string` raises the error of the first line that raises, and "no statements" when no line is a statement; otherwise it fails only with "no statements". An event it reads is valid (at least one statement, FCM NON_DROP_FRAME), and its statements, notes and comments are the classified lines of each kind, in line order |
| `Events.ClassifyAllLines` | edl/events.py:30-34 | the classified lines are the non-blank lines, each classified, in order |
| `Events.ClassifyAll` | edl/events.py:30-42 | the loop of `from_string`: blank lines skipped, each other line classified, and the first raise ends it; no contract of its own: `Events.ClassifyAllLines`, `Events.ClassifyAllPrefixErr` and `Events.EventOf` state it |
| `Events.PartitionCount` | edl/events.py:35-42 | every classified line goes into exactly one of the three lists |
| `Events.EventOfKeepsLines` | edl/events.py:22-48 | a read event holds as many statements, notes and comments as the text has non-blank lines |
| `Events.EventNeedsStatement` | edl/events.py:10-12 | text with no statement line does not make an event |
| `Events.KeyedSetMembers` | edl/events.py:78-85 | a set of values keyed by name holds exactly the names of the items, each with an item of that name |
| `Events.TracksOfMembers` | edl/events.py:78-85 | `tracks` holds exactly the names of the statements' tracks |
| `Events.TracksOf` | edl/events.py:78-85 | `tracks`: the statements' tracks as a set keyed by name; no contract of its own: `Events.TracksOfMembers` states its members and `Events.EventTracks` computes it with the source's loop |
| `Events.SourcesOfMembers` | edl/events.py:99-101 | `sources` holds exactly the names of the statements' reels |
| `Events.SourcesOf` | edl/events.py:99-101 | `sources`: the statements' reels as a set keyed by name; no contract of its own: `Events.SourcesOfMembers` states its members |
| `Events.EventTracks` | edl/events.py:78-85 | the loop adding each statement's tracks computes the event's track set |
| `Events.ReelNamesAreSourceNames` | edl/events.py:103-105 | `reel_names` are the names of `sources` |
| `Events.ReelNames` | edl/events.py:103-105 | `reel_names`: the set of the statements' reel names; no contract of its own: `Events.ReelNamesAreSourceNames` proves it the key set of `sources` |
| `Events.UsesSourceIff` | edl/events.py:125-127 | `uses_source` holds exactly when some statement's reel has the same name |
| `Events.UsesSource` | edl/events.py:125-127 | `uses_source`: membership in `sources`, that is by name; no contract of its own: `Events.UsesSourceIff` states it over the statements |
| `Events.MinRecordStartIsLeast` | edl/events.py:111 | the start is a statement's record start, and no record start is earlier |
| `Events.MaxRecordEndIsGreatest` | edl/events.py:112 | the end is a statement's record end, and no record end is later |
| `Events.TimecodeExtents` | edl/events.py:107-113 | the extents contain every statement's record range, and both ends are attained by some statement |
| `Events.Render` | edl/events.py:129-136 | an event of statements alone prints as its statement lines followed by two newlines; `Events.RenderSeparators` gives the general layout and `Events.RenderRoundTrip` reads it back |
| `Events.RenderSeparators` | edl/events.py:129-136 | `str(event)` is the statements, "\n", the notes, "\n", the comments, with both separators even for empty groups |
| `Events.RenderLines` | edl/events.py:129-136 | the printed text of an event of statements splits into the statement lines and one empty line |
| `Events.RenderRoundTrip` | edl/events.py:22-48 | reading a printed event of statements gives its normalized statements back |
| `Events.StatementTextsRead` | edl/events.py:22-48 | reading the statement lines joined by "\n" gives the normalized statements |
| `EditDecisionList.ParseTitle` | edl/edl.py:84-93 | the title line must start with "title:" in any case and have a non-blank rest; the title is that rest stripped |
| `EditDecisionList.ParseFcm` | edl/edl.py:95-105 | the FCM line must start with "fcm:" in any case; its stripped rest must be an exact FCM value, else "Invalid FCM specified" |
| `EditDecisionList.FcmLineIsFound` | edl/edl.py:29-35 | a second line chosen by its "FCM:" prefix never fails with "FCM was expected" |
| `EditDecisionList.Body` | edl/edl.py:29-37 | the body is the lines after the title, and after the FCM line when there is one; `EditDecisionList.HeaderRoundTrip` states the inverse (the body of a printed header followed by lines is those lines) and `EditDecisionList.BodyLineOfFile` where each body line sits in the file |
| `EditDecisionList.BodyLineOfFile` | edl/edl.py:29-37 | body line `n` (from 0) is file line `n` plus the header's size (from 0) |
| `EditDecisionList.LeadingNumber` | edl/edl.py:50-51 | the event number of a line is its first word when that is all digits, and nothing otherwise; `EditDecisionList.PrintedStatementNumbered` gives it for printed statements |
| `EditDecisionList.PrintedStatementNumbered` | edl/edl.py:50-51 | a printed statement line is not blank and its leading number is the number it prints |
| `EditDecisionList.PrefixedFormNeverMatches` | edl/edl.py:75 | a lower-cased word never equals "FCM:" or "SPLIT:", so that branch never fires |
| `EditDecisionList.IsBeginNewEvent` | edl/edl.py:65-82 | false when the current number is 0; otherwise IndexError on a blank line, and true iff the first word is a number other than the current one |
| `EditDecisionList.Flush` | edl/edl.py:44-47 | flushing the buffer appends its lines as a group and its event, or raises the event's error; `EditDecisionList.StepLineConsistent` and `EditDecisionList.SegmentationKeepsLines` state what the flushed groups add up to |
| `EditDecisionList.StepLine` | edl/edl.py:42-53 | one step of the loop: a whitespace-only line always raises; the only other error is the flushed event's; otherwise the line ends the buffer and the groups are unchanged or gain the old buffer |
| `EditDecisionList.ScanLines` | edl/edl.py:37-56 | the loop over the body lines: every error it raises is wrapped as "Line {n}" with `n` between 2 and the number of body lines plus 1 |
| `EditDecisionList.SegmentBody` | edl/edl.py:37-61 | the loop over the body with its buffer and current number computes the events of the body, with the same errors |
| `EditDecisionList.Segmentation` | edl/edl.py:37-61 | the body loop and then the flush of the last buffer, whose error is not wrapped; no contract of its own: `EditDecisionList.SegmentationKeepsLines` and `EditDecisionList.ParseBodyErr` state it |
| `EditDecisionList.EventsOfBody` | edl/edl.py:37-61 | the events the body loop collects; no contract of its own: `EditDecisionList.SegmentBody` proves the source's loop computes it |
| `EditDecisionList.ScanLinesStep` | edl/edl.py:37-56 | one more line: skipped when empty, otherwise one step whose error is re-raised as "Line {n+2}" |
| `EditDecisionList.ScanLinesPrefixErr` | edl/edl.py:55-56 | once a line raises, the reading stops with that error |
| `EditDecisionList.StepLineConsistent` | edl/edl.py:42-53 | one step keeps the loop's invariant: groups and buffer hold the lines read, each group is read as its event, later groups start numbered |
| `EditDecisionList.ScanLinesConsistent` | edl/edl.py:37-56 | the loop keeps that invariant over the non-empty body lines |
| `EditDecisionList.SegmentationKeepsLines` | edl/edl.py:37-61 | the flushed groups, concatenated, are the non-empty body lines in order; each group reads as its event, and each group after the first starts with a numbered line |
| `EditDecisionList.BlankLineFails` | edl/edl.py:42-56 | a whitespace-only body line `n` fails the file with IndexError wrapped as "Line {n+2}" |
| `EditDecisionList.BlankLineReported` | edl/edl.py:37-56 | that report names file line `n + 2`, which is right without an FCM line and one short with it |
| `EditDecisionList.ParseBodyErr` | edl/edl.py:37-63 | an error in the body is the file's error |
| `EditDecisionList.CheckTitle` | edl/edl.py:120-132 | the title setter strips the title and rejects an empty or multi-line one |
| `EditDecisionList.CheckTitleAccepted` | edl/edl.py:120-132 | the setter keeps a title unchanged exactly when it is non-empty, stripped and one line, and setting twice is setting once |
| `EditDecisionList.ParsedTitleChecked` | edl/edl.py:63 | a title read from the header passes the setter unless it holds a line break |
| `EditDecisionList.Parse` | edl/edl.py:18-63 | `from_file` as a value: a bad title line is the first error and a bad FCM line the second; a document read has the title read from the title line, which the setter accepts, the FCM read from the FCM line or PAL when no FCM line was consumed, and the events of the body |
| `EditDecisionList.HeaderLines` | edl/edl.py:145-155 | the header is one line for PAL and two otherwise |
| `EditDecisionList.HeaderText` | edl/edl.py:145-155 | the header starts with "TITLE: " and the title, and is exactly that when and only when the FCM is PAL |
| `EditDecisionList.HeaderTextLines` | edl/edl.py:145-155 | the header is "TITLE: <title>" followed by "\nFCM: <value>" iff the FCM is not PAL |
| `EditDecisionList.HeaderRoundTrip` | edl/edl.py:18-35 | reading a printed header gives the title and FCM back and leaves the body lines that follow |
| `EditDecisionList.Union` | edl/edl.py:157-163 | `set.union` by name keeps the first set's member for a shared name |
| `EditDecisionList.UnionAllKeys` | edl/edl.py:157-176 | the union over the events holds a name exactly when some event's set does |
| `EditDecisionList.UnionAllFirst` | edl/edl.py:157-176 | the member kept for a name is that of the first event holding it |
| `EditDecisionList.UnionAll` | edl/edl.py:157-176 | the loops `tracks = tracks.union(e.tracks)` and `sources = sources.union(e.sources)` from the empty set; no contract of its own: `EditDecisionList.UnionAllKeys` and `EditDecisionList.UnionAllFirst` state it |
| `EditDecisionList.TrackSets` | edl/edl.py:157-163 | one track set per event, in order; `EditDecisionList.UsedTrackNames` states what their union holds |
| `EditDecisionList.SourceSets` | edl/edl.py:170-176 | one source set per event, in order; `EditDecisionList.UsedSourceNames` states what their union holds |
| `EditDecisionList.UsedTrackNames` | edl/edl.py:157-163 | `Edl.tracks` holds a name exactly when some statement of some event is on a track of that name |
| `EditDecisionList.UsedSourceNames` | edl/edl.py:170-176 | `Edl.sources` holds a name exactly when some statement of some event is from a reel of that name |
| `EditDecisionList.EventsText` | edl/edl.py:107-112 | the events' text is empty exactly when there are no events, and otherwise ends with a newline |
| `EditDecisionList.PrintedLines` | edl/edl.py:107-112 | the printed EDL reads back as the header lines and then each event's statement lines and two empty lines |
| `EditDecisionList.ReadLines` | edl/edl.py:37 | `readlines()` with each line's `\n` removed by `rstrip('\n')`; no contract of its own: `EditDecisionList.ReadTerminated` proves that lines printed with a newline each read back unchanged |
| `EditDecisionList.SegmentPrinted` | edl/edl.py:37-61 | the body of a printed list of events reads back as those events, normalized |
| `EditDecisionList.FileRoundTrip` | edl/edl.py:18-112 | reading a printed EDL gives back its title and FCM and its events normalized (event number 1 for none, tracks rebuilt from their names), for a title the setter accepts and events that can be printed and read back (see "## Left out") |
| `EditDecisionList.Edl.constructor` | edl/edl.py:12-16 | `Edl()` has title "Untitled EDL", NON_DROP_FRAME and no events |
| `EditDecisionList.Edl.SetTitle` | edl/edl.py:120-132 | the setter stores the checked title or raises and changes nothing; nothing else changes |
| `EditDecisionList.Edl.SetFcm` | edl/edl.py:139-143 | the setter stores an Fcm member and raises for any other value; nothing else changes, and a valid EDL stays valid |
| `EditDecisionList.Edl.Create` | edl/edl.py:12-16 | `Edl(title=…, fcm=…, events=…)` raises the title's error first, then the FCM's, and otherwise holds the checked title, the FCM and the events |
| `EditDecisionList.Edl.FromFile` | edl/edl.py:18-63 | `from_file` succeeds exactly when the file parses, with its error otherwise, and holds the parsed title, FCM and events |
| `EditDecisionList.Edl.Header` | edl/edl.py:145-155 | the header of a valid EDL, written alone, reads back as an EDL with the same title and FCM and no events |
| `EditDecisionList.Edl.Text` | edl/edl.py:107-112 | the text of a valid EDL whose events can be printed and read back reads back as its title, its FCM and its events normalized |
| `EditDecisionList.Edl.UsedTracks` | edl/edl.py:157-163 | the loop computes the union of the events' track sets |
| `EditDecisionList.Edl.UsedSources` | edl/edl.py:170-176 | the loop computes the union of the events' source sets |

## Left out

- The `timecode` library is not part of this model. A timecode is four two-digit fields, parsed from and printed as `HH:MM:SS:FF`. It is ordered by its frame position. Frame-rate arithmetic and `duration` are not modelled.
- Timecode validation is not modelled. Each field is any two-digit number from 00 to 99. Frames are not checked against the frame rate, and minutes and seconds are not checked to be below 60, as the `timecode` library would. A timecode range keeps the start and end it was given, so a start after its end is accepted.
- `Event.duration` (edl/events.py:115-118) is left out, because it is arithmetic in the `timecode` library.
- `NoteForm.New`: the speed stays the matched literal text. `float()` is modelled only as the check `IsFloatLiteral` on `[+-.0-9]` strings, and there is no floating-point value.
- `NoteForm.Print`: the printed speed, `round(speed, 1)` with its `zfill`, is a parameter `rounded`. `Events.Render` and `Edl.Text` take a `formatSpeed` function for it.
- Digits are ASCII digits. Unicode digits that `isnumeric`, `\d` and `int()` accept are not modelled. Neither are `int()`'s underscores.
- `upper()` and `lower()` map ASCII letters only. `re.I` matching adds the Kelvin sign for `K`.
- A statement carries one track. Parsed statements always do. Multi-track printing depends on set iteration order and is not modelled.
- `Master` (edl/sources.py:55-58) is never built by the factory and is not modelled.
- The class attribute `Track.tracks` is not modelled. Neither are the `__repr__` methods or edl/__init__.py, which only imports.
- `all_statement_types` is not modelled as reflection over `__subclasses__`. It is a fixed registry in the order the code yields: Cut, Dissolve, Wipe, KeyForeground, KeyBackground; M2; FieldComment, StandardComment.
- Stream I/O is not modelled: `readline`, `tell`, `seek`, `print` and `StringIO`. `from_file` takes the file's lines, without their line feeds. `Edl.Text` is the text `write` prints. `EditDecisionList.ReadLines` cuts that text back into lines.
- The `comments` default of `Event.__init__` (edl/events.py:8) is a typing object, not `None`. The model always passes an explicit comment list, as `from_string` does.
- `str(title)` in the title setter is not modelled. The model takes titles that are already strings.
- `EditDecisionList.FileRoundTrip` and `Events.RenderRoundTrip`: these hold only for events with these properties:
  - at least one statement;
  - no notes or comments;
  - reels the factory builds, and no video track above 1;
  - all statements of an event printing the same non-zero number, with neighbouring events printing different numbers.

  Other events do not read back as printed. A printed note is read as a comment; see `Events.PrintedNoteIsComment`.
- `NoteForm.PaddedPrintRoundTrip` needs whitespace after the printed note, which the printer does not write.
