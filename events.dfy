/** Events (edl/events.py): classifying the lines of an event, collecting
    them into an event, and what an event derives from its statements. */
module Events {
  import opened Wrappers
  import opened Text
  import opened Timecodes
  import FrameCounting
  import Tracks
  import Sources
  import SF = StandardForm
  import NF = NoteForm
  import Comments

  /** What `_identify_line` returns for a line. */
  datatype Line =
    | StatementLine(statement: SF.Statement)
    | NoteLine(note: NF.Note)
    | CommentLine(comment: Comments.Comment)

  // ---------------------------------------------------------------------
  // Classifying one line

  /** The first statement class in `kinds` whose pattern matches, parsed
      with that class; `None` when none matches. */
  function FirstStatement(kinds: seq<SF.Kind>, line: string): Option<Result<SF.Statement>> {
    if kinds == [] then None
    else match SF.MatchStatement(kinds[0], line)
      case Some(g) => Some(SF.ParseFromPattern(kinds[0], g))
      case None => FirstStatement(kinds[1..], line)
  }

  /** The first note class in `kinds` whose pattern matches, parsed. */
  function FirstNote(kinds: seq<NF.NoteKind>, line: string): Option<Result<NF.Note>> {
    if kinds == [] then None
    else match NF.MatchNote(line)
      case Some(g) => Some(NF.ParseFromPattern(g))
      case None => FirstNote(kinds[1..], line)
  }

  /** The first comment class in `kinds` whose validator accepts the line,
      parsed with that class; a validator that raises ends the search. */
  function FirstComment(kinds: seq<Comments.CommentKind>, line: string): Option<Result<Comments.Comment>> {
    if kinds == [] then None
    else match Comments.Validate(kinds[0], line)
      case Err(e) => Some(Err(e))
      case Ok(true) => Some(Comments.FromString(kinds[0], line))
      case Ok(false) => FirstComment(kinds[1..], line)
  }

  /** `Event._identify_line`: statements, then the digit check, then notes,
      then comments, else "Unrecognized line". */
  function Classify(line: string): (r: Result<Line>)
    ensures FirstStatement(SF.Registry, line).Some? ==> r.Ok? == FirstStatement(SF.Registry, line).value.Ok?
    ensures FirstStatement(SF.Registry, line).None? && line != [] && IsDigit(line[0])
        ==> r == Err(UnrecognizedStatement)
    ensures r.Ok? && r.value.StatementLine? ==> FirstStatement(SF.Registry, line) == Some(Ok(r.value.statement))
    ensures r.Ok? && !r.value.StatementLine? ==> line == [] || !IsDigit(line[0])
  {
    match FirstStatement(SF.Registry, line)
    case Some(Err(e)) => Err(e)
    case Some(Ok(s)) => Ok(StatementLine(s))
    case None =>
      if line != [] && IsDigit(line[0]) then Err(UnrecognizedStatement)
      else NoteStage(line)
  }

  /** `_identify_line` from the note classes on. */
  function NoteStage(line: string): Result<Line> {
    match FirstNote(NF.Registry, line)
    case Some(Err(e)) => Err(e)
    case Some(Ok(n)) => Ok(NoteLine(n))
    case None => CommentStage(line)
  }

  /** `_identify_line` from the comment classes on. */
  function CommentStage(line: string): Result<Line> {
    match FirstComment(Comments.Registry, line)
    case Some(Err(e)) => Err(e)
    case Some(Ok(c)) => Ok(CommentLine(c))
    case None => Err(UnrecognizedLine)
  }

  /** `Event._identify_line`, with its three loops and early returns. */
  method IdentifyLine(line: string) returns (r: Result<Line>)
    ensures r == Classify(line)
  {
    var i := 0;
    while i < |SF.Registry|
      invariant 0 <= i <= |SF.Registry|
      invariant FirstStatement(SF.Registry, line) == FirstStatement(SF.Registry[i..], line)
    {
      var kind := SF.Registry[i];
      var m := SF.MatchStatement(kind, line);
      if m.Some? {
        var parsed := SF.ParseFromPattern(kind, m.value);
        assert FirstStatement(SF.Registry, line) == Some(parsed);
        if parsed.Err? {
          return Err(parsed.error);
        }
        return Ok(StatementLine(parsed.value));
      }
      assert SF.Registry[i..][1..] == SF.Registry[i + 1..];
      i := i + 1;
    }
    assert FirstStatement(SF.Registry, line) == None;
    if line != [] && IsDigit(line[0]) {
      return Err(UnrecognizedStatement);
    }
    i := 0;
    while i < |NF.Registry|
      invariant 0 <= i <= |NF.Registry|
      invariant FirstNote(NF.Registry, line) == FirstNote(NF.Registry[i..], line)
    {
      var m := NF.MatchNote(line);
      if m.Some? {
        var parsed := NF.ParseFromPattern(m.value);
        assert FirstNote(NF.Registry, line) == Some(parsed);
        if parsed.Err? {
          return Err(parsed.error);
        }
        return Ok(NoteLine(parsed.value));
      }
      assert NF.Registry[i..][1..] == NF.Registry[i + 1..];
      i := i + 1;
    }
    assert FirstNote(NF.Registry, line) == None;
    i := 0;
    while i < |Comments.Registry|
      invariant 0 <= i <= |Comments.Registry|
      invariant FirstComment(Comments.Registry, line) == FirstComment(Comments.Registry[i..], line)
    {
      var kind := Comments.Registry[i];
      var valid := Comments.Validate(kind, line);
      if valid.Err? {
        return Err(valid.error);
      }
      if valid.value {
        var parsed := Comments.FromString(kind, line);
        if parsed.Err? {
          return Err(parsed.error);
        }
        return Ok(CommentLine(parsed.value));
      }
      assert Comments.Registry[i..][1..] == Comments.Registry[i + 1..];
      i := i + 1;
    }
    return Err(UnrecognizedLine);
  }

  /** Of the five statement patterns at most one matches, so the first match
      in registry order is the match of the one class that matches. */
  lemma {:induction false} FirstStatementIsOnly(kinds: seq<SF.Kind>, k: SF.Kind, line: string)
    requires SF.MatchStatement(k, line).Some?
    ensures k in kinds ==> FirstStatement(kinds, line) == Some(SF.ParseFromString(k, line))
    ensures k !in kinds ==> FirstStatement(kinds, line).None?
  {
    if kinds != [] {
      if SF.MatchStatement(kinds[0], line).Some? {
        SF.MatchExclusive(kinds[0], k, line);
      } else {
        FirstStatementIsOnly(kinds[1..], k, line);
      }
    }
  }

  lemma {:induction false} NoStatementMatches(kinds: seq<SF.Kind>, line: string)
    requires forall k: SF.Kind :: SF.MatchStatement(k, line).None?
    ensures FirstStatement(kinds, line).None?
  {
    if kinds != [] {
      NoStatementMatches(kinds[1..], line);
    }
  }

  /** A line that a statement pattern matches is that statement or the error
      its parser raises (a `B` track): it never falls through to the notes or
      the comments. */
  lemma MatchedStatementDecides(k: SF.Kind, line: string)
    requires SF.MatchStatement(k, line).Some?
    ensures Classify(line).Ok? <==> SF.ParseFromString(k, line).Ok?
    ensures SF.ParseFromString(k, line).Ok? ==> Classify(line) == Ok(StatementLine(SF.ParseFromString(k, line).value))
    ensures SF.ParseFromString(k, line).Err? ==> Classify(line) == Err(InvalidTrackType)
  {
    FirstStatementIsOnly(SF.Registry, k, line);
  }

  /** A line that starts with a digit is a statement or an error. */
  lemma DigitLineIsStatement(line: string)
    requires line != [] && IsDigit(line[0])
    ensures Classify(line).Ok? ==> Classify(line).value.StatementLine?
  {
  }

  /** A printable statement's line is read back as that statement, normalized. */
  lemma PrintedStatementClassified(s: SF.Statement)
    requires SF.Printable(s)
    ensures Classify(SF.Print(s)) == Ok(StatementLine(SF.Normalized(s)))
  {
    SF.PrintRoundTrip(s);
    var k := SF.KindOf(s.transition);
    assert SF.MatchStatement(k, SF.Print(s)).Some?;
    MatchedStatementDecides(k, SF.Print(s));
  }

  /** No statement pattern matches a line that does not start with a digit. */
  lemma NoStatementWithoutDigit(line: string)
    requires line == [] || !IsDigit(line[0])
    ensures FirstStatement(SF.Registry, line).None?
  {
    forall k: SF.Kind ensures SF.MatchStatement(k, line).None? {
      if SF.MatchStatement(k, line).Some? {
        SF.MatchStartsWithDigit(k, line);
        assert false;
      }
    }
    NoStatementMatches(SF.Registry, line);
  }

  /** A line that neither a statement nor the note pattern matches, and does
      not start with a digit, is whatever the comment classes make of it. */
  lemma ClassifyAsComment(line: string)
    requires line == [] || !IsDigit(line[0])
    requires NF.MatchNote(line).None?
    ensures Classify(line) == CommentStage(line)
  {
    NoStatementWithoutDigit(line);
    assert NF.Registry == [NF.MotionMemoryKind];
    assert FirstNote(NF.Registry, line) == FirstNote([], line);
  }

  /** A line of whitespace raises IndexError: no pattern matches it and
      `split()[0]` in the comment validator has nothing to index. */
  lemma BlankLineRaises(line: string)
    requires AllSpace(line)
    ensures Classify(line) == Err(IndexOutOfRange)
  {
    assert line == [] || IsSpace(line[0]);
    if NF.MatchNote(line).Some? {
      NF.MatchStartsWithM(line);
      assert false;
    }
    ClassifyAsComment(line);
  }

  /** A printed field comment is read back as the same field comment. */
  lemma PrintedFieldCommentClassified(f: string, v: string)
    requires Comments.Printable(f, v)
    ensures Classify(Comments.Render(Comments.FieldComment(f, v))) == Ok(CommentLine(Comments.FieldComment(f, v)))
  {
    var line := Comments.Render(Comments.FieldComment(f, v));
    assert line[0] == '*';
    if NF.MatchNote(line).Some? {
      NF.MatchStartsWithM(line);
      assert false;
    }
    Comments.FieldPrintedValidates(f, v);
    Comments.TrimmedRoundTrip(f, v);
    ClassifyAsComment(line);
  }

  /** A line starting with 'M' that `StandardComment` accepts, and the note
      pattern does not, is a standard comment. */
  lemma StandardCommentLine(line: string)
    requires line != [] && line[0] == 'M' && '\n' !in line
    requires NF.MatchNote(line).None?
    ensures Classify(line) == Ok(CommentLine(Comments.StandardComment(line)))
  {
    LeadingSpacesExact(line, 0);
    assert !AllSpace(line) by { assert !IsSpace(line[0]); }
    Comments.BaseValidateFirstChar(line);
    assert Comments.FieldValidate(line) == Ok(false);
    assert Comments.StandardFromString(line) == Ok(Comments.StandardComment(line));
    var kinds := Comments.Registry;
    assert kinds == [Comments.FieldKind, Comments.StandardKind];
    assert FirstComment(kinds, line) == FirstComment(kinds[1..], line);
    assert FirstComment(kinds[1..], line) == Some(Ok(Comments.StandardComment(line)));
    ClassifyAsComment(line);
  }

  /** A printed M2 note is not read back as a note (its pattern needs
      whitespace after the timecode) but as a standard comment holding the
      printed text. */
  lemma PrintedNoteIsComment(n: NF.Note, rounded: string)
    requires NF.Printable(n) && IsToken(rounded)
    ensures Classify(NF.Print(n, rounded)) == Ok(CommentLine(Comments.StandardComment(NF.Print(n, rounded))))
  {
    NF.PrintedNoteNotMatched(n, rounded);
    PrintedNoteHasNoNewline(n, rounded);
    StandardCommentLine(NF.Print(n, rounded));
  }

  lemma PrintedNoteHasNoNewline(n: NF.Note, rounded: string)
    requires NF.Printable(n) && IsToken(rounded)
    ensures NF.Print(n, rounded) != [] && NF.Print(n, rounded)[0] == 'M' && '\n' !in NF.Print(n, rounded)
  {
    NF.LexPrint(n, rounded);
    LayoutNoLineBreak(NF.PrintedWords(n, rounded));
    assert IsLineBreak('\n');
  }

  // ---------------------------------------------------------------------
  // An event

  /** An event: its statements, notes and comments, and the FCM they share. */
  datatype Event = Event(
    statements: seq<SF.Statement>,
    notes: seq<NF.Note>,
    comments: seq<Comments.Comment>,
    fcm: FrameCounting.Fcm)

  /** The set of the statements' FCMs. */
  function FcmSet(sfs: seq<SF.Statement>): set<FrameCounting.Fcm> {
    set s | s in sfs :: SF.StatementFcm(s)
  }

  /** `Event(standard_statements, note_statements, comments)`: at least one
      statement, and exactly one FCM among them, which becomes the event's. */
  function NewEvent(sfs: seq<SF.Statement>, nfs: seq<NF.Note>, cs: seq<Comments.Comment>): (r: Result<Event>)
    ensures r.Ok? <==> sfs != []
    ensures sfs == [] ==> r == Err(NoStatements)
    ensures r.Ok? ==> r.value == Event(sfs, nfs, cs, FrameCounting.NonDropFrame)
  {
    if |sfs| == 0 then Err(NoStatements)
    else
      FcmSetOfStatements(sfs);
      var fcms := FcmSet(sfs);
      if |fcms| != 1 then Err(MismatchedFcm)
      else Ok(Event(sfs, nfs, cs, SF.StatementFcm(sfs[0])))
  }

  /** Every statement counts frames the same way, so the FCM set of a
      non-empty list of statements has one element. */
  lemma FcmSetOfStatements(sfs: seq<SF.Statement>)
    requires sfs != []
    ensures FcmSet(sfs) == {FrameCounting.NonDropFrame}
  {
    assert SF.StatementFcm(sfs[0]) in FcmSet(sfs);
  }

  /** An event as `Event(...)` leaves it: at least one statement, and the FCM
      of its statements. */
  predicate Valid(e: Event) {
    e.statements != [] && e.fcm == FrameCounting.NonDropFrame
  }

  // ---------------------------------------------------------------------
  // Reading an event from its text

  /** The lines of an event, classified in order; whitespace-only lines are
      skipped, and the first line that raises ends the reading. */
  function ClassifyAll(lines: seq<string>): (r: Result<seq<Line>>)
  {
    if lines == [] then Ok([])
    else
      var prev :- ClassifyAll(lines[..|lines| - 1]);
      var line := lines[|lines| - 1];
      if AllSpace(line) then Ok(prev)
      else
        var l :- Classify(line);
        Ok(prev + [l])
  }

  /** The lines that are not whitespace-only, in order. */
  function NonBlank(lines: seq<string>): (r: seq<string>)
    ensures |r| <= |lines|
  {
    if lines == [] then []
    else
      var line := lines[|lines| - 1];
      NonBlank(lines[..|lines| - 1]) + (if AllSpace(line) then [] else [line])
  }

  function Statements(ls: seq<Line>): (r: seq<SF.Statement>)
    ensures |r| <= |ls|
  {
    if ls == [] then []
    else Statements(ls[..|ls| - 1]) + (if ls[|ls| - 1].StatementLine? then [ls[|ls| - 1].statement] else [])
  }

  function Notes(ls: seq<Line>): (r: seq<NF.Note>)
    ensures |r| <= |ls|
  {
    if ls == [] then []
    else Notes(ls[..|ls| - 1]) + (if ls[|ls| - 1].NoteLine? then [ls[|ls| - 1].note] else [])
  }

  function CommentsOf(ls: seq<Line>): (r: seq<Comments.Comment>)
    ensures |r| <= |ls|
  {
    if ls == [] then []
    else CommentsOf(ls[..|ls| - 1]) + (if ls[|ls| - 1].CommentLine? then [ls[|ls| - 1].comment] else [])
  }

  /** `Event.from_string`: the first line that raises decides the error;
      otherwise only a text without a statement line fails, and the event
      read is a valid one. */
  function EventOf(text: string): (r: Result<Event>)
    ensures ClassifyAll(SplitLines(text)).Err? ==> r == Err(ClassifyAll(SplitLines(text)).error)
    ensures r.Err? ==> ClassifyAll(SplitLines(text)).Err? || r.error == NoStatements
    ensures r.Ok? ==> Valid(r.value)
    ensures r.Ok? ==> ClassifyAll(SplitLines(text)).Ok?
    ensures r.Ok? ==> var ls := ClassifyAll(SplitLines(text)).value;
      r.value.statements == Statements(ls) && r.value.notes == Notes(ls) && r.value.comments == CommentsOf(ls)
    ensures ClassifyAll(SplitLines(text)).Ok? && Statements(ClassifyAll(SplitLines(text)).value) == [] ==>
      r == Err(NoStatements)
  {
    var ls :- ClassifyAll(SplitLines(text));
    NewEvent(Statements(ls), Notes(ls), CommentsOf(ls))
  }

  /** Once a prefix of the lines raises, the whole reading raises the same error. */
  lemma {:induction false} ClassifyAllPrefixErr(lines: seq<string>, i: nat)
    requires i <= |lines| && ClassifyAll(lines[..i]).Err?
    ensures ClassifyAll(lines) == ClassifyAll(lines[..i])
    decreases |lines| - i
  {
    if i < |lines| {
      assert lines[..i + 1][..i] == lines[..i];
      ClassifyAllPrefixErr(lines, i + 1);
    } else {
      assert lines[..i] == lines;
    }
  }

  /** One more line: skipped when blank, else classified and appended. */
  lemma ClassifyAllStep(lines: seq<string>, i: nat, ls: seq<Line>)
    requires i < |lines| && ClassifyAll(lines[..i]) == Ok(ls)
    ensures AllSpace(lines[i]) ==> ClassifyAll(lines[..i + 1]) == Ok(ls)
    ensures !AllSpace(lines[i]) && Classify(lines[i]).Err? ==> ClassifyAll(lines[..i + 1]) == Err(Classify(lines[i]).error)
    ensures !AllSpace(lines[i]) && Classify(lines[i]).Ok? ==> ClassifyAll(lines[..i + 1]) == Ok(ls + [Classify(lines[i]).value])
  {
    assert lines[..i + 1][..i] == lines[..i];
  }

  /** A non-blank line that is read adds its reading to the end. */
  lemma ClassifyAllSnoc(lines: seq<string>, line: string, ls: seq<Line>, l: Line)
    requires ClassifyAll(lines) == Ok(ls) && !AllSpace(line) && Classify(line) == Ok(l)
    ensures ClassifyAll(lines + [line]) == Ok(ls + [l])
  {
    assert (lines + [line])[..|lines|] == lines;
  }

  /** A closing blank line adds nothing to the lines read. */
  lemma ClassifyAllBlankEnd(lines: seq<string>, blank: string)
    requires AllSpace(blank)
    ensures ClassifyAll(lines + [blank]) == ClassifyAll(lines)
  {
    assert (lines + [blank])[..|lines|] == lines;
  }

  lemma FiltersSnoc(ls: seq<Line>, l: Line)
    ensures Statements(ls + [l]) == Statements(ls) + (if l.StatementLine? then [l.statement] else [])
    ensures Notes(ls + [l]) == Notes(ls) + (if l.NoteLine? then [l.note] else [])
    ensures CommentsOf(ls + [l]) == CommentsOf(ls) + (if l.CommentLine? then [l.comment] else [])
  {
    assert (ls + [l])[..|ls|] == ls;
  }

  /** `Event.from_string`: the loop over the lines, appending each to the
      list of its kind. */
  method FromString(text: string) returns (r: Result<Event>)
    ensures r == EventOf(text)
  {
    var lines := SplitLines(text);
    var sfs: seq<SF.Statement> := [];
    var nfs: seq<NF.Note> := [];
    var cs: seq<Comments.Comment> := [];
    ghost var ls: seq<Line> := [];
    var i := 0;
    assert lines[..0] == [];
    assert ClassifyAll([]) == Ok([]);
    while i < |lines|
      invariant 0 <= i <= |lines|
      invariant ClassifyAll(lines[..i]) == Ok(ls)
      invariant sfs == Statements(ls) && nfs == Notes(ls) && cs == CommentsOf(ls)
    {
      var line := lines[i];
      ClassifyAllStep(lines, i, ls);
      if !AllSpace(line) {
        var parsed := IdentifyLine(line);
        if parsed.Err? {
          ClassifyAllPrefixErr(lines, i + 1);
          return Err(parsed.error);
        }
        var l := parsed.value;
        FiltersSnoc(ls, l);
        if l.StatementLine? {
          sfs := sfs + [l.statement];
        } else if l.NoteLine? {
          nfs := nfs + [l.note];
        } else {
          cs := cs + [l.comment];
        }
        ls := ls + [l];
      }
      i := i + 1;
    }
    assert lines[..i] == lines;
    r := NewEvent(sfs, nfs, cs);
  }

  /** Reading classifies every non-blank line, in order, and nothing else. */
  lemma {:induction false} ClassifyAllLines(lines: seq<string>)
    requires ClassifyAll(lines).Ok?
    ensures |ClassifyAll(lines).value| == |NonBlank(lines)|
    ensures forall k | 0 <= k < |NonBlank(lines)| :: Classify(NonBlank(lines)[k]) == Ok(ClassifyAll(lines).value[k])
  {
    if lines != [] {
      var init, line := lines[..|lines| - 1], lines[|lines| - 1];
      ClassifyAllLines(init);
      var prev, before := ClassifyAll(init).value, NonBlank(init);
      if AllSpace(line) {
        assert ClassifyAll(lines).value == prev;
        assert NonBlank(lines) == before + [];
      } else {
        var l := Classify(line).value;
        assert ClassifyAll(lines).value == prev + [l];
        assert NonBlank(lines) == before + [line];
        forall k | 0 <= k < |before| + 1
          ensures Classify((before + [line])[k]) == Ok((prev + [l])[k])
        {
          if k < |before| {
            assert (before + [line])[k] == before[k] && (prev + [l])[k] == prev[k];
          }
        }
      }
    }
  }

  /** Every classified line lands in exactly one of the three lists. */
  lemma {:induction false} PartitionCount(ls: seq<Line>)
    ensures |Statements(ls)| + |Notes(ls)| + |CommentsOf(ls)| == |ls|
  {
    if ls != [] {
      PartitionCount(ls[..|ls| - 1]);
    }
  }

  /** `Event.from_string` keeps every non-blank line: as many statements,
      notes and comments as there are non-blank lines. */
  lemma EventOfKeepsLines(text: string)
    requires EventOf(text).Ok?
    ensures var e := EventOf(text).value;
      |e.statements| + |e.notes| + |e.comments| == |NonBlank(SplitLines(text))|
    ensures Valid(EventOf(text).value)
  {
    var ls := ClassifyAll(SplitLines(text)).value;
    ClassifyAllLines(SplitLines(text));
    PartitionCount(ls);
  }

  /** An event of text with no statement line raises. */
  lemma EventNeedsStatement(text: string)
    requires ClassifyAll(SplitLines(text)).Ok? && Statements(ClassifyAll(SplitLines(text)).value) == []
    ensures EventOf(text) == Err(NoStatements)
  {
  }

  // ---------------------------------------------------------------------
  // What an event derives from its statements

  /** A Python set of values that hash and compare by a string key: the first
      value of each key that was added is the one kept. */
  function KeyedSet<T>(items: seq<T>, key: T -> string): map<string, T> {
    if items == [] then map[]
    else
      var m := KeyedSet(items[..|items| - 1], key);
      var x := items[|items| - 1];
      if key(x) in m then m else m[key(x) := x]
  }

  /** A keyed set holds one value for each key of the items, and that value
      is an item with that key. */
  lemma {:induction false} KeyedSetMembers<T>(items: seq<T>, key: T -> string)
    ensures forall k :: k in KeyedSet(items, key) <==> exists i | 0 <= i < |items| :: key(items[i]) == k
    ensures forall k | k in KeyedSet(items, key) ::
      key(KeyedSet(items, key)[k]) == k && exists i | 0 <= i < |items| :: items[i] == KeyedSet(items, key)[k]
  {
    if items != [] {
      var init := items[..|items| - 1];
      var m := KeyedSet(items, key);
      KeyedSetMembers(init, key);
      forall k | k in m ensures exists i | 0 <= i < |items| :: items[i] == m[k] {
        if k in KeyedSet(init, key) {
          var i :| 0 <= i < |init| && init[i] == KeyedSet(init, key)[k];
          assert items[i] == init[i];
        }
      }
      assert KeyedSet(init, key).Keys <= m.Keys;
      forall k | (exists i | 0 <= i < |items| :: key(items[i]) == k) ensures k in m {
        var i :| 0 <= i < |items| && key(items[i]) == k;
        if i < |init| {
          assert init[i] == items[i];
          assert k in KeyedSet(init, key);
        } else {
          assert items[i] == items[|items| - 1];
        }
      }
      forall k | k in m ensures exists i | 0 <= i < |items| :: key(items[i]) == k {
        if k in KeyedSet(init, key) {
          var i :| 0 <= i < |init| && key(init[i]) == k;
          assert items[i] == init[i];
        }
      }
    }
  }

  function TrackList(sfs: seq<SF.Statement>): (r: seq<Tracks.Track>)
    ensures |r| == |sfs| && forall i | 0 <= i < |sfs| :: r[i] == sfs[i].track
  {
    seq(|sfs|, i requires 0 <= i < |sfs| => sfs[i].track)
  }

  function SourceList(sfs: seq<SF.Statement>): (r: seq<Sources.SourceReel>)
    ensures |r| == |sfs| && forall i | 0 <= i < |sfs| :: r[i] == sfs[i].source
  {
    seq(|sfs|, i requires 0 <= i < |sfs| => sfs[i].source)
  }

  /** The set of the statements' tracks; tracks hash and compare by name. */
  function TracksOf(sfs: seq<SF.Statement>): map<string, Tracks.Track> {
    KeyedSet(TrackList(sfs), Tracks.Name)
  }

  /** `Event.sources`: the set of the statements' reels; reels hash and
      compare by name. */
  function SourcesOf(sfs: seq<SF.Statement>): map<string, Sources.SourceReel> {
    KeyedSet(SourceList(sfs), Sources.Name)
  }

  /** The track set holds one track for each name some statement's track has,
      and that track is one of the statements' tracks. */
  lemma TracksOfMembers(sfs: seq<SF.Statement>)
    ensures forall k :: k in TracksOf(sfs) <==> exists i | 0 <= i < |sfs| :: Tracks.Name(sfs[i].track) == k
    ensures forall k | k in TracksOf(sfs) ::
      Tracks.Name(TracksOf(sfs)[k]) == k && exists i | 0 <= i < |sfs| :: sfs[i].track == TracksOf(sfs)[k]
  {
    KeyedSetMembers(TrackList(sfs), Tracks.Name);
  }

  /** The same for the reels. */
  lemma SourcesOfMembers(sfs: seq<SF.Statement>)
    ensures forall k :: k in SourcesOf(sfs) <==> exists i | 0 <= i < |sfs| :: Sources.Name(sfs[i].source) == k
    ensures forall k | k in SourcesOf(sfs) ::
      Sources.Name(SourcesOf(sfs)[k]) == k && exists i | 0 <= i < |sfs| :: sfs[i].source == SourcesOf(sfs)[k]
  {
    KeyedSetMembers(SourceList(sfs), Sources.Name);
  }

  /** `Event.tracks`: the loop adding each statement's track to a set. */
  method EventTracks(e: Event) returns (r: map<string, Tracks.Track>)
    ensures r == TracksOf(e.statements)
  {
    var sfs := e.statements;
    ghost var ts := TrackList(sfs);
    r := map[];
    var i := 0;
    assert ts[..0] == [];
    while i < |sfs|
      invariant 0 <= i <= |sfs|
      invariant r == KeyedSet(ts[..i], Tracks.Name)
    {
      var t := sfs[i].track;
      assert ts[..i + 1][..i] == ts[..i];
      if Tracks.Name(t) !in r {
        r := r[Tracks.Name(t) := t];
      }
      i := i + 1;
    }
    assert ts[..i] == ts;
  }

  /** `Event.reel_names`. */
  function ReelNames(e: Event): set<string> {
    set s | s in e.statements :: SF.ReelName(s)
  }

  /** The reel names are the names of the event's sources. */
  lemma ReelNamesAreSourceNames(e: Event)
    ensures ReelNames(e) == SourcesOf(e.statements).Keys
  {
    SourcesOfMembers(e.statements);
    forall k | k in ReelNames(e) ensures k in SourcesOf(e.statements) {
      var s :| s in e.statements && SF.ReelName(s) == k;
      var i :| 0 <= i < |e.statements| && e.statements[i] == s;
    }
    forall k | k in SourcesOf(e.statements) ensures k in ReelNames(e) {
      var i :| 0 <= i < |e.statements| && Sources.Name(e.statements[i].source) == k;
      assert SF.ReelName(e.statements[i]) == k;
    }
  }

  /** `Event.uses_source`: membership in the source set, that is, by name. */
  predicate UsesSource(e: Event, source: Sources.SourceReel) {
    Sources.Name(source) in SourcesOf(e.statements)
  }

  /** An event uses a reel exactly when one of its statements has a reel of
      the same name. */
  lemma UsesSourceIff(e: Event, source: Sources.SourceReel)
    ensures UsesSource(e, source) <==>
      exists i | 0 <= i < |e.statements| :: Sources.SameReel(e.statements[i].source, source)
  {
    SourcesOfMembers(e.statements);
  }

  /** The earliest record start among the statements (`min`). */
  function MinRecordStart(sfs: seq<SF.Statement>): Timecode
    requires sfs != []
  {
    if |sfs| == 1 then sfs[0].timecodeRecord.start
    else Min(MinRecordStart(sfs[..|sfs| - 1]), sfs[|sfs| - 1].timecodeRecord.start)
  }

  /** The latest record end among the statements (`max`). */
  function MaxRecordEnd(sfs: seq<SF.Statement>): Timecode
    requires sfs != []
  {
    if |sfs| == 1 then sfs[0].timecodeRecord.end
    else Max(MaxRecordEnd(sfs[..|sfs| - 1]), sfs[|sfs| - 1].timecodeRecord.end)
  }

  /** `Event.timecode_extents`: the range from the earliest record start to
      the latest record end. It contains every statement's record range, and
      both of its ends are attained. */
  function TimecodeExtents(e: Event): (r: TimecodeRange)
    requires Valid(e)
    ensures forall i | 0 <= i < |e.statements| ::
      Le(r.start, e.statements[i].timecodeRecord.start) && Le(e.statements[i].timecodeRecord.end, r.end)
    ensures exists i | 0 <= i < |e.statements| :: r.start == e.statements[i].timecodeRecord.start
    ensures exists i | 0 <= i < |e.statements| :: r.end == e.statements[i].timecodeRecord.end
  {
    MinRecordStartIsLeast(e.statements);
    MaxRecordEndIsGreatest(e.statements);
    TimecodeRange(MinRecordStart(e.statements), MaxRecordEnd(e.statements))
  }

  lemma {:induction false} MinRecordStartIsLeast(sfs: seq<SF.Statement>)
    requires sfs != []
    ensures forall i | 0 <= i < |sfs| :: Le(MinRecordStart(sfs), sfs[i].timecodeRecord.start)
    ensures exists i | 0 <= i < |sfs| :: MinRecordStart(sfs) == sfs[i].timecodeRecord.start
  {
    if |sfs| == 1 {
      assert MinRecordStart(sfs) == sfs[0].timecodeRecord.start;
    } else {
      var init := sfs[..|sfs| - 1];
      MinRecordStartIsLeast(init);
      var j :| 0 <= j < |init| && MinRecordStart(init) == init[j].timecodeRecord.start;
      assert sfs[j] == init[j];
      var w := if Le(MinRecordStart(init), sfs[|sfs| - 1].timecodeRecord.start) then j else |sfs| - 1;
      assert MinRecordStart(sfs) == sfs[w].timecodeRecord.start;
      forall i | 0 <= i < |sfs| ensures Le(MinRecordStart(sfs), sfs[i].timecodeRecord.start) {
        if i < |init| {
          assert sfs[i] == init[i];
        }
      }
    }
  }

  lemma {:induction false} MaxRecordEndIsGreatest(sfs: seq<SF.Statement>)
    requires sfs != []
    ensures forall i | 0 <= i < |sfs| :: Le(sfs[i].timecodeRecord.end, MaxRecordEnd(sfs))
    ensures exists i | 0 <= i < |sfs| :: MaxRecordEnd(sfs) == sfs[i].timecodeRecord.end
  {
    if |sfs| == 1 {
      assert MaxRecordEnd(sfs) == sfs[0].timecodeRecord.end;
    } else {
      var init := sfs[..|sfs| - 1];
      MaxRecordEndIsGreatest(init);
      var j :| 0 <= j < |init| && MaxRecordEnd(init) == init[j].timecodeRecord.end;
      assert sfs[j] == init[j];
      var w := if Le(MaxRecordEnd(init), sfs[|sfs| - 1].timecodeRecord.end) then |sfs| - 1 else j;
      assert MaxRecordEnd(sfs) == sfs[w].timecodeRecord.end;
      forall i | 0 <= i < |sfs| ensures Le(sfs[i].timecodeRecord.end, MaxRecordEnd(sfs)) {
        if i < |init| {
          assert sfs[i] == init[i];
        }
      }
    }
  }

  // ---------------------------------------------------------------------
  // Printing an event

  function StatementTexts(sfs: seq<SF.Statement>): (r: seq<string>)
    ensures |r| == |sfs| && forall i | 0 <= i < |sfs| :: r[i] == SF.Print(sfs[i])
  {
    seq(|sfs|, i requires 0 <= i < |sfs| => SF.Print(sfs[i]))
  }

  /** The notes' lines; `formatSpeed` gives the printed form of a speed. */
  function NoteTexts(nfs: seq<NF.Note>, formatSpeed: string -> string): (r: seq<string>)
    ensures |r| == |nfs| && forall i | 0 <= i < |nfs| :: r[i] == NF.Print(nfs[i], formatSpeed(nfs[i].speed))
  {
    seq(|nfs|, i requires 0 <= i < |nfs| => NF.Print(nfs[i], formatSpeed(nfs[i].speed)))
  }

  function CommentTexts(cs: seq<Comments.Comment>): (r: seq<string>)
    ensures |r| == |cs| && forall i | 0 <= i < |cs| :: r[i] == Comments.Render(cs[i])
  {
    seq(|cs|, i requires 0 <= i < |cs| => Comments.Render(cs[i]))
  }

  /** `str(event)`: the statements, the notes and the comments, each group
      joined by newlines, and the three groups joined by newlines; an event
      of statements alone ends with two newlines. */
  function Render(e: Event, formatSpeed: string -> string): (r: string)
    ensures e.notes == [] && e.comments == [] ==> r == JoinLines(StatementTexts(e.statements)) + "\n\n"
  {
    var a, b, c := JoinLines(StatementTexts(e.statements)), JoinLines(NoteTexts(e.notes, formatSpeed)), JoinLines(CommentTexts(e.comments));
    JoinThree(a, b, c);
    EmptyGroups(a);
    JoinLines([a, b, c])
  }

  lemma JoinThree(a: string, b: string, c: string)
    ensures JoinLines([a, b, c]) == a + "\n" + b + "\n" + c
  {
    assert [a, b, c][1..] == [b, c];
    assert [b, c][1..] == [c];
    assert JoinLines([b, c]) == b + "\n" + c;
  }

  /** Both separators are there even when a group is empty. */
  lemma RenderSeparators(e: Event, formatSpeed: string -> string)
    ensures Render(e, formatSpeed)
         == JoinLines(StatementTexts(e.statements)) + "\n" + JoinLines(NoteTexts(e.notes, formatSpeed))
            + "\n" + JoinLines(CommentTexts(e.comments))
    ensures e.notes == [] && e.comments == [] ==>
      Render(e, formatSpeed) == JoinLines(StatementTexts(e.statements)) + "\n\n"
  {
    var a, b, c := JoinLines(StatementTexts(e.statements)), JoinLines(NoteTexts(e.notes, formatSpeed)), JoinLines(CommentTexts(e.comments));
    JoinThree(a, b, c);
    if e.notes == [] && e.comments == [] {
      assert b == "" && c == "";
      EmptyGroups(a);
    }
  }

  lemma EmptyGroups(a: string)
    ensures a + "\n" + "" + "\n" + "" == a + "\n\n"
  {
  }

  /** A printable statement's line is one non-blank line. */
  lemma PrintedStatementIsLine(s: SF.Statement)
    requires SF.Printable(s)
    ensures NoLineBreak(SF.Print(s)) && !AllSpace(SF.Print(s))
  {
    SF.LexPrint(s);
    LayoutNoLineBreak(SF.PrintedWords(s));
    LexAllSpace(SF.Print(s));
    assert SF.PrintedWords(s) != [];
  }

  function NormalizedAll(sfs: seq<SF.Statement>): (r: seq<SF.Statement>)
    ensures |r| == |sfs| && forall i | 0 <= i < |sfs| :: r[i] == SF.Normalized(sfs[i])
  {
    seq(|sfs|, i requires 0 <= i < |sfs| => SF.Normalized(sfs[i]))
  }

  function StatementLines(sfs: seq<SF.Statement>): (r: seq<Line>)
    ensures |r| == |sfs| && forall i | 0 <= i < |sfs| :: r[i] == StatementLine(SF.Normalized(sfs[i]))
  {
    seq(|sfs|, i requires 0 <= i < |sfs| => StatementLine(SF.Normalized(sfs[i])))
  }

  lemma SnocLast<T>(s: seq<T>)
    requires s != []
    ensures s[..|s| - 1] + [s[|s| - 1]] == s
  {
  }

  lemma EmptyAppend<T>(s: seq<T>)
    ensures [] + s == s
  {
  }

  lemma ConsFirst<T>(s: seq<T>)
    requires s != []
    ensures [s[0]] + s[1..] == s
  {
  }

  /** Lines each read as one given line are read as those lines together. */
  lemma {:induction false} ClassifyAllEach(texts: seq<string>, ls: seq<Line>)
    requires |texts| == |ls|
    requires forall i | 0 <= i < |texts| :: !AllSpace(texts[i]) && Classify(texts[i]) == Ok(ls[i])
    ensures ClassifyAll(texts) == Ok(ls)
  {
    if texts != [] {
      var n := |texts| - 1;
      var pt, pl := texts[..n], ls[..n];
      assert forall i | 0 <= i < |pt| :: !AllSpace(pt[i]) && Classify(pt[i]) == Ok(pl[i]) by {
        forall i | 0 <= i < |pt| ensures !AllSpace(pt[i]) && Classify(pt[i]) == Ok(pl[i]) {
          assert pt[i] == texts[i] && pl[i] == ls[i];
        }
      }
      ClassifyAllEach(pt, pl);
      ClassifyAllSnoc(pt, texts[n], pl, ls[n]);
      SnocLast(texts);
      SnocLast(ls);
    }
  }

  /** Printed statement lines are read back one statement each. */
  lemma ClassifyPrintedStatements(sfs: seq<SF.Statement>)
    requires forall i | 0 <= i < |sfs| :: SF.Printable(sfs[i])
    ensures ClassifyAll(StatementTexts(sfs)) == Ok(StatementLines(sfs))
  {
    var texts, ls := StatementTexts(sfs), StatementLines(sfs);
    forall i | 0 <= i < |texts| ensures !AllSpace(texts[i]) && Classify(texts[i]) == Ok(ls[i]) {
      PrintedStatementIsLine(sfs[i]);
      PrintedStatementClassified(sfs[i]);
    }
    ClassifyAllEach(texts, ls);
  }

  lemma StatementLinesSnoc(sfs: seq<SF.Statement>)
    requires sfs != []
    ensures StatementLines(sfs) == StatementLines(sfs[..|sfs| - 1]) + [StatementLine(SF.Normalized(sfs[|sfs| - 1]))]
    ensures NormalizedAll(sfs) == NormalizedAll(sfs[..|sfs| - 1]) + [SF.Normalized(sfs[|sfs| - 1])]
  {
  }

  /** Lines that are all statements sort into the statement list alone. */
  lemma {:induction false} FiltersOfStatementLines(sfs: seq<SF.Statement>)
    ensures Statements(StatementLines(sfs)) == NormalizedAll(sfs)
    ensures Notes(StatementLines(sfs)) == [] && CommentsOf(StatementLines(sfs)) == []
  {
    if sfs != [] {
      var n := |sfs| - 1;
      FiltersOfStatementLines(sfs[..n]);
      assert StatementLines(sfs)[..n] == StatementLines(sfs[..n]);
      StatementLinesSnoc(sfs);
    }
  }

  /** The lines of a statement-only event's text: one per statement, and a
      last empty one from the closing blank line. */
  lemma RenderLines(e: Event, formatSpeed: string -> string)
    requires Valid(e) && e.notes == [] && e.comments == []
    requires forall i | 0 <= i < |e.statements| :: SF.Printable(e.statements[i])
    ensures SplitLines(Render(e, formatSpeed)) == StatementTexts(e.statements) + [""]
  {
    var texts := StatementTexts(e.statements);
    RenderSeparators(e, formatSpeed);
    forall i | 0 <= i < |texts| ensures NoLineBreak(texts[i]) {
      PrintedStatementIsLine(e.statements[i]);
    }
    SplitJoinLinesBlank(texts);
  }

  /** An event of printable statements and nothing else is read back from its
      printed text as the same event, each statement normalized. */
  lemma RenderRoundTrip(e: Event, formatSpeed: string -> string)
    requires Valid(e) && e.notes == [] && e.comments == []
    requires forall i | 0 <= i < |e.statements| :: SF.Printable(e.statements[i])
    ensures EventOf(Render(e, formatSpeed)) == Ok(Event(NormalizedAll(e.statements), [], [], FrameCounting.NonDropFrame))
  {
    var texts := StatementTexts(e.statements);
    RenderLines(e, formatSpeed);
    ClassifyPrintedStatements(e.statements);
    ClassifyAllBlankEnd(texts, "");
    FiltersOfStatementLines(e.statements);
    FcmSetOfStatements(NormalizedAll(e.statements));
  }

  /** Printed statement lines joined by newlines split back into them. */
  lemma StatementTextsSplit(sfs: seq<SF.Statement>)
    requires sfs != []
    requires forall i | 0 <= i < |sfs| :: SF.Printable(sfs[i])
    ensures SplitLines(JoinLines(StatementTexts(sfs))) == StatementTexts(sfs)
  {
    var texts := StatementTexts(sfs);
    forall i | 0 <= i < |texts| ensures NoLineBreak(texts[i]) {
      PrintedStatementIsLine(sfs[i]);
    }
    PrintedStatementIsLine(sfs[|sfs| - 1]);
    SplitJoinLinesEnd(texts);
  }

  /** The statements of an event, printed one per line, read back as one
      event of the normalized statements. */
  lemma StatementTextsRead(sfs: seq<SF.Statement>)
    requires sfs != []
    requires forall i | 0 <= i < |sfs| :: SF.Printable(sfs[i])
    ensures EventOf(JoinLines(StatementTexts(sfs))) == Ok(Event(NormalizedAll(sfs), [], [], FrameCounting.NonDropFrame))
  {
    StatementTextsSplit(sfs);
    ClassifyPrintedStatements(sfs);
    FiltersOfStatementLines(sfs);
    FcmSetOfStatements(NormalizedAll(sfs));
  }
}
