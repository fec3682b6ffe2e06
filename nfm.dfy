/** Note form statements (edl/nfm.py): the motion memory (M2) respeed note,
    its recogniser, parser and printer. The speed is a `float` in Python;
    here it is the literal it was read from, and the printed form of the
    rounded speed is a parameter of the printer. */
module NoteForm {
  import opened Wrappers
  import opened Text
  import Sources
  import opened Timecodes

  /** The note classes in the order `all_statement_types` yields them: M2 is
      the only subclass. */
  datatype NoteKind = MotionMemoryKind

  const Registry: seq<NoteKind> := [MotionMemoryKind]

  /** A motion memory note: source reel, speed literal and source start. */
  datatype Note = Note(source: Sources.SourceReel, speed: string, timecodeStart: Timecode)

  /** `MotionMemoryNoteFormStatement.reel_name`. */
  function ReelName(n: Note): string {
    Sources.Name(n.source)
  }

  // ---------------------------------------------------------------------
  // Recognising a line

  /** A character of the speed group `[\+\-\.0-9]`. */
  predicate IsSpeedChar(c: char) {
    c == '+' || c == '-' || c == '.' || IsDigit(c)
  }

  predicate IsSpeedToken(t: string) {
    t != [] && forall i | 0 <= i < |t| :: IsSpeedChar(t[i])
  }

  /** The groups of a `PAT_NOTE` match that the parser reads. */
  datatype NoteGroups = NoteGroups(reelName: string, speed: string, tcSrcStart: string)

  /** `PAT_NOTE.match` over the tokens of a line: `M2` at column 0, any reel
      token, a speed token, a timecode token, and then at least one more
      whitespace character; whatever follows is not looked at. */
  function MatchWords(ws: seq<Word>, trailing: nat): (r: Option<NoteGroups>)
    requires WellSpaced(ws)
    ensures r.Some? <==>
      && |ws| >= 4 && ws[0].gap == 0 && EqualsIgnoringCase(ws[0].text, "M2")
      && IsSpeedToken(ws[2].text) && IsTimecodeToken(ws[3].text)
      && (|ws| > 4 || trailing > 0)
    ensures r.Some? ==> r.value == NoteGroups(ws[1].text, ws[2].text, ws[3].text)
  {
    if && |ws| >= 4 && ws[0].gap == 0 && EqualsIgnoringCase(ws[0].text, "M2")
       && IsSpeedToken(ws[2].text) && IsTimecodeToken(ws[3].text)
       && (|ws| > 4 || trailing > 0)
    then Some(NoteGroups(ws[1].text, ws[2].text, ws[3].text))
    else None
  }

  function MatchNote(line: string): (r: Option<NoteGroups>)
    ensures r.Some? ==> IsToken(r.value.reelName) && IsSpeedToken(r.value.speed)
    ensures r.Some? ==> IsTimecodeToken(r.value.tcSrcStart)
  {
    var l := Lex(line);
    MatchWords(l.words, l.trailing)
  }

  /** A line the pattern accepts starts with `M` or `m`, so never with a digit. */
  lemma MatchStartsWithM(line: string)
    requires MatchNote(line).Some?
    ensures line != [] && (line[0] == 'M' || line[0] == 'm')
  {
    var ws := Lex(line).words;
    LexAllSpace(line);
    assert Split(line)[0] == ws[0].text;
    assert MatchesIgnoringCase(ws[0].text[0], 'M');
  }

  // ---------------------------------------------------------------------
  // Parsing

  /** A speed literal without its optional leading sign. */
  function Unsigned(t: string): (body: string)
    ensures t != [] && (t[0] == '+' || t[0] == '-') ==> t == [t[0]] + body
    ensures t == [] || (t[0] != '+' && t[0] != '-') ==> body == t
  {
    if t != [] && (t[0] == '+' || t[0] == '-') then t[1..] else t
  }

  /** Digits with at most one '.', and at least one digit. */
  predicate IsUnsignedFloat(body: string) {
    && (forall i | 0 <= i < |body| :: IsDigit(body[i]) || body[i] == '.')
    && (forall i, j | 0 <= i < j < |body| :: body[i] == '.' ==> body[j] != '.')
    && (exists i | 0 <= i < |body| :: IsDigit(body[i]))
  }

  /** The strings over `[\+\-\.0-9]` that `float()` accepts: an optional
      sign, then digits with at most one '.', and at least one digit. */
  predicate IsFloatLiteral(t: string) {
    IsUnsignedFloat(Unsigned(t))
  }

  /** `MotionMemoryNoteFormStatement(reel_name, speed, tc_start)`: the reel
      goes through `SourceReel.from_string`, which raises unless it names a
      reel; the speed is already a number. */
  function New(reelName: string, speed: string, start: Timecode): (r: Result<Note>)
    ensures r.Ok? <==> Sources.FromString(reelName).Ok?
    ensures r.Err? ==> r.error == ReelNotRecognized
    ensures r.Ok? ==> r.value.speed == speed && r.value.timecodeStart == start
    ensures r.Ok? ==> UpperStr(ReelName(r.value)) == UpperStr(reelName) && Sources.Canonical(r.value.source)
  {
    var source :- Sources.FromString(reelName);
    Sources.FromStringNames(reelName);
    Sources.FromStringIdempotent(reelName);
    Ok(Note(source, speed, start))
  }

  /** `parse_from_pattern`: `float()` on the speed raises first, then the
      timecode and the constructor, which accept every matched group. */
  function ParseFromPattern(g: NoteGroups): (r: Result<Note>)
    requires IsToken(g.reelName) && IsTimecodeToken(g.tcSrcStart)
    ensures r.Ok? <==> IsFloatLiteral(g.speed)
    ensures r.Err? ==> r.error == InvalidFloatLiteral
    ensures r.Ok? ==> r.value.speed == g.speed && Format(r.value.timecodeStart) == g.tcSrcStart
    ensures r.Ok? ==> Sources.Canonical(r.value.source) && UpperStr(ReelName(r.value)) == UpperStr(g.reelName)
  {
    if !IsFloatLiteral(g.speed) then Err(InvalidFloatLiteral)
    else
      FormatParse(g.tcSrcStart);
      New(g.reelName, g.speed, Parse(g.tcSrcStart))
  }

  /** Matching and parsing a line: `None` when the pattern does not match. */
  function ParseLine(line: string): (r: Option<Result<Note>>)
    ensures r.None? <==> MatchNote(line).None?
    ensures r.Some? ==> line != [] && (line[0] == 'M' || line[0] == 'm')
    ensures r.Some? && r.value.Ok? ==> Sources.Canonical(r.value.value.source) && IsFloatLiteral(r.value.value.speed)
    ensures r.Some? && r.value.Err? ==> r.value.error == InvalidFloatLiteral
    ensures r.Some? ==> r.value == ParseFromPattern(MatchNote(line).value)
  {
    match MatchNote(line)
    case None => None
    case Some(g) =>
      MatchStartsWithM(line);
      Some(ParseFromPattern(g))
  }

  // ---------------------------------------------------------------------
  // Printing

  /** `str(note)`. `rounded` is `str(round(speed, 1)).zfill(...)`, which is
      float formatting and so a parameter here; it is right-justified to 6.
      The line is its four words laid out with the padding as their gaps:
      "M2", five spaces, the reel left-justified to 129, two spaces, the
      speed right-justified to 6, two spaces, the timecode, and nothing
      after it. */
  function Print(n: Note, rounded: string): (r: string)
    ensures r == Layout(PrintedWords(n, rounded))
  {
    var reel, tc := ReelName(n), Format(n.timecodeStart);
    assert LJust(reel, 129) == reel + Spaces(ReelPad(n));
    assert RJust(rounded, 6) == Spaces(SpeedPad(rounded)) + rounded;
    PrintRegroup(reel, ReelPad(n), rounded, SpeedPad(rounded), tc);
    LayoutFourWords(0, "M2", 5, reel, 2 + ReelPad(n) + SpeedPad(rounded), rounded, 2, tc);
    "M2     " + LJust(reel, 129) + "  " + RJust(rounded, 6) + "  " + tc
  }

  /** A note is printed with its reel name as one token. */
  predicate Printable(n: Note) {
    Sources.Canonical(n.source)
  }

  function ReelPad(n: Note): nat {
    var r := ReelName(n);
    if |r| < 129 then 129 - |r| else 0
  }

  function SpeedPad(rounded: string): nat {
    if |rounded| < 6 then 6 - |rounded| else 0
  }

  /** The tokens of a printed note. */
  function PrintedWords(n: Note, rounded: string): seq<Word> {
    [Word(0, "M2"), Word(5, ReelName(n)), Word(2 + ReelPad(n) + SpeedPad(rounded), rounded), Word(2, Format(n.timecodeStart))]
  }

  lemma LayoutFourWords(g0: nat, a: string, g1: nat, b: string, g2: nat, c: string, g3: nat, d: string)
    ensures Layout([Word(g0, a), Word(g1, b), Word(g2, c), Word(g3, d)])
         == Spaces(g0) + a + Spaces(g1) + b + Spaces(g2) + c + Spaces(g3) + d
  {
    var ws := [Word(g1, b), Word(g2, c), Word(g3, d)];
    calc {
      Layout([Word(g0, a), Word(g1, b), Word(g2, c), Word(g3, d)]);
      { assert [Word(g0, a), Word(g1, b), Word(g2, c), Word(g3, d)] == [Word(g0, a)] + ws; }
      Layout([Word(g0, a)] + ws);
      { LayoutCons(Word(g0, a), ws); }
      Spaces(g0) + a + Layout(ws);
      { LayoutThree(g1, b, g2, c, g3, d); }
      Spaces(g0) + a + (Spaces(g1) + b + Spaces(g2) + c + Spaces(g3) + d);
      { Assoc7(Spaces(g0) + a, Spaces(g1), b, Spaces(g2), c, Spaces(g3), d); }
      Spaces(g0) + a + Spaces(g1) + b + Spaces(g2) + c + Spaces(g3) + d;
    }
  }

  /** The printed line regrouped as whitespace runs and tokens. */
  lemma PrintRegroup(reel: string, p: nat, rounded: string, q: nat, tc: string)
    ensures "M2     " + (reel + Spaces(p)) + "  " + (Spaces(q) + rounded) + "  " + tc
         == Spaces(0) + "M2" + Spaces(5) + reel + Spaces(2 + p + q) + rounded + Spaces(2) + tc
  {
    assert "M2     " == Spaces(0) + "M2" + Spaces(5);
    assert "  " == Spaces(2);
    SpacesAdd(p, 2);
    SpacesAdd(p + 2, q);
  }

  /** Splitting a printed note gives its four fields: "M2", the reel name,
      the speed and the timecode, and no whitespace after the timecode. */
  lemma LexPrint(n: Note, rounded: string)
    requires Printable(n) && IsToken(rounded)
    ensures Lex(Print(n, rounded)) == Lexed(PrintedWords(n, rounded), 0)
  {
    var ws := PrintedWords(n, rounded);
    PrintedWordsWellSpaced(n, rounded);
    LexLayout(ws, 0);
    assert Layout(ws) + Spaces(0) == Layout(ws);
  }

  lemma PrintedWordsWellSpaced(n: Note, rounded: string)
    requires Printable(n) && IsToken(rounded)
    ensures WellSpaced(PrintedWords(n, rounded))
  {
    Sources.FromStringIdempotent(Sources.Name(n.source));
    TimecodeTokenIsToken(Format(n.timecodeStart));
  }

  /** A printed note ends with its timecode, and `PAT_NOTE` requires
      whitespace after the timecode, so the note's own pattern rejects what
      `str(note)` prints. */
  lemma PrintedNoteNotMatched(n: Note, rounded: string)
    requires Printable(n) && IsToken(rounded)
    ensures MatchNote(Print(n, rounded)).None?
    ensures ParseLine(Print(n, rounded)).None?
  {
    LexPrint(n, rounded);
  }

  /** With any whitespace after it, a printed note is recognised and parses
      back to the same reel, speed and source start, when the printed speed
      is a float literal. */
  lemma PaddedPrintRoundTrip(n: Note, rounded: string, k: nat)
    requires Printable(n) && IsFloatLiteral(rounded) && IsSpeedToken(rounded)
    ensures MatchNote(Print(n, rounded) + Spaces(k + 1))
         == Some(NoteGroups(ReelName(n), rounded, Format(n.timecodeStart)))
    ensures ParseLine(Print(n, rounded) + Spaces(k + 1)) == Some(Ok(Note(n.source, rounded, n.timecodeStart)))
  {
    MatchPaddedPrint(n, rounded, k);
    Sources.FromStringIdempotent(Sources.Name(n.source));
    ParsePrintedGroups(n, rounded);
  }

  lemma MatchPaddedPrint(n: Note, rounded: string, k: nat)
    requires Printable(n) && IsSpeedToken(rounded)
    ensures MatchNote(Print(n, rounded) + Spaces(k + 1))
         == Some(NoteGroups(ReelName(n), rounded, Format(n.timecodeStart)))
  {
    LexPaddedPrint(n, rounded, k);
    EqualsIgnoringCaseSelf("M2");
  }

  lemma LexPaddedPrint(n: Note, rounded: string, k: nat)
    requires Printable(n) && IsSpeedToken(rounded)
    ensures Lex(Print(n, rounded) + Spaces(k + 1)) == Lexed(PrintedWords(n, rounded), k + 1)
  {
    assert IsToken(rounded) by {
      forall i | 0 <= i < |rounded| ensures !IsSpace(rounded[i]) {
        assert IsSpeedChar(rounded[i]);
      }
    }
    PrintedWordsWellSpaced(n, rounded);
    LexLayout(PrintedWords(n, rounded), k + 1);
  }

  lemma ParsePrintedGroups(n: Note, rounded: string)
    requires Printable(n) && IsToken(ReelName(n)) && IsFloatLiteral(rounded)
    ensures ParseFromPattern(NoteGroups(ReelName(n), rounded, Format(n.timecodeStart)))
      == Ok(Note(n.source, rounded, n.timecodeStart))
  {
    ParseFormat(n.timecodeStart);
  }

  /** A printed note with speed "1.0": the reel name pads to 129 columns. */
  lemma PrintExample()
    ensures Print(Note(Sources.Tape("A001"), "1.0", Timecode(1, 0, 0, 0)), "1.0")
         == "M2     A001" + Spaces(125) + "  " + "   1.0" + "  " + "01:00:00:00"
  {
    var n := Note(Sources.Tape("A001"), "1.0", Timecode(1, 0, 0, 0));
    assert ReelName(n) == "A001";
    assert LJust("A001", 129) == "A001" + Spaces(125);
    assert RJust("1.0", 6) == "   1.0" by {
      assert Spaces(3) == "   ";
    }
    assert Format(Timecode(1, 0, 0, 0)) == "01:00:00:00";
    Assoc3("M2     ", "A001", Spaces(125));
    assert "M2     " + "A001" == "M2     A001";
  }

  /** Speed tokens `float()` accepts: a sign, a missing integer or fraction
      part and leading zeros are all allowed. */
  lemma FloatLiteralAccepted()
    ensures IsFloatLiteral("1.5") && IsFloatLiteral("-.5") && IsFloatLiteral("+3.") && IsFloatLiteral("030.0")
  {
    assert IsDigit("1.5"[0]);
    assert Unsigned("-.5") == ".5" && IsDigit(".5"[1]);
    assert Unsigned("+3.") == "3." && IsDigit("3."[0]);
    assert IsDigit("030.0"[0]);
  }

  /** Speed tokens over the same characters that `float()` rejects: two
      points, two signs, no digit, or a sign after the digits. */
  lemma FloatLiteralRejected()
    ensures !IsFloatLiteral("1.2.3") && !IsFloatLiteral("--1") && !IsFloatLiteral(".") && !IsFloatLiteral("+")
    ensures !IsFloatLiteral("1-")
  {
    assert "1.2.3"[1] == '.' && "1.2.3"[3] == '.';
    assert Unsigned("--1") == "-1" && "-1"[0] == '-';
    assert Unsigned(".") == "." && !IsDigit("."[0]);
    assert Unsigned("+") == "";
    assert "1-"[1] == '-';
  }
}
