/** Standard form statements (edl/sfm.py): the five edit lines of a CMX 3600
    event, their recognisers, parsers and printers. A line is
      F1 event number, F2 reel, F3 track, F4/F5 transition, F6-F9 timecodes.
    Each `PAT_EVENT` is a run of whitespace-separated fields, so it is matched
    here over the tokens of the line (`Text.Lex`). */
module StandardForm {
  import opened Wrappers
  import opened Text
  import Tracks
  import Sources
  import opened Timecodes
  import FrameCounting

  /** The statement classes, in the order `all_statement_types` yields them. */
  datatype Kind = CutKind | DissolveKind | WipeKind | KeyForegroundKind | KeyBackgroundKind

  const Registry: seq<Kind> := [CutKind, DissolveKind, WipeKind, KeyForegroundKind, KeyBackgroundKind]

  /** The fields that differ between the five classes. */
  datatype Transition =
    | Cut
    | Dissolve(dissolveLength: nat)
    | Wipe(wipeId: nat, wipeLength: nat)
    | KeyForeground(dissolveLength: nat)
    | KeyBackground(hasFadeCondition: bool)

  function KindOf(t: Transition): Kind {
    match t
    case Cut => CutKind
    case Dissolve(_) => DissolveKind
    case Wipe(_, _) => WipeKind
    case KeyForeground(_) => KeyForegroundKind
    case KeyBackground(_) => KeyBackgroundKind
  }

  /** A statement with one track, as every parsed statement has. */
  datatype Statement = Statement(
    eventNumber: Option<nat>,
    source: Sources.SourceReel,
    track: Tracks.Track,
    timecodeSource: TimecodeRange,
    timecodeRecord: TimecodeRange,
    transition: Transition)

  /** `StandardFormStatement.reel_name`. */
  function ReelName(s: Statement): string {
    Sources.Name(s.source)
  }

  /** `StandardFormStatement.fcm`: the same for every statement. */
  function StatementFcm(s: Statement): FrameCounting.Fcm {
    FrameCounting.NonDropFrame
  }

  // ---------------------------------------------------------------------
  // Recognising a line

  /** `A\d*|B|V` under `re.I`, as a whole token. */
  predicate IsTrackToken(t: string) {
    && |t| >= 1
    && ((MatchesIgnoringCase(t[0], 'A') && AllDigits(t[1..]))
        || (|t| == 1 && (MatchesIgnoringCase(t[0], 'B') || MatchesIgnoringCase(t[0], 'V'))))
  }

  /** Four `\d{2}:\d{2}:\d{2}:\d{2}` tokens. */
  predicate AreTimecodes(ws: seq<Word>) {
    |ws| == 4 && forall i | 0 <= i < 4 :: IsTimecodeToken(ws[i].text)
  }

  /** The groups of a `PAT_EVENT` match that the parsers read; `wipeId` is
      the digits after `W`, and fields a class does not have are empty. */
  datatype Groups = Groups(
    eventNumber: string,
    reelName: string,
    trackType: string,
    wipeId: string,
    eventDuration: string,
    fadeCondition: bool,
    tcSrcIn: string,
    tcSrcOut: string,
    tcRecIn: string,
    tcRecOut: string)

  /** What a match of each pattern guarantees about its groups. */
  predicate GroupsShape(kind: Kind, g: Groups) {
    && IsNumeric(g.eventNumber)
    && IsToken(g.reelName)
    && IsTrackToken(g.trackType)
    && (kind == WipeKind <==> g.wipeId != []) && AllDigits(g.wipeId)
    && (kind == DissolveKind || kind == WipeKind || kind == KeyForegroundKind <==> g.eventDuration != [])
    && AllDigits(g.eventDuration)
    && (g.fadeCondition ==> kind == KeyBackgroundKind)
    && IsTimecodeToken(g.tcSrcIn) && IsTimecodeToken(g.tcSrcOut)
    && IsTimecodeToken(g.tcRecIn) && IsTimecodeToken(g.tcRecOut)
  }

  /** The groups of a match: F1 to F3 are the first three words and the
      timecodes the last four. */
  function GroupsOf(ws: seq<Word>, wipeId: string, duration: string, fade: bool): Groups
    requires |ws| >= 7
  {
    Groups(ws[0].text, ws[1].text, ws[2].text, wipeId, duration, fade,
           ws[|ws| - 4].text, ws[|ws| - 3].text, ws[|ws| - 2].text, ws[|ws| - 1].text)
  }

  /** The fields after the `K B`/`KB` of a key background: an optional `(F)`
      token, then the four timecodes; without `(F)` the two `\s+` around the
      empty group need at least two whitespace characters before source-in. */
  function MatchFade(rest: seq<Word>): Option<bool> {
    if |rest| == 5 && EqualsIgnoringCase(rest[0].text, "(F)") && AreTimecodes(rest[1..]) then Some(true)
    else if |rest| == 4 && rest[0].gap >= 2 && AreTimecodes(rest) then Some(false)
    else None
  }

  /** `PAT_EVENT.match` of each class, over the tokens of a line. F1 is a digit
      run at column 0; F2 any token; F3 a track token; then the class's F4/F5;
      then exactly four timecodes and nothing but whitespace. */
  function MatchWords(kind: Kind, ws: seq<Word>): (r: Option<Groups>)
    requires WellSpaced(ws)
    ensures r.Some? ==> |ws| >= 7 && ws[0].gap == 0 && IsNumeric(ws[0].text)
    ensures r.Some? ==> GroupsShape(kind, r.value)
    ensures r.Some? ==>
      && r.value.eventNumber == ws[0].text && r.value.reelName == ws[1].text && r.value.trackType == ws[2].text
      && r.value.tcSrcIn == ws[|ws| - 4].text && r.value.tcSrcOut == ws[|ws| - 3].text
      && r.value.tcRecIn == ws[|ws| - 2].text && r.value.tcRecOut == ws[|ws| - 1].text
    ensures r.Some? && (kind == DissolveKind || kind == WipeKind || kind == KeyForegroundKind)
      ==> |ws| == 9 && r.value.eventDuration == ws[4].text
    ensures r.Some? && kind == WipeKind ==> r.value.wipeId == ws[3].text[1..]
  {
    if |ws| < 7 || ws[0].gap != 0 || !IsNumeric(ws[0].text) || !IsTrackToken(ws[2].text) then None
    else
      var t := ws[3].text;
      match kind
      case CutKind =>
        if |ws| == 8 && EqualsIgnoringCase(t, "C") && AreTimecodes(ws[4..])
        then Some(GroupsOf(ws, "", "", false)) else None
      case DissolveKind =>
        if |ws| == 9 && EqualsIgnoringCase(t, "D") && IsNumeric(ws[4].text) && AreTimecodes(ws[5..])
        then Some(GroupsOf(ws, "", ws[4].text, false)) else None
      case WipeKind =>
        if |ws| == 9 && |t| >= 2 && MatchesIgnoringCase(t[0], 'W') && IsNumeric(t[1..])
           && IsNumeric(ws[4].text) && AreTimecodes(ws[5..])
        then Some(GroupsOf(ws, t[1..], ws[4].text, false)) else None
      case KeyForegroundKind =>
        if |ws| == 9 && EqualsIgnoringCase(t, "K") && IsNumeric(ws[4].text) && AreTimecodes(ws[5..])
        then Some(GroupsOf(ws, "", ws[4].text, false)) else None
      case KeyBackgroundKind => MatchKeyBackground(ws)
  }

  /** F4/F5 and the timecodes of a key background. */
  function MatchKeyBackground(ws: seq<Word>): (r: Option<Groups>)
    requires |ws| >= 7
    ensures r.Some? ==>
      && r.value.eventNumber == ws[0].text && r.value.reelName == ws[1].text && r.value.trackType == ws[2].text
      && r.value.wipeId == [] && r.value.eventDuration == []
      && IsTimecodeToken(r.value.tcSrcIn) && IsTimecodeToken(r.value.tcSrcOut)
      && IsTimecodeToken(r.value.tcRecIn) && IsTimecodeToken(r.value.tcRecOut)
    ensures r.Some? ==>
      || EqualsIgnoringCase(ws[3].text, "KB")
      || (EqualsIgnoringCase(ws[3].text, "K") && EqualsIgnoringCase(ws[4].text, "B") && ws[4].gap == 1)
    ensures r.Some? ==>
      var next := AfterKeyBackground(ws);
      && next < |ws|
      && (r.value.fadeCondition <==> EqualsIgnoringCase(ws[next].text, "(F)"))
      && (!r.value.fadeCondition ==> ws[next].gap >= 2)
      && |ws| == next + (if r.value.fadeCondition then 5 else 4)
    ensures r.Some? ==>
      && r.value.tcSrcIn == ws[|ws| - 4].text && r.value.tcSrcOut == ws[|ws| - 3].text
      && r.value.tcRecIn == ws[|ws| - 2].text && r.value.tcRecOut == ws[|ws| - 1].text
    ensures
      && (EqualsIgnoringCase(ws[3].text, "KB")
          || (EqualsIgnoringCase(ws[3].text, "K") && EqualsIgnoringCase(ws[4].text, "B") && ws[4].gap == 1))
      && (var next := AfterKeyBackground(ws);
          || (|ws| == next + 5 && EqualsIgnoringCase(ws[next].text, "(F)") && AreTimecodes(ws[next + 1..]))
          || (|ws| == next + 4 && ws[next].gap >= 2 && AreTimecodes(ws[next..])))
      ==> r.Some?
  {
    var t := ws[3].text;
    // `K\s?B`: one token "KB", or "K" and "B" one whitespace character apart
    if !EqualsIgnoringCase(t, "KB") && !(EqualsIgnoringCase(t, "K") && EqualsIgnoringCase(ws[4].text, "B") && ws[4].gap == 1)
    then None
    else
      var next := AfterKeyBackground(ws);
      var rest := ws[next..];
      assert |rest| == 5 ==> rest[1..] == ws[next + 1..];
      match MatchFade(rest)
      case None => None
      case Some(fade) =>
        assert rest[0] == ws[next] && |rest| == (if fade then 5 else 4);
        assert !fade ==> IsTimecodeToken(rest[0].text);
        var tcs := ws[|ws| - 4..];
        assert tcs[0] == ws[|ws| - 4] && tcs[1] == ws[|ws| - 3] && tcs[2] == ws[|ws| - 2] && tcs[3] == ws[|ws| - 1];
        assert AreTimecodes(tcs) by { assert tcs == rest[|rest| - 4..]; }
        Some(GroupsOf(ws, "", "", fade))
  }

  /** A line matches a class's pattern when its words do; the groups are
      then tokens of `line.split()`: the first three, and the last four as
      the timecodes. */
  function MatchStatement(kind: Kind, line: string): (r: Option<Groups>)
    ensures r.Some? ==> GroupsShape(kind, r.value)
    ensures r.Some? ==>
      var toks := Split(line);
      && |toks| >= 7
      && r.value.eventNumber == toks[0] && r.value.reelName == toks[1] && r.value.trackType == toks[2]
      && r.value.tcSrcIn == toks[|toks| - 4] && r.value.tcSrcOut == toks[|toks| - 3]
      && r.value.tcRecIn == toks[|toks| - 2] && r.value.tcRecOut == toks[|toks| - 1]
  {
    MatchWords(kind, Lex(line).words)
  }

  /** The head the five patterns share: a digit run at column 0, then any
      reel token, then a track token. */
  predicate HeadFits(ws: seq<Word>) {
    |ws| >= 3 && ws[0].gap == 0 && IsNumeric(ws[0].text) && IsTrackToken(ws[2].text)
  }

  /** The acceptance direction of each pattern: words of each class's shape
      match it. */
  lemma MatchWordsAccepts(ws: seq<Word>)
    requires WellSpaced(ws) && HeadFits(ws)
    ensures |ws| == 8 && EqualsIgnoringCase(ws[3].text, "C") && AreTimecodes(ws[4..])
      ==> MatchWords(CutKind, ws).Some?
    ensures |ws| == 9 && EqualsIgnoringCase(ws[3].text, "D") && IsNumeric(ws[4].text) && AreTimecodes(ws[5..])
      ==> MatchWords(DissolveKind, ws).Some?
    ensures |ws| == 9 && |ws[3].text| >= 2 && MatchesIgnoringCase(ws[3].text[0], 'W') && IsNumeric(ws[3].text[1..])
        && IsNumeric(ws[4].text) && AreTimecodes(ws[5..])
      ==> MatchWords(WipeKind, ws).Some?
    ensures |ws| == 9 && EqualsIgnoringCase(ws[3].text, "K") && IsNumeric(ws[4].text) && AreTimecodes(ws[5..])
      ==> MatchWords(KeyForegroundKind, ws).Some?
    ensures |ws| >= 7 && MatchKeyBackground(ws).Some? ==> MatchWords(KeyBackgroundKind, ws).Some?
  {
  }

  /** A line some pattern accepts starts with a digit at column 0. */
  lemma MatchStartsWithDigit(kind: Kind, line: string)
    requires MatchStatement(kind, line).Some?
    ensures line != [] && IsDigit(line[0])
  {
    var ws := Lex(line).words;
    LexAllSpace(line);
    assert Split(line)[0] == ws[0].text;
  }

  /** The letter each class's F4 starts with. */
  function Letter(kind: Kind): char {
    match kind
    case CutKind => 'C'
    case DissolveKind => 'D'
    case WipeKind => 'W'
    case KeyForegroundKind => 'K'
    case KeyBackgroundKind => 'K'
  }

  lemma MatchWordsTag(kind: Kind, ws: seq<Word>)
    requires WellSpaced(ws) && MatchWords(kind, ws).Some?
    ensures |ws[3].text| >= 1 && MatchesIgnoringCase(ws[3].text[0], Letter(kind))
    ensures kind == KeyForegroundKind ==> |ws[3].text| == 1 && IsNumeric(ws[4].text)
    ensures kind == KeyBackgroundKind ==>
      |ws[3].text| == 2 || (|ws[3].text| == 1 && EqualsIgnoringCase(ws[4].text, "B"))
  {
  }

  lemma NumberIsNotB(b: string)
    ensures !(IsNumeric(b) && EqualsIgnoringCase(b, "B"))
  {
    if IsNumeric(b) && |b| == 1 {
      assert IsDigit(b[0]);
    }
  }

  /** A character matches the tag letters of two classes only when the letters are the same. */
  lemma LetterDetermined(c: char, k1: Kind, k2: Kind)
    requires MatchesIgnoringCase(c, Letter(k1)) && MatchesIgnoringCase(c, Letter(k2))
    ensures Letter(k1) == Letter(k2)
  {
  }

  /** The five patterns exclude each other: at most one class accepts a line. */
  lemma MatchExclusive(k1: Kind, k2: Kind, line: string)
    requires MatchStatement(k1, line).Some? && MatchStatement(k2, line).Some?
    ensures k1 == k2
  {
    var ws := Lex(line).words;
    MatchWordsTag(k1, ws);
    MatchWordsTag(k2, ws);
    LetterDetermined(ws[3].text[0], k1, k2);
    // a key foreground and a key background would need F5 to be both a digit run and `B`
    NumberIsNotB(ws[4].text);
  }

  // ---------------------------------------------------------------------
  // Parsing

  /** `Track(...)` on a token the track pattern admits: A and V tracks parse,
      and B, which the pattern admits, raises. */
  lemma TrackTokenParses(t: string)
    requires IsTrackToken(t)
    ensures Tracks.FromName(t).Ok? <==> !MatchesIgnoringCase(t[0], 'B')
    ensures Tracks.FromName(t).Err? ==> Tracks.FromName(t).error == InvalidTrackType
  {
    if |t| > 1 {
      assert IsNumeric(t[1..]);
    }
  }

  /** F4/F5 as each class's `parse_from_pattern` converts them with `int()`. */
  function TransitionOf(kind: Kind, g: Groups): (t: Transition)
    requires GroupsShape(kind, g)
    ensures KindOf(t) == kind
  {
    match kind
    case CutKind => Cut
    case DissolveKind => Dissolve(DigitsValue(g.eventDuration))
    case WipeKind => Wipe(DigitsValue(g.wipeId), DigitsValue(g.eventDuration))
    case KeyForegroundKind => KeyForeground(DigitsValue(g.eventDuration))
    case KeyBackgroundKind => KeyBackground(g.fadeCondition)
  }

  /** `_parse_shared_elements` and each class's `parse_from_pattern` with its
      constructor. `Track(...)` raises for track `B`; `SourceReel.from_string`
      comes last and accepts every token. */
  function ParseFromPattern(kind: Kind, g: Groups): (r: Result<Statement>)
    requires GroupsShape(kind, g)
    ensures r.Ok? <==> !MatchesIgnoringCase(g.trackType[0], 'B')
    ensures r.Err? ==> r.error == InvalidTrackType
    ensures r.Ok? ==> KindOf(r.value.transition) == kind && r.value.eventNumber.Some?
    ensures r.Ok? ==> Sources.Canonical(r.value.source)
    ensures r.Ok? ==>
      && r.value.eventNumber == Some(DigitsValue(g.eventNumber))
      && Tracks.FromName(g.trackType) == Ok(r.value.track)
      && UpperStr(Sources.Name(r.value.source)) == UpperStr(g.reelName)
      && r.value.transition == TransitionOf(kind, g)
    ensures r.Ok? ==>
      && r.value.timecodeSource == TimecodeRange(Parse(g.tcSrcIn), Parse(g.tcSrcOut))
      && r.value.timecodeRecord == TimecodeRange(Parse(g.tcRecIn), Parse(g.tcRecOut))
  {
    TrackTokenParses(g.trackType);
    Sources.FromStringIdempotent(g.reelName);
    Sources.FromStringNames(g.reelName);
    var track :- Tracks.FromName(g.trackType);
    var timecodeSource := TimecodeRange(Parse(g.tcSrcIn), Parse(g.tcSrcOut));
    var timecodeRecord := TimecodeRange(Parse(g.tcRecIn), Parse(g.tcRecOut));
    var source := Sources.FromString(g.reelName).value;
    Ok(Statement(Some(DigitsValue(g.eventNumber)), source, track, timecodeSource, timecodeRecord, TransitionOf(kind, g)))
  }

  /** `parse_from_string`: ValueError when the class's own pattern fails, and
      the groups' conversion otherwise; a statement read this way is of the
      class asked for, numbered, from a line that starts with a digit. */
  function ParseFromString(kind: Kind, line: string): (r: Result<Statement>)
    ensures MatchStatement(kind, line).None? ==> r == Err(NotThisStatement)
    ensures MatchStatement(kind, line).Some? ==> r == ParseFromPattern(kind, MatchStatement(kind, line).value)
    ensures r.Err? ==> r.error == NotThisStatement || r.error == InvalidTrackType
    ensures r.Ok? ==> line != [] && IsDigit(line[0])
    ensures r.Ok? ==> KindOf(r.value.transition) == kind && r.value.eventNumber.Some? && Sources.Canonical(r.value.source)
  {
    match MatchStatement(kind, line)
    case None => Err(NotThisStatement)
    case Some(g) =>
      MatchStartsWithDigit(kind, line);
      ParseFromPattern(kind, g)
  }

  /** What a statement read from a line holds, in terms of the tokens of
      `line.split()`, whatever the line's spacing: the event number is the
      first token's value, the reel is named by the second (up to case), the
      track is the one the third names, and the source and record ranges are
      the last four tokens in order. */
  lemma ParsedStatementFields(kind: Kind, line: string)
    requires ParseFromString(kind, line).Ok?
    ensures var toks, s := Split(line), ParseFromString(kind, line).value;
      && |toks| >= 7
      && s.eventNumber == Some(DigitsValue(toks[0]))
      && UpperStr(Sources.Name(s.source)) == UpperStr(toks[1])
      && Tracks.FromName(toks[2]) == Ok(s.track)
      && Format(s.timecodeSource.start) == toks[|toks| - 4] && Format(s.timecodeSource.end) == toks[|toks| - 3]
      && Format(s.timecodeRecord.start) == toks[|toks| - 2] && Format(s.timecodeRecord.end) == toks[|toks| - 1]
  {
    var g := MatchStatement(kind, line).value;
    assert ParseFromString(kind, line) == ParseFromPattern(kind, g);
    FormatParse(g.tcSrcIn);
    FormatParse(g.tcSrcOut);
    FormatParse(g.tcRecIn);
    FormatParse(g.tcRecOut);
  }

  // ---------------------------------------------------------------------
  // Printing

  /** `str(n).zfill(3)`: a digit run whose value is `n`. */
  function ZFill3(n: nat): (r: string)
    ensures IsNumeric(r) && DigitsValue(r) == n
    ensures n < 1000 ==> |r| == 3
  {
    ZFilledValue(n, 3);
    NatToStringLength(n);
    ZFill(NatToString(n), 3)
  }

  /** F4 and F5 as each class's `__str__` writes them, with the spaces around. */
  function TypeField(t: Transition): string {
    match t
    case Cut => "  C       "
    case Dissolve(n) => "  D  " + ZFill3(n) + "  "
    case Wipe(id, n) => "  W" + ZFill3(id) + "  " + ZFill3(n) + "  "
    case KeyForeground(n) => "  K  " + ZFill3(n) + "  "
    case KeyBackground(fade) => "  K B  " + (if fade then "(F)" else "   ") + "  "
  }

  /** The event number `__str__` writes: 1 when the statement has none. */
  function PrintedNumber(s: Statement): nat {
    if s.eventNumber.Some? then s.eventNumber.value else 1
  }

  /** F1 to F3 as `__str__` writes them: the zero-filled event number, the reel
      name left-justified to 128 columns and the track name to 3. */
  function HeadText(s: Statement): string {
    ZFill3(PrintedNumber(s)) + "  " + LJust(Sources.Name(s.source), 128) + "  " + LJust(Tracks.Name(s.track), 3)
  }

  /** The four timecodes as `__str__` writes them, one space apart. */
  function TimecodeText(s: Statement): string {
    Format(s.timecodeSource.start) + " " + Format(s.timecodeSource.end)
    + " " + Format(s.timecodeRecord.start) + " " + Format(s.timecodeRecord.end)
  }

  /** `__str__` of a statement with one track: its words (event number,
      reel, track, type fields, four timecodes) laid out with the padding
      as their gaps, and nothing after the last timecode. */
  function Print(s: Statement): (r: string)
    ensures r == Layout(PrintedWords(s))
  {
    var head, typeWords, tcWords := HeadWords(s), TypeWords(TrackPad(s), s.transition), TimecodeWords(s, GapAfter(s.transition));
    HeadLayout(s);
    TypeFieldLayout(TrackPad(s), s.transition);
    TimecodeLayout(s, GapAfter(s.transition));
    Regroup(HeadText(s), TypeField(s.transition), TimecodeText(s),
            Layout(head), Spaces(TrackPad(s)), Layout(typeWords), Spaces(GapAfter(s.transition)), Layout(tcWords));
    LayoutAppend(head, typeWords);
    LayoutAppend(head + typeWords, tcWords);
    HeadText(s) + TypeField(s.transition) + TimecodeText(s)
  }

  // ---------------------------------------------------------------------
  // Printing, then parsing

  /** A statement whose printed line its own pattern reads back: a reel the
      factory would build, and a track name the track pattern admits (a video
      track above 1 prints as `V2`, which `A\d*|B|V` rejects). */
  predicate Printable(s: Statement) {
    Sources.Canonical(s.source) && (s.track.kind == Tracks.Audio || s.track.index <= 1)
  }

  /** The statement a printed line parses back to: event number 1 for none,
      and the track rebuilt from its name. */
  function Normalized(s: Statement): Statement {
    s.(eventNumber := Some(PrintedNumber(s)),
       track := Tracks.Canonical(s.track))
  }

  function TimecodeWords(s: Statement, firstGap: nat): seq<Word> {
    [Word(firstGap, Format(s.timecodeSource.start)), Word(1, Format(s.timecodeSource.end)),
     Word(1, Format(s.timecodeRecord.start)), Word(1, Format(s.timecodeRecord.end))]
  }

  function TrackPad(s: Statement): nat {
    var n := Tracks.Name(s.track);
    if |n| < 3 then 3 - |n| else 0
  }

  function ReelPad(s: Statement): nat {
    var n := Sources.Name(s.source);
    if |n| < 128 then 128 - |n| else 0
  }

  /** The F4/F5 tokens of a printed transition, after a track name padded by `pad`. */
  function TypeWords(pad: nat, t: Transition): seq<Word> {
    var g := pad + 2;
    match t
    case Cut => [Word(g, "C")]
    case Dissolve(n) => [Word(g, "D"), Word(2, ZFill3(n))]
    case Wipe(id, n) => [Word(g, "W" + ZFill3(id)), Word(2, ZFill3(n))]
    case KeyForeground(n) => [Word(g, "K"), Word(2, ZFill3(n))]
    case KeyBackground(fade) =>
      if fade then [Word(g, "K"), Word(1, "B"), Word(2, "(F)")] else [Word(g, "K"), Word(1, "B")]
  }

  /** The spaces a printed transition leaves before source-in. */
  function GapAfter(t: Transition): nat {
    if t.Cut? || t == KeyBackground(false) then 7 else 2
  }

  function HeadWords(s: Statement): seq<Word> {
    [Word(0, ZFill3(PrintedNumber(s))), Word(2, Sources.Name(s.source)), Word(ReelPad(s) + 2, Tracks.Name(s.track))]
  }

  /** The tokens of a printed statement, each with the spaces before it. */
  function PrintedWords(s: Statement): seq<Word> {
    HeadWords(s) + TypeWords(TrackPad(s), s.transition) + TimecodeWords(s, GapAfter(s.transition))
  }

  lemma TimecodeLayout(s: Statement, firstGap: nat)
    ensures Layout(TimecodeWords(s, firstGap)) == Spaces(firstGap) + TimecodeText(s)
  {
    var a, b, c, d := Format(s.timecodeSource.start), Format(s.timecodeSource.end),
                      Format(s.timecodeRecord.start), Format(s.timecodeRecord.end);
    calc {
      Layout(TimecodeWords(s, firstGap));
      Layout([Word(firstGap, a), Word(1, b), Word(1, c), Word(1, d)]);
      { LayoutFour(firstGap, a, b, c, d); }
      Spaces(firstGap) + a + " " + b + " " + c + " " + d;
      { Assoc8(Spaces(firstGap), a, " ", b, " ", c, " ", d); }
      Spaces(firstGap) + (a + " " + b + " " + c + " " + d);
    }
  }

  /** `  C       ` after a padded track name. */
  lemma CutLayout(pad: nat)
    ensures Spaces(pad) + TypeField(Cut) == Layout(TypeWords(pad, Cut)) + Spaces(7)
  {
    LayoutOne(Word(pad + 2, "C"));
    calc {
      Spaces(pad) + TypeField(Cut);
      { CutLiteral(); }
      Spaces(pad) + (Spaces(2) + "C" + Spaces(7));
      { Assoc4(Spaces(pad), Spaces(2), "C", Spaces(7));
        SpacesAdd(pad, 2); }
      Spaces(pad + 2) + "C" + Spaces(7);
    }
  }

  lemma CutLiteral()
    ensures TypeField(Cut) == Spaces(2) + "C" + Spaces(7)
  {
  }

  /** F4 and a three-digit F5, two spaces apart and two spaces around. */
  lemma NumberedLayout(pad: nat, head: string, f4: string, f5: string)
    requires head == "  " + f4 + "  "
    ensures Spaces(pad) + (head + f5 + "  ") == Layout([Word(pad + 2, f4), Word(2, f5)]) + Spaces(2)
  {
    LayoutTwo(pad + 2, f4, 2, f5);
    calc {
      Spaces(pad) + (head + f5 + "  ");
      { assert Spaces(2) == "  "; }
      Spaces(pad) + (Spaces(2) + f4 + Spaces(2) + f5 + Spaces(2));
      { Assoc6(Spaces(pad), Spaces(2), f4, Spaces(2), f5, Spaces(2));
        SpacesAdd(pad, 2); }
      Spaces(pad + 2) + f4 + Spaces(2) + f5 + Spaces(2);
    }
  }

  lemma KeyBackgroundText(pad: nat, fade: bool)
    ensures fade ==> Spaces(pad) + TypeField(KeyBackground(fade))
                     == Spaces(pad + 2) + "K" + Spaces(1) + "B" + Spaces(2) + "(F)" + Spaces(2)
    ensures !fade ==> Spaces(pad) + TypeField(KeyBackground(fade))
                      == Spaces(pad + 2) + "K" + Spaces(1) + "B" + Spaces(7)
  {
    var f5 := if fade then Spaces(2) + "(F)" + Spaces(2) else Spaces(7);
    var tail := (if fade then "(F)" else "   ") + "  ";
    var kb := Spaces(pad + 2) + "K" + Spaces(1) + "B";
    calc {
      Spaces(pad) + TypeField(KeyBackground(fade));
      Spaces(pad) + ("  K B  " + tail);
      { KeyBackgroundLiteral(); }
      Spaces(pad) + (Spaces(2) + "K" + Spaces(1) + "B" + Spaces(2) + tail);
      { Assoc3(Spaces(2) + "K" + Spaces(1) + "B", Spaces(2), tail); }
      Spaces(pad) + (Spaces(2) + "K" + Spaces(1) + "B" + (Spaces(2) + tail));
      { FadeText(fade); }
      Spaces(pad) + (Spaces(2) + "K" + Spaces(1) + "B" + f5);
      { Assoc6(Spaces(pad), Spaces(2), "K", Spaces(1), "B", f5);
        SpacesAdd(pad, 2); }
      kb + f5;
    }
    if fade {
      Assoc3(kb + Spaces(2), "(F)", Spaces(2));
      Assoc3(kb, Spaces(2), "(F)");
    }
  }

  lemma KeyBackgroundLiteral()
    ensures "  K B  " == Spaces(2) + "K" + Spaces(1) + "B" + Spaces(2)
  {
  }

  lemma FadeText(fade: bool)
    ensures Spaces(2) + ((if fade then "(F)" else "   ") + "  ")
         == if fade then Spaces(2) + "(F)" + Spaces(2) else Spaces(7)
  {
    assert Spaces(2) == "  ";
  }

  lemma KeyBackgroundLayout(pad: nat, fade: bool)
    ensures Spaces(pad) + TypeField(KeyBackground(fade))
         == Layout(TypeWords(pad, KeyBackground(fade))) + Spaces(GapAfter(KeyBackground(fade)))
  {
    KeyBackgroundText(pad, fade);
    if fade {
      LayoutThree(pad + 2, "K", 1, "B", 2, "(F)");
    } else {
      LayoutTwo(pad + 2, "K", 1, "B");
    }
  }

  lemma WipeLiteral(id: string)
    ensures "  W" + id + "  " == "  " + ("W" + id) + "  "
  {
  }

  /** F4/F5 as printed are their tokens laid out, followed by the gap before source-in. */
  lemma TypeFieldLayout(pad: nat, t: Transition)
    ensures Spaces(pad) + TypeField(t) == Layout(TypeWords(pad, t)) + Spaces(GapAfter(t))
  {
    match t
    case Cut => CutLayout(pad);
    case Dissolve(n) => NumberedTypeLayout(pad, t, "  D  ", "D", n);
    case Wipe(id, n) =>
      WipeLiteral(ZFill3(id));
      NumberedTypeLayout(pad, t, "  W" + ZFill3(id) + "  ", "W" + ZFill3(id), n);
    case KeyForeground(n) => NumberedTypeLayout(pad, t, "  K  ", "K", n);
    case KeyBackground(fade) => KeyBackgroundLayout(pad, fade);
  }

  /** A transition printed as F4 and a three-digit F5. */
  lemma NumberedTypeLayout(pad: nat, t: Transition, head: string, f4: string, n: nat)
    requires head == "  " + f4 + "  "
    requires TypeField(t) == head + ZFill3(n) + "  "
    requires TypeWords(pad, t) == [Word(pad + 2, f4), Word(2, ZFill3(n))] && GapAfter(t) == 2
    ensures Spaces(pad) + TypeField(t) == Layout(TypeWords(pad, t)) + Spaces(GapAfter(t))
  {
    NumberedLayout(pad, head, f4, ZFill3(n));
  }

  lemma HeadRegroup(e: string, reel: string, reelPad: string, trk: string, trackPad: string)
    ensures e + "  " + (reel + reelPad) + "  " + (trk + trackPad)
         == Spaces(0) + e + Spaces(2) + reel + (reelPad + Spaces(2)) + trk + trackPad
  {
    assert Spaces(0) == [] && Spaces(2) == "  ";
  }

  /** F1 to F3 as printed are their tokens laid out, followed by the track's padding. */
  lemma HeadLayout(s: Statement)
    ensures HeadText(s) == Layout(HeadWords(s)) + Spaces(TrackPad(s))
  {
    var e, reel, trk := ZFill3(PrintedNumber(s)), Sources.Name(s.source), Tracks.Name(s.track);
    var rp, tp := ReelPad(s), TrackPad(s);
    assert LJust(reel, 128) == reel + Spaces(rp) && LJust(trk, 3) == trk + Spaces(tp);
    assert HeadText(s) == e + "  " + (reel + Spaces(rp)) + "  " + (trk + Spaces(tp));
    assert HeadWords(s) == [Word(0, e), Word(2, reel), Word(rp + 2, trk)];
    HeadAssembly(e, reel, trk, rp, tp);
  }

  /** The three head fields, padded and two spaces apart, are their tokens
      laid out and the track's padding. */
  lemma HeadAssembly(e: string, reel: string, trk: string, reelPad: nat, trackPad: nat)
    ensures e + "  " + (reel + Spaces(reelPad)) + "  " + (trk + Spaces(trackPad))
         == Layout([Word(0, e), Word(2, reel), Word(reelPad + 2, trk)]) + Spaces(trackPad)
  {
    calc {
      e + "  " + (reel + Spaces(reelPad)) + "  " + (trk + Spaces(trackPad));
      { HeadRegroup(e, reel, Spaces(reelPad), trk, Spaces(trackPad)); }
      Spaces(0) + e + Spaces(2) + reel + (Spaces(reelPad) + Spaces(2)) + trk + Spaces(trackPad);
      { SpacesAdd(reelPad, 2); }
      Spaces(0) + e + Spaces(2) + reel + Spaces(reelPad + 2) + trk + Spaces(trackPad);
      { LayoutThree(0, e, 2, reel, reelPad + 2, trk); }
      Layout([Word(0, e), Word(2, reel), Word(reelPad + 2, trk)]) + Spaces(trackPad);
    }
  }

  lemma Regroup(head: string, typeField: string, timecodes: string,
                 headLaid: string, pad: string, typeLaid: string, gap: string, timecodesLaid: string)
    requires head == headLaid + pad && pad + typeField == typeLaid + gap && gap + timecodes == timecodesLaid
    ensures head + typeField + timecodes == headLaid + typeLaid + timecodesLaid
  {
    calc {
      head + typeField + timecodes;
      headLaid + pad + typeField + timecodes;
      { Assoc4(headLaid, pad, typeField, timecodes); }
      headLaid + (pad + typeField) + timecodes;
      headLaid + (typeLaid + gap) + timecodes;
      { Assoc4(headLaid, typeLaid, gap, timecodes); }
      headLaid + typeLaid + (gap + timecodes);
    }
  }

  lemma HeadWordsWellSpaced(s: Statement)
    requires Sources.Canonical(s.source)
    ensures WellSpaced(HeadWords(s))
  {
    Sources.CanonicalNameIsToken(s.source);
    Tracks.NameIsToken(s.track);
    NumericIsToken(ZFill3(PrintedNumber(s)));
    ThreeWellSpaced(HeadWords(s));
  }

  lemma ThreeWellSpaced(ws: seq<Word>)
    requires |ws| == 3 && IsToken(ws[0].text) && IsToken(ws[1].text) && IsToken(ws[2].text)
    requires ws[1].gap > 0 && ws[2].gap > 0
    ensures WellSpaced(ws)
  {
  }

  lemma WipeTagIsToken(id: nat)
    ensures IsToken("W" + ZFill3(id))
  {
    var w := "W" + ZFill3(id);
    forall i | 0 <= i < |w| ensures !IsSpace(w[i]) {
      if i > 0 { assert w[i] == ZFill3(id)[i - 1]; }
    }
  }

  lemma LetterTokens()
    ensures IsToken("C") && IsToken("D") && IsToken("K") && IsToken("B") && IsToken("(F)")
  {
  }

  lemma TypeWordsWellSpaced(pad: nat, t: Transition)
    ensures WellSpaced(TypeWords(pad, t)) && TypeWords(pad, t)[0].gap > 0
  {
    LetterTokens();
    match t
    case Wipe(id, n) =>
      WipeTagIsToken(id);
      NumericIsToken(ZFill3(n));
    case Dissolve(n) => NumericIsToken(ZFill3(n));
    case KeyForeground(n) => NumericIsToken(ZFill3(n));
    case Cut =>
    case KeyBackground(fade) =>
  }

  lemma TimecodeWordsWellSpaced(s: Statement, firstGap: nat)
    requires firstGap > 0
    ensures WellSpaced(TimecodeWords(s, firstGap))
  {
    var tc := TimecodeWords(s, firstGap);
    TimecodeTokenIsToken(tc[0].text);
    TimecodeTokenIsToken(tc[1].text);
    TimecodeTokenIsToken(tc[2].text);
    TimecodeTokenIsToken(tc[3].text);
  }

  /** The printed tokens read back by `Lex`: non-empty, no whitespace, apart. */
  lemma PrintedWordsWellSpaced(s: Statement)
    requires Sources.Canonical(s.source)
    ensures WellSpaced(PrintedWords(s))
  {
    var head, tw, tc := HeadWords(s), TypeWords(TrackPad(s), s.transition), TimecodeWords(s, GapAfter(s.transition));
    HeadWordsWellSpaced(s);
    TypeWordsWellSpaced(TrackPad(s), s.transition);
    TimecodeWordsWellSpaced(s, GapAfter(s.transition));
    WellSpacedAppend(head, tw);
    WellSpacedAppend(head + tw, tc);
  }

  /** `Lex` of a printed statement gives back its tokens and gaps. */
  lemma LexPrint(s: Statement)
    requires Sources.Canonical(s.source)
    ensures Lex(Print(s)).words == PrintedWords(s)
  {
    PrintedWordsWellSpaced(s);
    LexLayout(PrintedWords(s), 0);
    assert Layout(PrintedWords(s)) + Spaces(0) == Layout(PrintedWords(s));
  }

  /** The groups the pattern reads off a printed statement. */
  function PrintedGroups(s: Statement): Groups {
    var t := s.transition;
    Groups(ZFill3(PrintedNumber(s)), Sources.Name(s.source), Tracks.Name(s.track),
           if t.Wipe? then ZFill3(t.wipeId) else "",
           if t.Dissolve? || t.KeyForeground? then ZFill3(t.dissolveLength)
           else if t.Wipe? then ZFill3(t.wipeLength) else "",
           t == KeyBackground(true),
           Format(s.timecodeSource.start), Format(s.timecodeSource.end),
           Format(s.timecodeRecord.start), Format(s.timecodeRecord.end))
  }

  /** A printed track name is a track token unless it is a video track above 1. */
  lemma TrackNameIsTrackToken(t: Tracks.Track)
    requires t.kind == Tracks.Audio || t.index <= 1
    ensures IsTrackToken(Tracks.Name(t))
  {
    var n := Tracks.Name(t);
    if t.index > 1 {
      assert AllDigits(n[1..]);
    }
  }

  lemma TimecodeWordsMatch(s: Statement, firstGap: nat)
    ensures AreTimecodes(TimecodeWords(s, firstGap))
  {
  }

  /** A printed statement's tokens: F1 to F3, then F4/F5, then the timecodes. */
  lemma PrintedWordsSplit(s: Statement)
    ensures PrintedWords(s) == HeadWords(s) + TypeWords(TrackPad(s), s.transition) + TimecodeWords(s, GapAfter(s.transition))
  {
  }

  /** F1 to F3 that pass the checks every pattern makes first. */
  predicate HeadShape(head: seq<Word>) {
    |head| == 3 && head[0].gap == 0 && IsNumeric(head[0].text) && IsTrackToken(head[2].text)
  }

  lemma PrintedHeadShape(s: Statement)
    requires Printable(s)
    ensures HeadShape(HeadWords(s))
  {
    TrackNameIsTrackToken(s.track);
  }

  /** The groups of a line made of F1 to F3 `head`, some F4/F5 and the timecodes `tc`. */
  function PartsGroups(head: seq<Word>, tc: seq<Word>, wipeId: string, duration: string, fade: bool): Groups
    requires |head| == 3 && |tc| == 4
  {
    Groups(head[0].text, head[1].text, head[2].text, wipeId, duration, fade, tc[0].text, tc[1].text, tc[2].text, tc[3].text)
  }

  lemma MatchCutParts(head: seq<Word>, pad: nat, tc: seq<Word>)
    requires HeadShape(head) && AreTimecodes(tc) && WellSpaced(head + TypeWords(pad, Cut) + tc)
    ensures MatchWords(CutKind, head + TypeWords(pad, Cut) + tc) == Some(PartsGroups(head, tc, "", "", false))
  {
    var ws := head + TypeWords(pad, Cut) + tc;
    assert ws[0] == head[0] && ws[1] == head[1] && ws[2] == head[2] && ws[3] == Word(pad + 2, "C");
    assert ws[4..] == tc;
    EqualsIgnoringCaseSelf("C");
  }

  /** The D, W and K patterns on an F4 tag and a digit run F5. */
  lemma MatchNumberedParts(kind: Kind, head: seq<Word>, g: nat, f4: string, f5: string, tc: seq<Word>)
    requires kind == DissolveKind || kind == WipeKind || kind == KeyForegroundKind
    requires kind == WipeKind ==> |f4| >= 2 && f4[0] == 'W' && IsNumeric(f4[1..])
    requires kind != WipeKind ==> f4 == [Letter(kind)]
    requires HeadShape(head) && IsNumeric(f5) && AreTimecodes(tc) && WellSpaced(head + [Word(g, f4), Word(2, f5)] + tc)
    ensures MatchWords(kind, head + [Word(g, f4), Word(2, f5)] + tc)
         == Some(PartsGroups(head, tc, if kind == WipeKind then f4[1..] else "", f5, false))
  {
    var ws := head + [Word(g, f4), Word(2, f5)] + tc;
    assert ws[0] == head[0] && ws[1] == head[1] && ws[2] == head[2] && ws[3] == Word(g, f4) && ws[4] == Word(2, f5);
    assert ws[5..] == tc;
    EqualsIgnoringCaseSelf(f4);
  }

  /** The KB pattern on `K B`, with or without `(F)`. */
  lemma MatchKeyBackgroundParts(head: seq<Word>, pad: nat, fade: bool, tc: seq<Word>)
    requires HeadShape(head) && AreTimecodes(tc) && (!fade ==> tc[0].gap >= 2)
    requires WellSpaced(head + TypeWords(pad, KeyBackground(fade)) + tc)
    ensures MatchWords(KeyBackgroundKind, head + TypeWords(pad, KeyBackground(fade)) + tc)
         == Some(PartsGroups(head, tc, "", "", fade))
  {
    var tw := TypeWords(pad, KeyBackground(fade));
    var ws := head + tw + tc;
    assert ws[0] == head[0] && ws[1] == head[1] && ws[2] == head[2] && ws[3] == tw[0] && ws[4] == tw[1];
    assert !EqualsIgnoringCase("K", "KB");
    EqualsIgnoringCaseSelf("K");
    EqualsIgnoringCaseSelf("B");
    if fade {
      assert ws[5] == tw[2];
      assert ws[5..][1..] == tc;
      EqualsIgnoringCaseSelf("(F)");
    } else {
      assert ws[5..] == tc;
    }
  }

  lemma WipeTag(id: nat)
    ensures var f4 := "W" + ZFill3(id); |f4| >= 2 && f4[0] == 'W' && f4[1..] == ZFill3(id)
  {
  }

  lemma PrintedGroupsParts(s: Statement)
    ensures var g := PrintedGroups(s);
      g == PartsGroups(HeadWords(s), TimecodeWords(s, GapAfter(s.transition)), g.wipeId, g.eventDuration, g.fadeCondition)
  {
  }

  /** What every pattern needs of a printable statement's tokens. */
  lemma PrintedParts(s: Statement)
    requires Printable(s)
    ensures var head, tw, tc := HeadWords(s), TypeWords(TrackPad(s), s.transition), TimecodeWords(s, GapAfter(s.transition));
      && PrintedWords(s) == head + tw + tc
      && WellSpaced(head + tw + tc) && HeadShape(head) && AreTimecodes(tc)
      && tc[0].gap == GapAfter(s.transition)
      && PrintedGroups(s) == PartsGroups(head, tc, PrintedGroups(s).wipeId, PrintedGroups(s).eventDuration, PrintedGroups(s).fadeCondition)
  {
    PrintedWordsSplit(s);
    PrintedWordsWellSpaced(s);
    PrintedHeadShape(s);
    TimecodeWordsMatch(s, GapAfter(s.transition));
    PrintedGroupsParts(s);
  }

  lemma MatchPrintedCut(s: Statement)
    requires Printable(s) && s.transition.Cut?
    ensures WellSpaced(PrintedWords(s))
    ensures MatchWords(CutKind, PrintedWords(s)) == Some(PrintedGroups(s))
  {
    PrintedParts(s);
    MatchCutParts(HeadWords(s), TrackPad(s), TimecodeWords(s, GapAfter(s.transition)));
  }

  lemma MatchPrintedNumbered(s: Statement, f4: string, f5: string)
    requires Printable(s) && (s.transition.Dissolve? || s.transition.Wipe? || s.transition.KeyForeground?)
    requires TypeWords(TrackPad(s), s.transition) == [Word(TrackPad(s) + 2, f4), Word(2, f5)]
    requires s.transition.Wipe? ==> |f4| >= 2 && f4[0] == 'W' && f4[1..] == ZFill3(s.transition.wipeId)
    requires !s.transition.Wipe? ==> f4 == [Letter(KindOf(s.transition))]
    ensures WellSpaced(PrintedWords(s))
    ensures MatchWords(KindOf(s.transition), PrintedWords(s)) == Some(PrintedGroups(s))
  {
    PrintedParts(s);
    MatchNumberedParts(KindOf(s.transition), HeadWords(s), TrackPad(s) + 2, f4, f5, TimecodeWords(s, GapAfter(s.transition)));
  }

  lemma MatchPrintedKeyBackground(s: Statement)
    requires Printable(s) && s.transition.KeyBackground?
    ensures WellSpaced(PrintedWords(s))
    ensures MatchWords(KeyBackgroundKind, PrintedWords(s)) == Some(PrintedGroups(s))
  {
    PrintedParts(s);
    MatchKeyBackgroundParts(HeadWords(s), TrackPad(s), s.transition.hasFadeCondition, TimecodeWords(s, GapAfter(s.transition)));
  }

  lemma MatchPrintedDissolve(s: Statement)
    requires Printable(s) && s.transition.Dissolve?
    ensures WellSpaced(PrintedWords(s))
    ensures MatchWords(DissolveKind, PrintedWords(s)) == Some(PrintedGroups(s))
  {
    assert KindOf(s.transition) == DissolveKind;
    MatchPrintedNumbered(s, "D", ZFill3(s.transition.dissolveLength));
  }

  lemma MatchPrintedWipe(s: Statement)
    requires Printable(s) && s.transition.Wipe?
    ensures WellSpaced(PrintedWords(s))
    ensures MatchWords(WipeKind, PrintedWords(s)) == Some(PrintedGroups(s))
  {
    assert KindOf(s.transition) == WipeKind;
    WipeTypeWords(TrackPad(s), s.transition);
    MatchPrintedNumbered(s, "W" + ZFill3(s.transition.wipeId), ZFill3(s.transition.wipeLength));
  }

  lemma WipeTypeWords(pad: nat, t: Transition)
    requires t.Wipe?
    ensures var f4 := "W" + ZFill3(t.wipeId);
      && TypeWords(pad, t) == [Word(pad + 2, f4), Word(2, ZFill3(t.wipeLength))]
      && |f4| >= 2 && f4[0] == 'W' && f4[1..] == ZFill3(t.wipeId)
  {
    WipeTag(t.wipeId);
  }

  lemma MatchPrintedKeyForeground(s: Statement)
    requires Printable(s) && s.transition.KeyForeground?
    ensures WellSpaced(PrintedWords(s))
    ensures MatchWords(KeyForegroundKind, PrintedWords(s)) == Some(PrintedGroups(s))
  {
    assert KindOf(s.transition) == KeyForegroundKind;
    assert "K" == [Letter(KeyForegroundKind)];
    MatchPrintedNumbered(s, "K", ZFill3(s.transition.dissolveLength));
  }

  /** Each class's pattern reads a printable statement's tokens back into its groups. */
  lemma MatchPrinted(s: Statement)
    requires Printable(s)
    ensures WellSpaced(PrintedWords(s))
    ensures MatchWords(KindOf(s.transition), PrintedWords(s)) == Some(PrintedGroups(s))
  {
    match s.transition
    case Cut => MatchPrintedCut(s);
    case Dissolve(_) => MatchPrintedDissolve(s);
    case Wipe(_, _) => MatchPrintedWipe(s);
    case KeyForeground(_) => MatchPrintedKeyForeground(s);
    case KeyBackground(_) => MatchPrintedKeyBackground(s);
  }

  lemma TransitionOfPrinted(s: Statement)
    requires GroupsShape(KindOf(s.transition), PrintedGroups(s))
    ensures TransitionOf(KindOf(s.transition), PrintedGroups(s)) == s.transition
  {
  }

  /** The parser rebuilds a printable statement from its printed groups, up to
      the event number and track that printing normalizes. */
  lemma ParsePrinted(s: Statement)
    requires Printable(s) && GroupsShape(KindOf(s.transition), PrintedGroups(s))
    ensures ParseFromPattern(KindOf(s.transition), PrintedGroups(s)) == Ok(Normalized(s))
  {
    var g := PrintedGroups(s);
    Tracks.NameReparse(s.track);
    ParseFormat(s.timecodeSource.start);
    ParseFormat(s.timecodeSource.end);
    ParseFormat(s.timecodeRecord.start);
    ParseFormat(s.timecodeRecord.end);
    TransitionOfPrinted(s);
  }

  /** A printable statement's line parses back, with its own class, to the
      normalized statement. */
  lemma PrintRoundTrip(s: Statement)
    requires Printable(s)
    ensures ParseFromString(KindOf(s.transition), Print(s)) == Ok(Normalized(s))
  {
    LexPrint(s);
    MatchPrinted(s);
    ParsePrinted(s);
  }

  /** Every other class rejects a printed statement's line. */
  lemma PrintOtherKinds(s: Statement, kind: Kind)
    requires Printable(s) && kind != KindOf(s.transition)
    ensures ParseFromString(kind, Print(s)) == Err(NotThisStatement)
  {
    LexPrint(s);
    MatchPrinted(s);
    if MatchStatement(kind, Print(s)).Some? {
      MatchExclusive(kind, KindOf(s.transition), Print(s));
    }
  }

  /** A video track above 1 prints as `V<n>`, which the track pattern rejects. */
  lemma VideoTrackNameRejected(t: Tracks.Track)
    requires t.kind == Tracks.Video && t.index > 1
    ensures !IsTrackToken(Tracks.Name(t))
  {
  }

  /** So no class reads back a printed statement on a video track above 1. */
  lemma PrintedVideoTrackRejected(s: Statement, kind: Kind)
    requires Sources.Canonical(s.source) && s.track.kind == Tracks.Video && s.track.index > 1
    ensures ParseFromString(kind, Print(s)) == Err(NotThisStatement)
  {
    LexPrint(s);
    PrintedWordsSplit(s);
    VideoTrackNameRejected(s.track);
    assert PrintedWords(s)[2] == HeadWords(s)[2];
  }

  /** `K\s?B`: a `K` and a `B` more than one whitespace character apart are not a key background. */
  lemma KeyBackgroundSplitTooWide(ws: seq<Word>)
    requires WellSpaced(ws) && |ws| >= 5
    requires EqualsIgnoringCase(ws[3].text, "K") && EqualsIgnoringCase(ws[4].text, "B") && ws[4].gap >= 2
    ensures MatchWords(KeyBackgroundKind, ws).None?
  {
  }

  /** The word after the `KB`/`K B` of a key background. */
  function AfterKeyBackground(ws: seq<Word>): nat
    requires |ws| >= 4
  {
    if |ws[3].text| == 2 then 4 else 5
  }

  /** Without `(F)`, the two `\s+` around the empty group need at least two
      whitespace characters before source-in. */
  lemma KeyBackgroundNeedsTwoSpaces(ws: seq<Word>)
    requires WellSpaced(ws) && |ws| >= 6
    requires ws[AfterKeyBackground(ws)].gap < 2 && !EqualsIgnoringCase(ws[AfterKeyBackground(ws)].text, "(F)")
    ensures MatchWords(KeyBackgroundKind, ws).None?
  {
  }

  /** A key background has its fade condition exactly when `(F)` follows `KB`. */
  lemma KeyBackgroundFade(ws: seq<Word>)
    requires WellSpaced(ws) && MatchWords(KeyBackgroundKind, ws).Some?
    ensures AfterKeyBackground(ws) < |ws|
    ensures MatchWords(KeyBackgroundKind, ws).value.fadeCondition
        <==> EqualsIgnoringCase(ws[AfterKeyBackground(ws)].text, "(F)")
  {
    var next := AfterKeyBackground(ws);
    var rest := ws[next..];
    assert rest[0] == ws[next];
    if !MatchWords(KeyBackgroundKind, ws).value.fadeCondition {
      assert IsTimecodeToken(rest[0].text);
    }
  }
}
