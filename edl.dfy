/** The edit decision list itself (edl/edl.py): the header, the loop that
    cuts the body of a file into events, and the `Edl` object with its
    validating setters, its printed form and the sets it collects. A file is
    taken as the sequence of its lines, each without its "\n". */
module EditDecisionList {
  import opened Wrappers
  import opened Text
  import FrameCounting
  import Tracks
  import Sources
  import SF = StandardForm
  import Events

  // ---------------------------------------------------------------------
  // The header

  /** `_parse_title_from_line`: the line must start with "title:" in any
      case; its trimmed remainder is the title and must not be empty. */
  function ParseTitle(line: string): (r: Result<string>)
    ensures r.Ok? <==> "title:" <= LowerStr(line) && !AllSpace(line[6..])
    ensures !("title:" <= LowerStr(line)) ==> r == Err(TitleNotFound)
    ensures "title:" <= LowerStr(line) && AllSpace(line[6..]) ==> r == Err(TitleIsEmpty)
    ensures r.Ok? ==> r.value == Strip(line[6..]) && r.value != [] && Strip(r.value) == r.value
  {
    if !("title:" <= LowerStr(line)) then Err(TitleNotFound)
    else
      var title := Strip(line[6..]);
      StripShape(line[6..]);
      StripIdempotent(line[6..]);
      if |title| == 0 then Err(TitleIsEmpty) else Ok(title)
  }

  /** Whether `from_file` reads a line as the FCM line: it starts with "FCM:"
      once upper-cased. */
  predicate IsFcmLine(line: string) {
    "FCM:" <= UpperStr(line)
  }

  /** `_parse_fcm_from_line`: the line must start with "fcm:" in any case,
      and its trimmed remainder must be the exact value of an FCM. */
  function ParseFcm(line: string): (r: Result<FrameCounting.Fcm>)
    ensures !("fcm:" <= LowerStr(line)) ==> r == Err(FcmNotFound)
    ensures "fcm:" <= LowerStr(line) ==>
      r.Ok? == FrameCounting.FromValue(Strip(line[4..])).Some?
    ensures r.Ok? ==> FrameCounting.Value(r.value) == Strip(line[4..])
    ensures r.Err? && "fcm:" <= LowerStr(line) ==> r == Err(InvalidFcmSpecified)
  {
    if !("fcm:" <= LowerStr(line)) then Err(FcmNotFound)
    else
      match FrameCounting.FromValue(Strip(line[4..]))
      case Some(f) => Ok(f)
      case None => Err(InvalidFcmSpecified)
  }

  /** `from_file` only hands an FCM line to `_parse_fcm_from_line`, so the
      "FCM was expected" error cannot arise there: the two case mappings agree
      on the prefix. */
  lemma FcmLineIsFound(line: string)
    requires IsFcmLine(line)
    ensures ParseFcm(line) != Err(FcmNotFound)
  {
    var u, l := UpperStr(line), LowerStr(line);
    assert u[0] == 'F' && u[1] == 'C' && u[2] == 'M' && u[3] == ':';
    assert l[0] == 'f' && l[1] == 'c' && l[2] == 'm' && l[3] == ':';
    assert l[..4] == "fcm:";
  }

  /** Whether the second line of `lines` is consumed as the FCM line. */
  predicate FcmGiven(lines: seq<string>) {
    |lines| > 1 && IsFcmLine(lines[1])
  }

  /** The lines after the header: after the title line, and after the FCM
      line when there is one. */
  function Body(lines: seq<string>): (body: seq<string>)
    ensures FcmGiven(lines) ==> body == lines[2..]
    ensures !FcmGiven(lines) && lines != [] ==> body == lines[1..]
  {
    if FcmGiven(lines) then lines[2..] else if lines == [] then [] else lines[1..]
  }

  /** How many lines the header takes: the title line, and the FCM line
      when there is one. */
  function HeaderSize(lines: seq<string>): nat {
    if FcmGiven(lines) then 2 else 1
  }

  /** The title line, or "" when the file is empty (what `readline` gives). */
  function TitleLine(lines: seq<string>): string {
    if lines == [] then "" else lines[0]
  }

  // ---------------------------------------------------------------------
  // Deciding where an event begins

  /** The number a line starts with: its first whitespace token, if that is
      all digits. */
  function LeadingNumber(line: string): (r: Option<nat>)
    ensures r.Some? ==> Split(line) != [] && IsNumeric(Split(line)[0]) && r.value == DigitsValue(Split(line)[0])
    ensures r.None? ==> Split(line) == [] || !IsNumeric(Split(line)[0])
  {
    var words := Split(line);
    if words != [] && IsNumeric(words[0]) then Some(DigitsValue(words[0])) else None
  }

  /** A lower-cased token is never "FCM:" or "SPLIT:", which are written in
      capitals. */
  lemma PrefixedFormNeverMatches(token: string)
    ensures LowerStr(token) != "FCM:" && LowerStr(token) != "SPLIT:"
  {
    if |token| > 0 {
      assert LowerStr(token)[0] == Lower(token[0]);
    }
  }

  /** `_is_begin_new_event`: never while the current event number is 0;
      otherwise the line's first token (an IndexError if there is none) must
      be a number other than the current one. The branch for "FCM:" and
      "SPLIT:" is kept as written and never taken. */
  function IsBeginNewEvent(line: string, current: nat): (r: Result<bool>)
    ensures current == 0 ==> r == Ok(false)
    ensures current != 0 ==> (r.Err? <==> AllSpace(line))
    ensures r.Err? ==> r.error == IndexOutOfRange
    ensures r.Ok? ==> (r.value <==> current != 0 && LeadingNumber(line).Some? && LeadingNumber(line).value != current)
  {
    if current == 0 then Ok(false)
    else
      var words := Split(line);
      LexAllSpace(line);
      if words == [] then Err(IndexOutOfRange)
      else
        var first := words[0];
        PrefixedFormNeverMatches(first);
        if LowerStr(first) == "FCM:" || LowerStr(first) == "SPLIT:" then Ok(true)
        else Ok(IsNumeric(first) && DigitsValue(first) != current)
  }

  // ---------------------------------------------------------------------
  // Cutting the body into events

  /** The state of the loop in `from_file` after some body lines: the groups
      of lines flushed so far (kept for the proofs), their events, the lines
      of the event being read, and the current event number. */
  datatype Scan = Scan(groups: seq<seq<string>>, events: seq<Events.Event>, buffer: seq<string>, current: nat)

  /** Reading the buffered lines as one event and starting an empty buffer. */
  function Flush(s: Scan): (r: Result<Scan>)
    ensures r.Ok? <==> Events.EventOf(JoinLines(s.buffer)).Ok?
    ensures r.Err? ==> r.error == Events.EventOf(JoinLines(s.buffer)).error
    ensures r.Ok? ==> r.value == Scan(s.groups + [s.buffer], s.events + [Events.EventOf(JoinLines(s.buffer)).value], [], 0)
  {
    var e :- Events.EventOf(JoinLines(s.buffer));
    Ok(Scan(s.groups + [s.buffer], s.events + [e], [], 0))
  }

  /** One non-empty body line: flush when a new event begins, take the
      line's number as the current one, and buffer the line. A blank line
      always raises; the only other error is the flushed event's. */
  function StepLine(s: Scan, line: string): (r: Result<Scan>)
    ensures AllSpace(line) ==> r.Err?
    ensures r.Err? ==>
      || r.error == IndexOutOfRange
      || (s.buffer != [] && Events.EventOf(JoinLines(s.buffer)).Err? && r.error == Events.EventOf(JoinLines(s.buffer)).error)
    ensures r.Ok? ==> r.value.buffer != [] && r.value.buffer[|r.value.buffer| - 1] == line
    ensures r.Ok? ==> r.value.groups == s.groups || r.value.groups == s.groups + [s.buffer]
  {
    LexAllSpace(line);
    var begin :- if s.buffer != [] then IsBeginNewEvent(line, s.current) else Ok(false);
    var t :- if begin then Flush(s) else Ok(s);
    if Split(line) == [] then Err(IndexOutOfRange)
    else
      var current := match LeadingNumber(line) case Some(v) => v case None => t.current;
      Ok(t.(buffer := t.buffer + [line], current := current))
  }

  /** The loop over the body lines: empty lines are skipped and an error at
      body line `n` (from 0) is raised again as "Line {n+2}". */
  function ScanLines(body: seq<string>): (r: Result<Scan>)
    ensures r.Err? ==> r.error.AtLine? && 2 <= r.error.line <= |body| + 1
  {
    if body == [] then Ok(Scan([], [], [], 0))
    else
      var n := |body| - 1;
      var s :- ScanLines(body[..n]);
      if body[n] == "" then Ok(s)
      else
        match StepLine(s, body[n])
        case Ok(t) => Ok(t)
        case Err(e) => Err(AtLine(n + 2, e))
  }

  /** The loop followed by the flush of the last event, whose error is not
      wrapped. */
  function Segmentation(body: seq<string>): Result<Scan> {
    var s :- ScanLines(body);
    if s.buffer == [] then Ok(s) else Flush(s)
  }

  /** The events of a body. */
  function EventsOfBody(body: seq<string>): Result<seq<Events.Event>> {
    var s :- Segmentation(body);
    Ok(s.events)
  }

  lemma ScanLinesStep(body: seq<string>, n: nat)
    requires n < |body|
    ensures ScanLines(body[..n + 1]) ==
      match ScanLines(body[..n])
      case Err(e) => Err(e)
      case Ok(s) =>
        if body[n] == "" then Ok(s)
        else match StepLine(s, body[n])
          case Ok(t) => Ok(t)
          case Err(e) => Err(AtLine(n + 2, e))
  {
    assert body[..n + 1][..n] == body[..n];
  }

  /** Once the loop has failed, the remaining lines do not matter. */
  lemma {:induction false} ScanLinesPrefixErr(body: seq<string>, k: nat)
    requires k <= |body| && ScanLines(body[..k]).Err?
    ensures ScanLines(body) == ScanLines(body[..k])
    decreases |body| - k
  {
    if k == |body| {
      assert body[..k] == body;
    } else {
      ScanLinesStep(body, k);
      ScanLinesPrefixErr(body, k + 1);
    }
  }

  /** `from_file`'s loop and final flush over the body lines. */
  method SegmentBody(body: seq<string>) returns (r: Result<seq<Events.Event>>)
    ensures r == EventsOfBody(body)
  {
    var events: seq<Events.Event> := [];
    var buffer: seq<string> := [];
    var current: nat := 0;
    ghost var groups: seq<seq<string>> := [];
    var n := 0;
    assert body[..0] == [];
    while n < |body|
      invariant n <= |body|
      invariant ScanLines(body[..n]) == Ok(Scan(groups, events, buffer, current))
    {
      var line := body[n];
      ScanLinesStep(body, n);
      ghost var s := Scan(groups, events, buffer, current);
      if line != "" {
        var begin := false;
        if buffer != [] {
          var b := IsBeginNewEvent(line, current);
          if b.Err? {
            ScanLinesPrefixErr(body, n + 1);
            return Err(AtLine(n + 2, b.error));
          }
          begin := b.value;
        }
        if begin {
          var e := Events.FromString(JoinLines(buffer));
          if e.Err? {
            ScanLinesPrefixErr(body, n + 1);
            return Err(AtLine(n + 2, e.error));
          }
          groups, events, buffer, current := groups + [buffer], events + [e.value], [], 0;
        }
        var words := Split(line);
        if words == [] {
          ScanLinesPrefixErr(body, n + 1);
          return Err(AtLine(n + 2, IndexOutOfRange));
        }
        if IsNumeric(words[0]) {
          current := DigitsValue(words[0]);
        }
        buffer := buffer + [line];
        assert StepLine(s, line) == Ok(Scan(groups, events, buffer, current));
      }
      n := n + 1;
    }
    assert body[..n] == body;
    if buffer != [] {
      var e := Events.FromString(JoinLines(buffer));
      if e.Err? {
        return Err(e.error);
      }
      events := events + [e.value];
    }
    return Ok(events);
  }

  // ---------------------------------------------------------------------
  // What the segmentation keeps

  /** The lines of the groups, in order. */
  function Concat(groups: seq<seq<string>>): seq<string> {
    if groups == [] then [] else Concat(groups[..|groups| - 1]) + groups[|groups| - 1]
  }

  /** The body lines the loop does not skip, in order. */
  function NonEmptyLines(body: seq<string>): (r: seq<string>)
    ensures forall i | 0 <= i < |r| :: r[i] != ""
  {
    if body == [] then []
    else if body[|body| - 1] == "" then NonEmptyLines(body[..|body| - 1])
    else NonEmptyLines(body[..|body| - 1]) + [body[|body| - 1]]
  }

  /** The number of the last numbered line, 0 when there is none. */
  function LastNumber(lines: seq<string>): nat {
    if lines == [] then 0
    else match LeadingNumber(lines[|lines| - 1])
      case Some(v) => v
      case None => LastNumber(lines[..|lines| - 1])
  }

  /** The groups and the buffer hold exactly the lines read, in order. */
  predicate HoldsLines(s: Scan, kept: seq<string>) {
    Concat(s.groups) + s.buffer == kept
  }

  /** Each group is non-empty and its event is the one read from its text. */
  predicate GroupsRead(s: Scan) {
    && |s.events| == |s.groups|
    && forall i | 0 <= i < |s.groups| :: s.groups[i] != [] && Events.EventOf(JoinLines(s.groups[i])) == Ok(s.events[i])
  }

  /** Every group but the first, and the buffer once a group has been
      flushed, starts with a numbered line. */
  predicate GroupsNumbered(s: Scan) {
    && (forall i | 0 < i < |s.groups| :: s.groups[i] != [] && LeadingNumber(s.groups[i][0]).Some?)
    && (s.groups != [] ==> s.buffer != [] && LeadingNumber(s.buffer[0]).Some?)
  }

  /** What the loop keeps true of its state for the lines `kept` it has read;
      the current number is that of the buffer's last numbered line. */
  predicate Consistent(s: Scan, kept: seq<string>) {
    HoldsLines(s, kept) && GroupsRead(s) && GroupsNumbered(s) && s.current == LastNumber(s.buffer)
  }

  /** What one step leaves, when it succeeds: either the buffer is flushed
      and the line starts the next one, or the line joins the buffer. */
  lemma StepLineShape(s: Scan, line: string)
    requires StepLine(s, line).Ok? && s.current == LastNumber(s.buffer)
    ensures var r := StepLine(s, line).value;
      if s.buffer != [] && IsBeginNewEvent(line, s.current) == Ok(true) then
        && LeadingNumber(line).Some?
        && Events.EventOf(JoinLines(s.buffer)).Ok?
        && r == Scan(s.groups + [s.buffer], s.events + [Events.EventOf(JoinLines(s.buffer)).value], [line], LeadingNumber(line).value)
      else
        r == s.(buffer := s.buffer + [line], current := LastNumber(s.buffer + [line]))
  {
    LastNumberSnoc(s.buffer, line);
    Events.EmptyAppend([line]);
    if s.buffer != [] && IsBeginNewEvent(line, s.current) == Ok(true) {
      assert Flush(s).Ok?;
    }
  }

  lemma LastNumberSnoc(lines: seq<string>, line: string)
    ensures LastNumber(lines + [line]) == match LeadingNumber(line) case Some(v) => v case None => LastNumber(lines)
  {
    assert (lines + [line])[..|lines|] == lines;
  }

  lemma FlushHoldsLines(s: Scan, kept: seq<string>, line: string, e: Events.Event, v: nat)
    requires HoldsLines(s, kept)
    ensures HoldsLines(Scan(s.groups + [s.buffer], s.events + [e], [line], v), kept + [line])
  {
    var g := s.groups + [s.buffer];
    assert g[..|g| - 1] == s.groups;
  }

  lemma FlushGroupsRead(s: Scan, line: string, e: Events.Event, v: nat)
    requires GroupsRead(s) && s.buffer != [] && Events.EventOf(JoinLines(s.buffer)) == Ok(e)
    ensures GroupsRead(Scan(s.groups + [s.buffer], s.events + [e], [line], v))
  {
  }

  lemma FlushGroupsNumbered(s: Scan, line: string, e: Events.Event)
    requires GroupsNumbered(s) && s.buffer != [] && LeadingNumber(line).Some?
    ensures GroupsNumbered(Scan(s.groups + [s.buffer], s.events + [e], [line], LeadingNumber(line).value))
  {
    var g := s.groups + [s.buffer];
    forall i | 0 < i < |g| ensures g[i] != [] && LeadingNumber(g[i][0]).Some? {
      if i < |s.groups| {
        assert g[i] == s.groups[i];
      }
    }
  }

  lemma FlushConsistent(s: Scan, kept: seq<string>, line: string, e: Events.Event)
    requires Consistent(s, kept) && s.buffer != [] && LeadingNumber(line).Some?
    requires Events.EventOf(JoinLines(s.buffer)) == Ok(e)
    ensures Consistent(Scan(s.groups + [s.buffer], s.events + [e], [line], LeadingNumber(line).value), kept + [line])
  {
    FlushHoldsLines(s, kept, line, e, LeadingNumber(line).value);
    FlushGroupsRead(s, line, e, LeadingNumber(line).value);
    FlushGroupsNumbered(s, line, e);
    assert [line][..0] == [];
  }

  lemma AppendConsistent(s: Scan, kept: seq<string>, line: string)
    requires Consistent(s, kept)
    ensures Consistent(s.(buffer := s.buffer + [line], current := LastNumber(s.buffer + [line])), kept + [line])
  {
    assert Concat(s.groups) + (s.buffer + [line]) == kept + [line];
  }

  lemma StepLineConsistent(s: Scan, kept: seq<string>, line: string)
    requires Consistent(s, kept) && StepLine(s, line).Ok?
    ensures Consistent(StepLine(s, line).value, kept + [line])
  {
    StepLineShape(s, line);
    if s.buffer != [] && IsBeginNewEvent(line, s.current) == Ok(true) {
      FlushConsistent(s, kept, line, Events.EventOf(JoinLines(s.buffer)).value);
    } else {
      AppendConsistent(s, kept, line);
    }
  }

  lemma {:induction false} ScanLinesConsistent(body: seq<string>)
    ensures ScanLines(body).Ok? ==> Consistent(ScanLines(body).value, NonEmptyLines(body))
  {
    if body != [] {
      var n := |body| - 1;
      ScanLinesConsistent(body[..n]);
      ScanLinesStep(body, n);
      assert body[..n + 1] == body;
      if ScanLines(body[..n]).Ok? && body[n] != "" && StepLine(ScanLines(body[..n]).value, body[n]).Ok? {
        StepLineConsistent(ScanLines(body[..n]).value, NonEmptyLines(body[..n]), body[n]);
      }
    }
  }

  /** The flushed groups, concatenated, are the non-empty body lines in
      order; each group is non-empty and gives its event; a group after the
      first always starts with a numbered line, so unnumbered lines never
      start an event. */
  lemma SegmentationKeepsLines(body: seq<string>)
    requires Segmentation(body).Ok?
    ensures Concat(Segmentation(body).value.groups) == NonEmptyLines(body)
    ensures |Segmentation(body).value.events| == |Segmentation(body).value.groups|
    ensures forall i | 0 <= i < |Segmentation(body).value.groups| ::
      Segmentation(body).value.groups[i] != [] &&
      Events.EventOf(JoinLines(Segmentation(body).value.groups[i])) == Ok(Segmentation(body).value.events[i])
    ensures forall i | 0 < i < |Segmentation(body).value.groups| :: LeadingNumber(Segmentation(body).value.groups[i][0]).Some?
  {
    ScanLinesConsistent(body);
    var s := ScanLines(body).value;
    if s.buffer != [] {
      var g := s.groups + [s.buffer];
      assert Segmentation(body).value.groups == g;
      assert g[..|g| - 1] == s.groups;
      forall i | 0 < i < |g| ensures g[i] != [] && LeadingNumber(g[i][0]).Some? {
        if i < |s.groups| {
          assert g[i] == s.groups[i];
        }
      }
    } else {
      assert Concat(s.groups) + [] == Concat(s.groups);
    }
  }

  /** A body line made only of whitespace (but not empty) fails the whole
      file with an IndexError reported at "Line {n+2}", whether or not an
      event is open. */
  lemma BlankLineFails(body: seq<string>, n: nat)
    requires n < |body| && body[n] != "" && AllSpace(body[n])
    requires ScanLines(body[..n]).Ok?
    ensures ScanLines(body[..n + 1]) == Err(AtLine(n + 2, IndexOutOfRange))
    ensures EventsOfBody(body) == Err(AtLine(n + 2, IndexOutOfRange))
  {
    ScanLinesStep(body, n);
    LexAllSpace(body[n]);
    ScanLinesPrefixErr(body, n + 1);
  }

  // ---------------------------------------------------------------------
  // Reading a file

  /** What a title must be once its setter has accepted it: non-empty,
      trimmed and a single line. */
  predicate TitleAccepted(t: string) {
    t != [] && Strip(t) == t && NoLineBreak(t)
  }

  /** The title setter's checks: the trimmed title must not be empty and must
      not split into more than one line. */
  function CheckTitle(t: string): (r: Result<string>)
    ensures r.Ok? <==> !AllSpace(t) && NoLineBreak(Strip(t))
    ensures AllSpace(t) ==> r == Err(EmptyTitle)
    ensures !AllSpace(t) && !NoLineBreak(Strip(t)) ==> r == Err(MultilineTitle)
    ensures r.Ok? ==> r.value == Strip(t) && TitleAccepted(r.value)
  {
    var s := Strip(t);
    StripShape(t);
    StripIdempotent(t);
    if |s| == 0 then Err(EmptyTitle)
    else
      SplitLinesSingle(s);
      if |SplitLines(s)| > 1 then Err(MultilineTitle) else Ok(s)
  }

  /** An accepted title passes the setter unchanged, so setting a title twice
      is setting it once. */
  lemma CheckTitleAccepted(t: string)
    ensures CheckTitle(t) == Ok(t) <==> TitleAccepted(t)
    ensures CheckTitle(t).Ok? ==> CheckTitle(CheckTitle(t).value) == CheckTitle(t)
  {
    StripShape(t);
    if CheckTitle(t).Ok? {
      StripShape(Strip(t));
    }
  }

  /** What `from_file` builds, as a value. */
  datatype Document = Document(title: string, fcm: FrameCounting.Fcm, events: seq<Events.Event>)

  /** `from_file`: the title line, the FCM line when the second line is one
      (PAL otherwise, with that line left to the body), the events of the
      body, and then the setters' checks on the title. A bad title line is
      reported first and a bad FCM line second; a document read has the
      title found on the title line, which the setter accepts, the FCM of the
      FCM line or PAL when there is none, and the body's events. */
  function Parse(lines: seq<string>): (r: Result<Document>)
    ensures ParseTitle(TitleLine(lines)).Err? ==> r == Err(ParseTitle(TitleLine(lines)).error)
    ensures ParseTitle(TitleLine(lines)).Ok? && FcmGiven(lines) && ParseFcm(lines[1]).Err?
      ==> r == Err(ParseFcm(lines[1]).error)
    ensures r.Ok? ==> ParseTitle(TitleLine(lines)) == Ok(r.value.title) && TitleAccepted(r.value.title)
    ensures r.Ok? && FcmGiven(lines) ==> ParseFcm(lines[1]) == Ok(r.value.fcm)
    ensures r.Ok? && !FcmGiven(lines) ==> r.value.fcm == FrameCounting.Pal
    ensures r.Ok? ==> EventsOfBody(Body(lines)) == Ok(r.value.events)
  {
    var title :- ParseTitle(TitleLine(lines));
    var fcm :- if FcmGiven(lines) then ParseFcm(lines[1]) else Ok(FrameCounting.Pal);
    var events :- EventsOfBody(Body(lines));
    var t :- CheckTitle(title);
    assert t == title;
    Ok(Document(t, fcm, events))
  }

  /** A body line made only of whitespace fails the file with "Line {n+2}"
      for body line `n` (from 0). That line is line `n + HeaderSize(lines) + 1`
      of the file (from 1), so the report is right without an FCM line and
      one short with it. */
  lemma BlankLineReported(lines: seq<string>, n: nat)
    requires ParseTitle(TitleLine(lines)).Ok?
    requires FcmGiven(lines) ==> ParseFcm(lines[1]).Ok?
    requires n < |Body(lines)| && Body(lines)[n] != "" && AllSpace(Body(lines)[n])
    requires ScanLines(Body(lines)[..n]).Ok?
    ensures Parse(lines) == Err(AtLine(n + 2, IndexOutOfRange))
    ensures n + HeaderSize(lines) < |lines| && lines[n + HeaderSize(lines)] == Body(lines)[n]
  {
    BlankLineFails(Body(lines), n);
    ParseBodyErr(lines);
    BodyLineOfFile(lines, n);
  }

  /** Body line `n` (from 0) is file line `n + HeaderSize(lines)` (from 0). */
  lemma BodyLineOfFile(lines: seq<string>, n: nat)
    requires n < |Body(lines)|
    ensures n + HeaderSize(lines) < |lines| && lines[n + HeaderSize(lines)] == Body(lines)[n]
  {
  }

  /** With a good header, an error of the body is the error of the file. */
  lemma ParseBodyErr(lines: seq<string>)
    requires ParseTitle(TitleLine(lines)).Ok?
    requires FcmGiven(lines) ==> ParseFcm(lines[1]).Ok?
    requires EventsOfBody(Body(lines)).Err?
    ensures Parse(lines) == Err(EventsOfBody(Body(lines)).error)
  {
  }

  /** A title found by `from_file` is trimmed and non-empty, so the title
      setter rejects it only for a line break inside it. */
  lemma ParsedTitleChecked(lines: seq<string>)
    requires ParseTitle(TitleLine(lines)).Ok?
    ensures var t := ParseTitle(TitleLine(lines)).value;
      CheckTitle(t) == (if NoLineBreak(t) then Ok(t) else Err(MultilineTitle))
  {
    var t := ParseTitle(TitleLine(lines)).value;
    StripShape(t);
    CheckTitleAccepted(t);
  }

  // ---------------------------------------------------------------------
  // Printing

  /** `header`: the title line, and the FCM line unless the FCM is PAL. */
  function HeaderText(title: string, fcm: FrameCounting.Fcm): (r: string)
    ensures |r| >= 7 + |title| && r[..7 + |title|] == "TITLE: " + title
    ensures fcm == FrameCounting.Pal <==> |r| == 7 + |title|
  {
    "TITLE: " + title + (if fcm != FrameCounting.Pal then "\nFCM: " + FrameCounting.Value(fcm) else "")
  }

  /** The lines of the header. */
  function HeaderLines(title: string, fcm: FrameCounting.Fcm): (r: seq<string>)
    ensures |r| == (if fcm != FrameCounting.Pal then 2 else 1)
  {
    ["TITLE: " + title] + (if fcm != FrameCounting.Pal then ["FCM: " + FrameCounting.Value(fcm)] else [])
  }

  /** The header is its lines joined by newlines. */
  lemma HeaderTextLines(title: string, fcm: FrameCounting.Fcm)
    ensures HeaderText(title, fcm) == JoinLines(HeaderLines(title, fcm))
  {
    var ls := HeaderLines(title, fcm);
    if fcm != FrameCounting.Pal {
      assert ls[1..] == ["FCM: " + FrameCounting.Value(fcm)];
    }
  }

  lemma TitleLineRead(title: string)
    requires TitleAccepted(title)
    ensures ParseTitle("TITLE: " + title) == Ok(title)
    ensures !IsFcmLine("TITLE: " + title)
  {
    var line := "TITLE: " + title;
    var l := LowerStr(line);
    assert l[..6] == "title:" by {
      assert l[0] == 't' && l[1] == 'i' && l[2] == 't' && l[3] == 'l' && l[4] == 'e' && l[5] == ':';
    }
    assert line[6..] == " " + title;
    StripPadded(" ", title, "");
    assert " " + title + "" == " " + title;
    assert UpperStr(line)[0] == 'T';
  }

  lemma FcmLineRead(fcm: FrameCounting.Fcm)
    ensures IsFcmLine("FCM: " + FrameCounting.Value(fcm))
    ensures ParseFcm("FCM: " + FrameCounting.Value(fcm)) == Ok(fcm)
  {
    var v := FrameCounting.Value(fcm);
    var line := "FCM: " + v;
    FcmPrefixCases(v);
    assert line[4..] == " " + v + "";
    StripPadded(" ", v, "");
    FrameCounting.FromValueOfValue(fcm);
  }

  lemma FcmPrefixCases(v: string)
    ensures "FCM:" <= UpperStr("FCM: " + v) && "fcm:" <= LowerStr("FCM: " + v)
  {
    var line := "FCM: " + v;
    var u, l := UpperStr(line), LowerStr(line);
    assert u[..4] == "FCM:" by {
      assert u[0] == 'F' && u[1] == 'C' && u[2] == 'M' && u[3] == ':';
    }
    assert l[..4] == "fcm:" by {
      assert l[0] == 'f' && l[1] == 'c' && l[2] == 'm' && l[3] == ':';
    }
  }

  /** Reading a printed header gives back its title and FCM, and leaves the
      lines after it to the body as long as the first of them is not an FCM
      line; the file is then whatever its body makes of it. */
  lemma HeaderRoundTrip(title: string, fcm: FrameCounting.Fcm, body: seq<string>)
    requires TitleAccepted(title)
    requires body == [] || !IsFcmLine(body[0])
    ensures var lines := HeaderLines(title, fcm) + body;
      && ParseTitle(TitleLine(lines)) == Ok(title)
      && FcmGiven(lines) == (fcm != FrameCounting.Pal)
      && (fcm != FrameCounting.Pal ==> ParseFcm(lines[1]) == Ok(fcm))
      && Body(lines) == body
      && Parse(lines) == match EventsOfBody(body)
         case Ok(es) => Ok(Document(title, fcm, es))
         case Err(e) => Err(e)
  {
    HeaderLinesShape(title, fcm, body);
    TitleLineRead(title);
    FcmLineRead(fcm);
    CheckTitleAccepted(title);
  }

  /** Where the printed header's lines sit among the lines of the file. */
  lemma HeaderLinesShape(title: string, fcm: FrameCounting.Fcm, body: seq<string>)
    requires TitleAccepted(title)
    requires body == [] || !IsFcmLine(body[0])
    ensures var lines := HeaderLines(title, fcm) + body;
      && TitleLine(lines) == "TITLE: " + title
      && FcmGiven(lines) == (fcm != FrameCounting.Pal)
      && (fcm != FrameCounting.Pal ==> lines[1] == "FCM: " + FrameCounting.Value(fcm))
      && Body(lines) == body
  {
    var lines := HeaderLines(title, fcm) + body;
    FcmLineRead(fcm);
    if fcm != FrameCounting.Pal {
      assert lines[2..] == body;
    } else {
      assert lines[1..] == body;
    }
  }

  // ---------------------------------------------------------------------
  // The sets an EDL collects

  /** `a.union(b)` for sets whose elements hash and compare by name: every
      name of either, and for a name both hold, the element of `a`. */
  function Union<T>(a: map<string, T>, b: map<string, T>): (r: map<string, T>)
    ensures r.Keys == a.Keys + b.Keys
    ensures forall k | k in a :: r[k] == a[k]
    ensures forall k | k in b && k !in a :: r[k] == b[k]
  {
    b + a
  }

  /** The union of the sets in order, starting from the empty set. */
  function UnionAll<T>(ms: seq<map<string, T>>): map<string, T> {
    if ms == [] then map[] else Union(UnionAll(ms[..|ms| - 1]), ms[|ms| - 1])
  }

  /** The union holds a name exactly when one of the sets does. */
  lemma {:induction false} UnionAllKeys<T>(ms: seq<map<string, T>>)
    ensures forall k :: k in UnionAll(ms) <==> exists i | 0 <= i < |ms| :: k in ms[i]
  {
    if ms != [] {
      var n := |ms| - 1;
      var init := ms[..n];
      UnionAllKeys(init);
      forall k ensures k in UnionAll(ms) <==> exists i | 0 <= i < |ms| :: k in ms[i] {
        if k in UnionAll(init) {
          var i :| 0 <= i < |init| && k in init[i];
          assert init[i] == ms[i];
        }
        if exists i | 0 <= i < |ms| :: k in ms[i] {
          var i :| 0 <= i < |ms| && k in ms[i];
          if i < n {
            assert init[i] == ms[i];
          }
        }
      }
    }
  }

  /** For each name of the union, the element is the one from the first set
      holding that name. */
  lemma {:induction false} UnionAllFirst<T>(ms: seq<map<string, T>>)
    ensures forall k | k in UnionAll(ms) :: exists i | 0 <= i < |ms| ::
      k in ms[i] && UnionAll(ms)[k] == ms[i][k] && forall j | 0 <= j < i :: k !in ms[j]
  {
    if ms != [] {
      var n := |ms| - 1;
      var init := ms[..n];
      UnionAllFirst(init);
      UnionAllKeys(init);
      forall k | k in UnionAll(ms) ensures exists i | 0 <= i < |ms| ::
        k in ms[i] && UnionAll(ms)[k] == ms[i][k] && forall j | 0 <= j < i :: k !in ms[j]
      {
        if k in UnionAll(init) {
          var i :| 0 <= i < |init| && k in init[i] && UnionAll(init)[k] == init[i][k] && forall j | 0 <= j < i :: k !in init[j];
          assert init[i] == ms[i];
          assert forall j | 0 <= j < i :: init[j] == ms[j];
        } else {
          assert k in ms[n];
          forall j | 0 <= j < n ensures k !in ms[j] {
            assert init[j] == ms[j];
          }
        }
      }
    }
  }

  /** The track sets of the events, in order. */
  function TrackSets(events: seq<Events.Event>): (r: seq<map<string, Tracks.Track>>)
    ensures |r| == |events| && forall i | 0 <= i < |events| :: r[i] == Events.TracksOf(events[i].statements)
  {
    seq(|events|, i requires 0 <= i < |events| => Events.TracksOf(events[i].statements))
  }

  /** The source sets of the events, in order. */
  function SourceSets(events: seq<Events.Event>): (r: seq<map<string, Sources.SourceReel>>)
    ensures |r| == |events| && forall i | 0 <= i < |events| :: r[i] == Events.SourcesOf(events[i].statements)
  {
    seq(|events|, i requires 0 <= i < |events| => Events.SourcesOf(events[i].statements))
  }

  /** `Edl.tracks` holds a name exactly when some statement of some event
      is on a track of that name. */
  lemma UsedTrackNames(events: seq<Events.Event>, k: string)
    ensures k in UnionAll(TrackSets(events)) <==>
      exists i, j | 0 <= i < |events| && 0 <= j < |events[i].statements| :: Tracks.Name(events[i].statements[j].track) == k
  {
    var ms := TrackSets(events);
    UnionAllKeys(ms);
    forall i | 0 <= i < |events|
      ensures k in ms[i] <==> exists j | 0 <= j < |events[i].statements| :: Tracks.Name(events[i].statements[j].track) == k
    {
      Events.TracksOfMembers(events[i].statements);
    }
  }

  /** `Edl.sources` holds a name exactly when some statement of some event
      is from a reel of that name. */
  lemma UsedSourceNames(events: seq<Events.Event>, k: string)
    ensures k in UnionAll(SourceSets(events)) <==>
      exists i, j | 0 <= i < |events| && 0 <= j < |events[i].statements| :: Sources.Name(events[i].statements[j].source) == k
  {
    var ms := SourceSets(events);
    UnionAllKeys(ms);
    forall i | 0 <= i < |events|
      ensures k in ms[i] <==> exists j | 0 <= j < |events[i].statements| :: Sources.Name(events[i].statements[j].source) == k
    {
      Events.SourcesOfMembers(events[i].statements);
    }
  }

  /** The text `write` prints for the events: each event and a newline, so
      the text is empty exactly without events and otherwise ends with a
      newline. */
  function EventsText(events: seq<Events.Event>, formatSpeed: string -> string): (r: string)
    ensures r == [] <==> events == []
    ensures r != [] ==> r[|r| - 1] == '\n'
  {
    if events == [] then ""
    else EventsText(events[..|events| - 1], formatSpeed) + Events.Render(events[|events| - 1], formatSpeed) + "\n"
  }

  // ---------------------------------------------------------------------
  // Printing a file and reading it back

  /** Lines each followed by "\n", as `print` writes them. */
  function Terminated(lines: seq<string>): string {
    if lines == [] then "" else lines[0] + "\n" + Terminated(lines[1..])
  }

  /** The position of the first "\n" in `text`, or its length. */
  function NewlineIndex(text: string): (n: nat)
    ensures n <= |text| && forall i | 0 <= i < n :: text[i] != '\n'
    ensures n < |text| ==> text[n] == '\n'
  {
    if text == [] || text[0] == '\n' then 0 else 1 + NewlineIndex(text[1..])
  }

  /** `readlines()` with each line's "\n" removed by `rstrip('\n')`: the
      text cut after each "\n". */
  function ReadLines(text: string): seq<string>
    decreases |text|
  {
    if text == [] then []
    else
      var n := NewlineIndex(text);
      if n == |text| then [text] else [text[..n]] + ReadLines(text[n + 1..])
  }

  lemma {:induction false} NewlineIndexExact(text: string, n: nat)
    requires n < |text| && text[n] == '\n' && forall i | 0 <= i < n :: text[i] != '\n'
    ensures NewlineIndex(text) == n
  {
    if n > 0 {
      NewlineIndexExact(text[1..], n - 1);
    }
  }

  lemma ReadLinesCons(line: string, rest: string)
    requires NoLineBreak(line)
    ensures ReadLines(line + "\n" + rest) == [line] + ReadLines(rest)
  {
    var text := line + "\n" + rest;
    assert IsLineBreak('\n');
    NewlineIndexExact(text, |line|);
    assert text[..|line|] == line;
    assert text[|line| + 1..] == rest;
  }

  /** Reading back lines that were each printed with a newline gives those
      lines. */
  lemma {:induction false} ReadTerminated(lines: seq<string>)
    requires SingleLines(lines)
    ensures ReadLines(Terminated(lines)) == lines
  {
    if lines != [] {
      ReadTerminated(lines[1..]);
      ReadLinesCons(lines[0], Terminated(lines[1..]));
    }
  }

  lemma {:induction false} TerminatedAppend(a: seq<string>, b: seq<string>)
    ensures Terminated(a + b) == Terminated(a) + Terminated(b)
  {
    if a == [] {
      assert a + b == b;
    } else {
      TerminatedAppend(a[1..], b);
      assert (a + b)[1..] == a[1..] + b;
    }
  }

  /** Printing lines joined by newlines adds the last newline. */
  lemma {:induction false} JoinTerminated(lines: seq<string>)
    requires lines != []
    ensures JoinLines(lines) + "\n" == Terminated(lines)
  {
    if |lines| > 1 {
      JoinTerminated(lines[1..]);
    }
  }

  /** The lines `write` prints for events without notes or comments: each
      event's statements, then two empty lines. */
  function BodyLines(es: seq<Events.Event>): seq<string> {
    if es == [] then []
    else BodyLines(es[..|es| - 1]) + (Events.StatementTexts(es[|es| - 1].statements) + ["", ""])
  }

  /** Events printed with `print` are their body lines, each with a newline. */
  lemma {:induction false} EventsTextLines(es: seq<Events.Event>, formatSpeed: string -> string)
    requires forall i | 0 <= i < |es| :: es[i].statements != [] && es[i].notes == [] && es[i].comments == []
    ensures EventsText(es, formatSpeed) == Terminated(BodyLines(es))
  {
    if es != [] {
      var n := |es| - 1;
      var e := es[n];
      var texts := Events.StatementTexts(e.statements);
      var init := es[..n];
      assert forall i | 0 <= i < |init| :: init[i] == es[i];
      EventsTextLines(init, formatSpeed);
      Events.RenderSeparators(e, formatSpeed);
      EventLinesTerminated(texts);
      TerminatedAppend(BodyLines(init), texts + ["", ""]);
      var a, j := EventsText(init, formatSpeed), JoinLines(texts);
      calc {
        EventsText(es, formatSpeed);
        a + Events.Render(e, formatSpeed) + "\n";
        a + (j + "\n\n") + "\n";
        { Assoc3(a, j + "\n\n", "\n"); }
        a + (j + "\n\n" + "\n");
        Terminated(BodyLines(init)) + Terminated(texts + ["", ""]);
        Terminated(BodyLines(init) + (texts + ["", ""]));
      }
    }
  }

  /** An event's statement lines and the two empty lines after them. */
  lemma EventLinesTerminated(texts: seq<string>)
    requires texts != []
    ensures JoinLines(texts) + "\n\n" + "\n" == Terminated(texts + ["", ""])
  {
    JoinTerminated(texts);
    TerminatedAppend(texts, ["", ""]);
    assert Terminated(["", ""]) == "\n\n" by {
      assert ["", ""][1..] == [""];
      assert [""][1..] == [];
    }
  }

  /** Lines none of which holds a line break. */
  predicate SingleLines(lines: seq<string>) {
    forall k | 0 <= k < |lines| :: NoLineBreak(lines[k])
  }

  lemma SingleLinesAppend(a: seq<string>, b: seq<string>)
    requires SingleLines(a) && SingleLines(b)
    ensures SingleLines(a + b)
  {
  }

  lemma HeaderSingleLines(title: string, fcm: FrameCounting.Fcm)
    requires TitleAccepted(title)
    ensures SingleLines(HeaderLines(title, fcm))
  {
    TitleHeaderLine(title);
    FcmHeaderLine(fcm);
  }

  lemma TitleHeaderLine(title: string)
    requires NoLineBreak(title)
    ensures NoLineBreak("TITLE: " + title)
  {
    assert NoLineBreak("TITLE: ");
  }

  lemma FcmHeaderLine(fcm: FrameCounting.Fcm)
    ensures NoLineBreak("FCM: " + FrameCounting.Value(fcm))
  {
    assert NoLineBreak("FCM: ");
    assert NoLineBreak(FrameCounting.Value(fcm));
  }

  lemma {:induction false} BodyLinesAreLines(es: seq<Events.Event>)
    requires forall i | 0 <= i < |es| :: forall j | 0 <= j < |es[i].statements| :: SF.Printable(es[i].statements[j])
    ensures SingleLines(BodyLines(es))
  {
    if es != [] {
      var n := |es| - 1;
      BodyLinesAreLines(es[..n]);
      var texts := Events.StatementTexts(es[n].statements);
      forall k | 0 <= k < |texts| ensures NoLineBreak(texts[k]) {
        Events.PrintedStatementIsLine(es[n].statements[k]);
      }
      SingleLinesAppend(texts, ["", ""]);
      SingleLinesAppend(BodyLines(es[..n]), texts + ["", ""]);
    }
  }

  /** The lines of a printed EDL whose events have neither notes nor
      comments. */
  lemma PrintedLines(title: string, fcm: FrameCounting.Fcm, es: seq<Events.Event>, formatSpeed: string -> string)
    requires TitleAccepted(title)
    requires forall i | 0 <= i < |es| :: es[i].statements != [] && es[i].notes == [] && es[i].comments == []
    requires forall i | 0 <= i < |es| :: forall j | 0 <= j < |es[i].statements| :: SF.Printable(es[i].statements[j])
    ensures ReadLines(HeaderText(title, fcm) + "\n" + EventsText(es, formatSpeed)) == HeaderLines(title, fcm) + BodyLines(es)
  {
    var hl, bl := HeaderLines(title, fcm), BodyLines(es);
    HeaderSingleLines(title, fcm);
    BodyLinesAreLines(es);
    SingleLinesAppend(hl, bl);
    calc {
      ReadLines(HeaderText(title, fcm) + "\n" + EventsText(es, formatSpeed));
      { HeaderTextLines(title, fcm); JoinTerminated(hl); }
      ReadLines(Terminated(hl) + EventsText(es, formatSpeed));
      { EventsTextLines(es, formatSpeed); }
      ReadLines(Terminated(hl) + Terminated(bl));
      { TerminatedAppend(hl, bl); }
      ReadLines(Terminated(hl + bl));
      { ReadTerminated(hl + bl); }
      hl + bl;
    }
  }

  /** The number the statements of an event print with. */
  function EventNumber(e: Events.Event): nat
    requires e.statements != []
  {
    SF.PrintedNumber(e.statements[0])
  }

  /** An event that is read back from its printed lines: valid, statements
      only, each printable, all printing the same number, and that number
      not 0 (a current number of 0 never lets the next event begin). */
  predicate Reprintable(e: Events.Event) {
    && Events.Valid(e) && e.notes == [] && e.comments == []
    && EventNumber(e) != 0
    && forall j | 0 <= j < |e.statements| :: SF.Printable(e.statements[j]) && SF.PrintedNumber(e.statements[j]) == EventNumber(e)
  }

  /** Events read back from their printed lines: each is, and neighbours
      print different numbers. */
  predicate ReprintableAll(es: seq<Events.Event>) {
    && (forall i | 0 <= i < |es| :: Reprintable(es[i]))
    && (forall i | 0 < i < |es| :: EventNumber(es[i - 1]) != EventNumber(es[i]))
  }

  /** What an event is read back as: its statements normalized. */
  function NormalizedEvent(e: Events.Event): Events.Event {
    Events.Event(Events.NormalizedAll(e.statements), [], [], FrameCounting.NonDropFrame)
  }

  function NormalizedEvents(es: seq<Events.Event>): (r: seq<Events.Event>)
    ensures |r| == |es| && forall i | 0 <= i < |es| :: r[i] == NormalizedEvent(es[i])
  {
    seq(|es|, i requires 0 <= i < |es| => NormalizedEvent(es[i]))
  }

  function GroupTexts(es: seq<Events.Event>): (r: seq<seq<string>>)
    ensures |r| == |es| && forall i | 0 <= i < |es| :: r[i] == Events.StatementTexts(es[i].statements)
  {
    seq(|es|, i requires 0 <= i < |es| => Events.StatementTexts(es[i].statements))
  }

  lemma GroupTextsSnoc(es: seq<Events.Event>, n: nat)
    requires n < |es|
    ensures GroupTexts(es[..n + 1]) == GroupTexts(es[..n]) + [Events.StatementTexts(es[n].statements)]
  {
    assert forall i | 0 <= i < n :: GroupTexts(es[..n + 1])[i] == GroupTexts(es[..n])[i];
  }

  lemma NormalizedEventsSnoc(es: seq<Events.Event>, n: nat)
    requires n < |es|
    ensures NormalizedEvents(es[..n + 1]) == NormalizedEvents(es[..n]) + [NormalizedEvent(es[n])]
  {
    assert forall i | 0 <= i < n :: NormalizedEvents(es[..n + 1])[i] == NormalizedEvents(es[..n])[i];
  }

  /** The loop's steps from a state over more lines, errors unwrapped. */
  function Run(s: Scan, more: seq<string>): Result<Scan> {
    if more == [] then Ok(s)
    else
      var t :- Run(s, more[..|more| - 1]);
      var line := more[|more| - 1];
      if line == "" then Ok(t) else StepLine(t, line)
  }

  lemma {:induction false} ScanLinesAppend(body: seq<string>, more: seq<string>)
    requires ScanLines(body).Ok? && Run(ScanLines(body).value, more).Ok?
    ensures ScanLines(body + more) == Run(ScanLines(body).value, more)
  {
    if more != [] {
      var sb := ScanLines(body).value;
      var n := |more| - 1;
      var line, all, k := more[n], body + more, |body| + n;
      var t := Run(sb, more[..n]).value;
      assert Run(sb, more) == if line == "" then Ok(t) else StepLine(t, line);
      ScanLinesAppend(body, more[..n]);
      assert all[..k] == body + more[..n];
      assert all[k] == line;
      ScanLinesStep(all, k);
      assert all[..k + 1] == all;
    } else {
      assert body + more == body;
    }
  }

  lemma {:induction false} RunConcat(s: Scan, a: seq<string>, b: seq<string>)
    requires Run(s, a).Ok?
    ensures Run(s, a + b) == Run(Run(s, a).value, b)
  {
    if b != [] {
      var n := |b| - 1;
      RunConcat(s, a, b[..n]);
      assert (a + b)[..|a + b| - 1] == a + b[..n];
      assert (a + b)[|a + b| - 1] == b[n];
    } else {
      assert a + b == a;
    }
  }

  /** The facts about a printed statement line that the loop looks at. */
  lemma PrintedStatementNumbered(st: SF.Statement)
    requires SF.Printable(st)
    ensures !AllSpace(SF.Print(st)) && LeadingNumber(SF.Print(st)) == Some(SF.PrintedNumber(st))
    ensures !IsFcmLine(SF.Print(st))
  {
    var line := SF.Print(st);
    Events.PrintedStatementIsLine(st);
    SF.LexPrint(st);
    LexAllSpace(line);
    var w := SF.ZFill3(SF.PrintedNumber(st));
    assert Split(line)[0] == w;
    assert LeadingSpaces(line) == 0;
    assert line[0] == w[0];
    assert UpperStr(line)[0] == line[0];
  }

  /** One step over a numbered line: it starts the buffer, joins the current
      event, or flushes the buffer and starts the next event. */
  lemma StepNumbered(s: Scan, line: string, v: nat)
    requires !AllSpace(line) && LeadingNumber(line) == Some(v)
    requires s.buffer != [] && s.current != v ==> s.current != 0 && Events.EventOf(JoinLines(s.buffer)).Ok?
    ensures line != ""
    ensures s.buffer == [] ==> StepLine(s, line) == Ok(s.(buffer := [line], current := v))
    ensures s.buffer != [] && s.current == v ==> StepLine(s, line) == Ok(s.(buffer := s.buffer + [line]))
    ensures s.buffer != [] && s.current != v ==>
      StepLine(s, line) == Ok(Scan(s.groups + [s.buffer], s.events + [Events.EventOf(JoinLines(s.buffer)).value], [line], v))
  {
    LexAllSpace(line);
    Events.EmptyAppend([line]);
  }

  /** The loop's steps over `lines` and then one more line. */
  lemma RunSnoc(s: Scan, lines: seq<string>, line: string)
    ensures Run(s, lines + [line]) == match Run(s, lines)
      case Err(e) => Err(e)
      case Ok(t) => if line == "" then Ok(t) else StepLine(t, line)
  {
    assert (lines + [line])[..|lines|] == lines;
  }

  /** Lines numbered like the current event join its buffer. */
  lemma {:induction false} RunSameEvent(s: Scan, lines: seq<string>, v: nat)
    requires s.buffer != [] && s.current == v
    requires forall i | 0 <= i < |lines| :: !AllSpace(lines[i]) && LeadingNumber(lines[i]) == Some(v)
    ensures Run(s, lines) == Ok(s.(buffer := s.buffer + lines))
  {
    if lines != [] {
      var n := |lines| - 1;
      var line, init := lines[n], lines[..n];
      RunSameEvent(s, init, v);
      var t := s.(buffer := s.buffer + init);
      StepNumbered(t, line, v);
      Events.SnocLast(lines);
      RunSnoc(s, init, line);
      assert s.buffer + init + [line] == s.buffer + lines;
    } else {
      assert s.buffer + lines == s.buffer;
    }
  }

  /** The first line of an event, numbered `v`: it flushes the buffer, if
      any, and starts the next. */
  lemma StartEvent(s: Scan, line: string, v: nat)
    requires !AllSpace(line) && LeadingNumber(line) == Some(v)
    requires s.buffer != [] ==> s.current != 0 && s.current != v && Events.EventOf(JoinLines(s.buffer)).Ok?
    ensures Run(s, [line]) == Ok(
      if s.buffer == [] then s.(buffer := [line], current := v)
      else Scan(s.groups + [s.buffer], s.events + [Events.EventOf(JoinLines(s.buffer)).value], [line], v))
  {
    StepNumbered(s, line, v);
    RunSnoc(s, [], line);
    Events.EmptyAppend([line]);
  }

  /** The printed lines of an event: its statements and two empty lines. */
  lemma RunEvent(s: Scan, e: Events.Event)
    requires Reprintable(e)
    requires s.buffer != [] ==> s.current != 0 && s.current != EventNumber(e) && Events.EventOf(JoinLines(s.buffer)).Ok?
    ensures Run(s, Events.StatementTexts(e.statements) + ["", ""]) == Ok(
      if s.buffer == [] then s.(buffer := Events.StatementTexts(e.statements), current := EventNumber(e))
      else Scan(s.groups + [s.buffer], s.events + [Events.EventOf(JoinLines(s.buffer)).value],
                Events.StatementTexts(e.statements), EventNumber(e)))
  {
    var texts := Events.StatementTexts(e.statements);
    EventLinesNumbered(e);
    RunStatements(s, texts, EventNumber(e));
    RunBlankLines(Run(s, texts).value);
    RunConcat(s, texts, ["", ""]);
  }

  /** The printed statements of an event are lines numbered as the event. */
  lemma EventLinesNumbered(e: Events.Event)
    requires Reprintable(e)
    ensures var texts := Events.StatementTexts(e.statements);
      texts != [] && forall i | 0 <= i < |texts| :: !AllSpace(texts[i]) && LeadingNumber(texts[i]) == Some(EventNumber(e))
  {
    var texts := Events.StatementTexts(e.statements);
    forall i | 0 <= i < |texts| ensures !AllSpace(texts[i]) && LeadingNumber(texts[i]) == Some(EventNumber(e)) {
      PrintedStatementNumbered(e.statements[i]);
    }
  }

  /** Lines all numbered `v`: the first starts an event, the rest join it. */
  lemma RunStatements(s: Scan, texts: seq<string>, v: nat)
    requires texts != [] && forall i | 0 <= i < |texts| :: !AllSpace(texts[i]) && LeadingNumber(texts[i]) == Some(v)
    requires s.buffer != [] ==> s.current != 0 && s.current != v && Events.EventOf(JoinLines(s.buffer)).Ok?
    ensures Run(s, texts) == Ok(
      if s.buffer == [] then s.(buffer := texts, current := v)
      else Scan(s.groups + [s.buffer], s.events + [Events.EventOf(JoinLines(s.buffer)).value], texts, v))
  {
    var t := if s.buffer == [] then s.(buffer := [texts[0]], current := v)
      else Scan(s.groups + [s.buffer], s.events + [Events.EventOf(JoinLines(s.buffer)).value], [texts[0]], v);
    StartEvent(s, texts[0], v);
    var rest := texts[1..];
    Events.ConsFirst(texts);
    RunSameEvent(t, rest, v);
    RunConcat(s, [texts[0]], rest);
  }

  /** The two empty lines after an event change nothing. */
  lemma RunBlankLines(s: Scan)
    ensures Run(s, ["", ""]) == Ok(s)
  {
    assert [""][..0] == [];
    assert Run(s, [""]) == Ok(s);
    assert ["", ""][..1] == [""];
  }

  lemma BodyLinesSnoc(es: seq<Events.Event>, n: nat)
    requires n < |es|
    ensures BodyLines(es[..n + 1]) == BodyLines(es[..n]) + (Events.StatementTexts(es[n].statements) + ["", ""])
  {
    assert es[..n + 1][..n] == es[..n];
  }

  /** The scan state after the printed lines of the first `n` events: the
      groups and events before the last of them, whose lines are still in
      the buffer. */
  function ScanAfter(es: seq<Events.Event>, n: nat): Scan
    requires 0 < n <= |es| && es[n - 1].statements != []
  {
    Scan(GroupTexts(es[..n - 1]), NormalizedEvents(es[..n - 1]),
         Events.StatementTexts(es[n - 1].statements), EventNumber(es[n - 1]))
  }

  lemma ScanPrintedStep(es: seq<Events.Event>, n: nat)
    requires ReprintableAll(es) && 0 < n < |es|
    ensures Run(ScanAfter(es, n), Events.StatementTexts(es[n].statements) + ["", ""]) == Ok(ScanAfter(es, n + 1))
  {
    var prev, s := es[n - 1], ScanAfter(es, n);
    assert Reprintable(prev) && Reprintable(es[n]);
    Events.StatementTextsRead(prev.statements);
    assert Events.EventOf(JoinLines(s.buffer)) == Ok(NormalizedEvent(prev));
    RunEvent(s, es[n]);
    GroupTextsSnoc(es, n - 1);
    NormalizedEventsSnoc(es, n - 1);
    assert ScanAfter(es, n + 1) == Scan(s.groups + [s.buffer], s.events + [NormalizedEvent(prev)],
      Events.StatementTexts(es[n].statements), EventNumber(es[n]));
  }

  lemma ScanPrintedFirst(es: seq<Events.Event>)
    requires ReprintableAll(es) && es != []
    ensures ScanLines(BodyLines(es[..1])) == Ok(ScanAfter(es, 1))
  {
    var more := Events.StatementTexts(es[0].statements) + ["", ""];
    var s0 := Scan([], [], [], 0);
    BodyLinesSnoc(es, 0);
    Events.EmptyAppend(more);
    assert Reprintable(es[0]);
    RunEvent(s0, es[0]);
    assert ScanLines([]) == Ok(s0);
    ScanLinesAppend([], more);
    assert GroupTexts(es[..0]) == [] && NormalizedEvents(es[..0]) == [];
  }

  /** Reading the printed lines of the first `n` events. */
  lemma {:induction false} ScanPrinted(es: seq<Events.Event>, n: nat)
    requires ReprintableAll(es) && 0 < n <= |es|
    ensures ScanLines(BodyLines(es[..n])) == Ok(ScanAfter(es, n))
  {
    if n == 1 {
      ScanPrintedFirst(es);
    } else {
      ScanPrinted(es, n - 1);
      ScanPrintedStep(es, n - 1);
      BodyLinesSnoc(es, n - 1);
      ScanLinesAppend(BodyLines(es[..n - 1]), Events.StatementTexts(es[n - 1].statements) + ["", ""]);
    }
  }

  /** The printed lines of events are cut back into those events, each
      read as its normalized form. */
  lemma SegmentPrinted(es: seq<Events.Event>)
    requires ReprintableAll(es)
    ensures EventsOfBody(BodyLines(es)) == Ok(NormalizedEvents(es))
  {
    if es != [] {
      var n := |es| - 1;
      assert es[..|es|] == es;
      ScanPrinted(es, |es|);
      var sa := ScanAfter(es, |es|);
      assert ScanLines(BodyLines(es)) == Ok(sa);
      LastEventRead(es);
      assert sa.buffer != [];
      EventsOfOpenScan(BodyLines(es), sa);
      NormalizedEventsSnoc(es, n);
    }
  }

  /** The statements of the last event, printed and read, are that event normalized. */
  lemma LastEventRead(es: seq<Events.Event>)
    requires ReprintableAll(es) && es != []
    ensures Events.EventOf(JoinLines(ScanAfter(es, |es|).buffer)) == Ok(NormalizedEvent(es[|es| - 1]))
  {
    assert Reprintable(es[|es| - 1]);
    Events.StatementTextsRead(es[|es| - 1].statements);
  }

  /** A loop that ends with lines in its buffer: the final flush reads them
      as the last event. */
  lemma EventsOfOpenScan(body: seq<string>, s: Scan)
    requires ScanLines(body) == Ok(s) && s.buffer != [] && Events.EventOf(JoinLines(s.buffer)).Ok?
    ensures EventsOfBody(body) == Ok(s.events + [Events.EventOf(JoinLines(s.buffer)).value])
  {
  }

  lemma BodyLinesStart(es: seq<Events.Event>)
    requires ReprintableAll(es) && es != []
    ensures BodyLines(es) != [] && !IsFcmLine(BodyLines(es)[0])
  {
    var n := |es| - 1;
    if n == 0 {
      assert Reprintable(es[0]);
      PrintedStatementNumbered(es[0].statements[0]);
      assert BodyLines(es)[0] == SF.Print(es[0].statements[0]);
    } else {
      assert ReprintableAll(es[..n]) by {
        assert forall i | 0 <= i < n :: es[..n][i] == es[i];
      }
      BodyLinesStart(es[..n]);
    }
  }

  /** An EDL printed by `write` reads back with the same title and FCM and
      the same events, each statement normalized, provided every event
      prints as its own non-zero number, different from its neighbours', and
      has neither notes nor comments. */
  lemma FileRoundTrip(title: string, fcm: FrameCounting.Fcm, es: seq<Events.Event>, formatSpeed: string -> string)
    requires TitleAccepted(title) && ReprintableAll(es)
    ensures Parse(ReadLines(HeaderText(title, fcm) + "\n" + EventsText(es, formatSpeed)))
         == Ok(Document(title, fcm, NormalizedEvents(es)))
  {
    assert forall i | 0 <= i < |es| :: Reprintable(es[i]);
    PrintedLines(title, fcm, es, formatSpeed);
    if es != [] {
      BodyLinesStart(es);
    }
    HeaderRoundTrip(title, fcm, BodyLines(es));
    SegmentPrinted(es);
  }

  /** The `fcm` setter's operand: an `Fcm` member, or any other value. */
  datatype FcmArgument = FcmMember(fcm: FrameCounting.Fcm) | NotAnFcm

  // ---------------------------------------------------------------------
  // The EDL object

  class Edl {
    var title: string
    var fcm: FrameCounting.Fcm
    var events: seq<Events.Event>

    /** The title is one the setter accepts. */
    ghost predicate Valid()
      reads this
    {
      TitleAccepted(title)
    }

    /** `Edl()` with its defaults. */
    constructor ()
      ensures Valid()
      ensures title == "Untitled EDL" && fcm == FrameCounting.NonDropFrame && events == []
    {
      title := "Untitled EDL";
      fcm := FrameCounting.NonDropFrame;
      events := [];
      new;
      StripTrimmed(title);
    }

    /** The `title` setter. */
    method SetTitle(t: string) returns (o: Outcome)
      modifies this
      ensures CheckTitle(t).Ok? ==> o == Pass && title == CheckTitle(t).value
      ensures CheckTitle(t).Err? ==> o == Fail(CheckTitle(t).error) && title == old(title)
      ensures fcm == old(fcm) && events == old(events)
      ensures old(Valid()) ==> Valid()
    {
      var r := CheckTitle(t);
      if r.Err? {
        return Fail(r.error);
      }
      title := r.value;
      return Pass;
    }

    /** The `fcm` setter. */
    method SetFcm(f: FcmArgument) returns (o: Outcome)
      modifies this
      ensures f.FcmMember? ==> o == Pass && fcm == f.fcm
      ensures f.NotAnFcm? ==> o == Fail(InvalidFcmProvided) && fcm == old(fcm)
      ensures title == old(title) && events == old(events)
      ensures old(Valid()) ==> Valid()
    {
      if f.NotAnFcm? {
        return Fail(InvalidFcmProvided);
      }
      fcm := f.fcm;
      return Pass;
    }

    /** `Edl(title=..., fcm=..., events=...)`: the setters run in order, the
      title's first. */
    static method Create(t: string, f: FcmArgument, es: seq<Events.Event>) returns (r: Result<Edl>)
      ensures r.Ok? <==> CheckTitle(t).Ok? && f.FcmMember?
      ensures CheckTitle(t).Err? ==> r == Err(CheckTitle(t).error)
      ensures CheckTitle(t).Ok? && f.NotAnFcm? ==> r == Err(InvalidFcmProvided)
      ensures r.Ok? ==> fresh(r.value) && r.value.Valid()
      ensures r.Ok? ==> r.value.title == CheckTitle(t).value && r.value.fcm == f.fcm && r.value.events == es
    {
      var edl := new Edl();
      var o := edl.SetTitle(t);
      if o.Fail? {
        return Err(o.error);
      }
      o := edl.SetFcm(f);
      if o.Fail? {
        return Err(o.error);
      }
      edl.events := es;
      return Ok(edl);
    }

    /** `from_file`, over the lines of the file. */
    static method FromFile(lines: seq<string>) returns (r: Result<Edl>)
      ensures r.Ok? <==> Parse(lines).Ok?
      ensures r.Err? ==> r.error == Parse(lines).error
      ensures r.Ok? ==> fresh(r.value) && r.value.Valid()
      ensures r.Ok? ==> Document(r.value.title, r.value.fcm, r.value.events) == Parse(lines).value
    {
      var title :- ParseTitle(TitleLine(lines));
      var fcm := FrameCounting.Pal;
      if FcmGiven(lines) {
        fcm :- ParseFcm(lines[1]);
      }
      var events :- SegmentBody(Body(lines));
      r := Create(title, FcmMember(fcm), events);
    }

    /** The `header` property. Written on its own, it reads back as an EDL
        with this title and FCM and no events. */
    function Header(): (r: string)
      reads this
      ensures Valid() ==> Parse(ReadLines(r + "\n")) == Ok(Document(title, fcm, []))
    {
      var text := HeaderText(title, fcm);
      assert Valid() ==> Parse(ReadLines(text + "\n")) == Ok(Document(title, fcm, [])) by {
        if Valid() {
          FileRoundTrip(title, fcm, [], x => x);
          assert text + "\n" + EventsText([], x => x) == text + "\n";
          assert NormalizedEvents([]) == [];
        }
      }
      text
    }

    /** `str(edl)`, what `write` prints: the header and each event, each
        followed by a newline. Speeds of M2 notes are printed by
        `formatSpeed`. For a valid EDL whose events can be printed and read
        back, reading the text gives its title and FCM and its events
        normalized. */
    function Text(formatSpeed: string -> string): (r: string)
      reads this
      ensures Valid() && ReprintableAll(events) ==>
        Parse(ReadLines(r)) == Ok(Document(title, fcm, NormalizedEvents(events)))
    {
      var text := HeaderText(title, fcm) + "\n" + EventsText(events, formatSpeed);
      assert Valid() && ReprintableAll(events) ==>
        Parse(ReadLines(text)) == Ok(Document(title, fcm, NormalizedEvents(events))) by {
        if Valid() && ReprintableAll(events) {
          FileRoundTrip(title, fcm, events, formatSpeed);
        }
      }
      text
    }

    /** The `tracks` property: the union of the events' track sets. */
    method UsedTracks() returns (r: map<string, Tracks.Track>)
      ensures r == UnionAll(TrackSets(events))
    {
      var ms := TrackSets(events);
      r := map[];
      var i := 0;
      assert ms[..0] == [];
      while i < |events|
        invariant i <= |events|
        invariant r == UnionAll(ms[..i])
      {
        var t := Events.EventTracks(events[i]);
        assert ms[..i + 1][..i] == ms[..i];
        r := Union(r, t);
        i := i + 1;
      }
      assert ms[..i] == ms;
    }

    /** The `sources` property: the union of the events' source sets. */
    method UsedSources() returns (r: map<string, Sources.SourceReel>)
      ensures r == UnionAll(SourceSets(events))
    {
      var ms := SourceSets(events);
      r := map[];
      var i := 0;
      assert ms[..0] == [];
      while i < |events|
        invariant i <= |events|
        invariant r == UnionAll(ms[..i])
      {
        assert ms[..i + 1][..i] == ms[..i];
        r := Union(r, Events.SourcesOf(events[i].statements));
        i := i + 1;
      }
      assert ms[..i] == ms;
    }
  }
}
