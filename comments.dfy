/** EDL comments (edl/comments.py): a `* field: value` comment and the
    catch-all standard comment, with their validators, parsers and printers. */
module Comments {
  import opened Wrappers
  import opened Text

  datatype Comment = FieldComment(field: string, value: string) | StandardComment(text: string)

  /** The comment classes in the order `BaseComment.all_statement_types` yields them. */
  datatype CommentKind = FieldKind | StandardKind

  const Registry: seq<CommentKind> := [FieldKind, StandardKind]

  /** `BaseComment.validate`. The condition tuple is built before `all` looks
      at it, so `line.split()[0]` raises IndexError on an empty or blank line. */
  function BaseValidate(line: string): (r: Result<bool>)
    ensures r.Err? <==> AllSpace(line)
    ensures r.Err? ==> r.error == IndexOutOfRange
    ensures r.Ok? ==> (r.value <==>
      && Strip(line) != []
      && '\n' !in line
      && !IsDigit(Split(line)[0][0]))
  {
    LexAllSpace(line);
    StripShape(line);
    var words := Split(line);
    if words == [] then Err(IndexOutOfRange)
    else Ok(|Strip(line)| > 0 && '\n' !in line && !IsDigit(words[0][0]))
  }

  /** The first non-whitespace character of a non-blank line is not a digit:
      the third condition of `BaseComment.validate`. */
  lemma BaseValidateFirstChar(line: string)
    requires !AllSpace(line)
    ensures BaseValidate(line) == Ok('\n' !in line && !IsDigit(line[LeadingSpaces(line)]))
  {
    LexAllSpace(line);
    StripShape(line);
  }

  /** `FieldComment.PAT_MATCH.search(line)` on a line without '\n': a leading
      `*`, then some ':' with non-whitespace both between the `*` and it and
      after it. */
  predicate FieldShape(line: string) {
    && |line| > 0 && line[0] == '*'
    && exists p | 1 <= p < |line| :: line[p] == ':' && !AllSpace(line[1..p]) && !AllSpace(line[p + 1..])
  }

  /** `FieldComment.validate`: the base checks (which may raise) and the shape. */
  function FieldValidate(line: string): (r: Result<bool>)
    ensures r.Err? <==> AllSpace(line)
    ensures r.Ok? ==> (r.value <==> BaseValidate(line) == Ok(true) && FieldShape(line))
  {
    var base :- BaseValidate(line);
    Ok(base && FieldShape(line))
  }

  /** `StandardComment.validate`: `super().validate(line)`, the base checks alone. */
  function StandardValidate(line: string): (r: Result<bool>)
    ensures r == BaseValidate(line)
  {
    BaseValidate(line)
  }

  /** The index of the first ':' in `s`, or `|s|` when there is none. */
  function ColonIndex(s: string): (n: nat)
    ensures n <= |s| && ':' !in s[..n]
    ensures n < |s| ==> s[n] == ':'
  {
    if s == [] || s[0] == ':' then 0
    else
      var n := 1 + ColonIndex(s[1..]);
      assert s[..n] == [s[0]] + s[1..][..n - 1];
      n
  }

  lemma {:induction false} ColonIndexExact(s: string, n: nat)
    requires n < |s| && ':' !in s[..n] && s[n] == ':'
    ensures ColonIndex(s) == n
  {
    if n > 0 {
      assert s[0] == s[..n][0];
      assert s[1..][..n - 1] == s[..n][1..];
      ColonIndexExact(s[1..], n - 1);
    }
  }

  /** `FieldComment.from_string`: drop the first character, split at the first
      ':' and strip both halves; IndexError when there is no ':' to split at. */
  function FieldFromString(line: string): (r: Result<Comment>)
    ensures r.Err? <==> ':' !in (if line == [] then [] else line[1..])
    ensures r.Err? ==> r.error == IndexOutOfRange
    ensures r.Ok? ==>
      var t := line[1..]; var p := ColonIndex(t);
      && r.value.FieldComment?
      && ':' !in t[..p] && t[p] == ':'
      && r.value.field == Strip(t[..p]) && r.value.value == Strip(t[p + 1..])
  {
    var t := if line == [] then [] else line[1..];
    var p := ColonIndex(t);
    if p == |t| then
      assert t[..p] == t;
      Err(IndexOutOfRange)
    else
      Ok(FieldComment(Strip(t[..p]), Strip(t[p + 1..])))
  }

  /** `StandardComment.from_string`: the constructor raises unless the line validates. */
  function StandardFromString(line: string): (r: Result<Comment>)
    ensures r.Ok? <==> BaseValidate(line) == Ok(true)
    ensures r.Ok? ==> r.value == StandardComment(line)
    ensures r.Err? ==> r.error == (if AllSpace(line) then IndexOutOfRange else InvalidComment)
  {
    var valid :- StandardValidate(line);
    if valid then Ok(StandardComment(line)) else Err(InvalidComment)
  }

  function Validate(kind: CommentKind, line: string): Result<bool> {
    match kind
    case FieldKind => FieldValidate(line)
    case StandardKind => StandardValidate(line)
  }

  function FromString(kind: CommentKind, line: string): Result<Comment> {
    match kind
    case FieldKind => FieldFromString(line)
    case StandardKind => StandardFromString(line)
  }

  /** `str(comment)`: `* field: value` for a field comment, the original line
      for a standard one. The first ':' after the `*` of a field comment is
      the one after its field when the field has none, which is where
      `from_string` splits it again. */
  function Render(c: Comment): (r: string)
    ensures c.StandardComment? ==> r == c.text
    ensures c.FieldComment? ==> |r| == |c.field| + |c.value| + 4 && r[0] == '*'
    ensures c.FieldComment? && ':' !in c.field ==> ColonIndex(r[1..]) == |c.field| + 1
  {
    match c
    case FieldComment(f, v) =>
      var r := "* " + f + ": " + v;
      assert r[1..][..|f| + 1] == " " + f;
      if ':' in f then r else ColonIndexExact(r[1..], |f| + 1); r
    case StandardComment(text) => text
  }

  /** Every line `FieldComment` accepts, `StandardComment` accepts too, and
      both raise on the same lines. */
  lemma FieldImpliesStandard(line: string)
    ensures FieldValidate(line) == Ok(true) ==> StandardValidate(line) == Ok(true)
    ensures FieldValidate(line).Err? <==> StandardValidate(line).Err?
  {
  }

  /** A line `FieldComment.validate` accepts has a ':' to split at, so
      `from_string` returns a field comment for it. */
  lemma FieldValidatedParses(line: string)
    requires FieldValidate(line) == Ok(true)
    ensures FieldFromString(line).Ok?
  {
    assert FieldShape(line);
    var p :| 1 <= p < |line| && line[p] == ':' && !AllSpace(line[1..p]) && !AllSpace(line[p + 1..]);
    assert line[1..][p - 1] == ':';
  }

  /** A standard comment prints as the line it was made from. */
  lemma StandardRendersLine(line: string)
    requires StandardFromString(line).Ok?
    ensures Render(StandardFromString(line).value) == line
  {
  }

  /** The parts a field comment can be read back with: neither starts nor
      ends with whitespace, and the field has no ':' before the one `str`
      adds. */
  predicate Splittable(f: string, v: string) {
    Trimmed(f) && Trimmed(v) && ':' !in f
  }

  /** A printable field comment: splittable, both parts non-empty (so that
      `validate` accepts it), and no line break in either, so that it stays
      one line of an event. */
  predicate Printable(f: string, v: string) {
    Splittable(f, v) && f != [] && v != [] && NoLineBreak(f) && NoLineBreak(v)
  }

  /** A printed field comment parses back to the same field and value
      exactly when the two are splittable: `from_string` splits at the first
      ':' and strips both halves. */
  lemma FieldRoundTrip(f: string, v: string)
    ensures FieldFromString(Render(FieldComment(f, v))) == Ok(FieldComment(f, v)) <==> Splittable(f, v)
  {
    var line := Render(FieldComment(f, v));
    if Splittable(f, v) {
      TrimmedRoundTrip(f, v);
    }
    if FieldFromString(line) == Ok(FieldComment(f, v)) {
      FieldFromStringSplittable(line);
    }
  }

  /** The round trip in the direction the printer needs. */
  lemma TrimmedRoundTrip(f: string, v: string)
    requires Splittable(f, v)
    ensures FieldFromString(Render(FieldComment(f, v))) == Ok(FieldComment(f, v))
  {
    var line := Render(FieldComment(f, v));
    var t := " " + f + ": " + v;
    var p := 1 + |f|;
    RenderedFieldParts(f, v);
    calc {
      FieldFromString(line);
      { FieldFromStringAt(line, p); }
      Ok(FieldComment(Strip(t[..p]), Strip(t[p + 1..])));
      { StripPadded(" ", f, ""); StripPadded(" ", v, ""); }
      Ok(FieldComment(f, v));
    }
  }

  /** The parts `from_string` returns are stripped, and the field is the
      text before the first ':', so it has none. */
  lemma FieldFromStringSplittable(line: string)
    requires FieldFromString(line).Ok?
    ensures Splittable(FieldFromString(line).value.field, FieldFromString(line).value.value)
  {
    var t := line[1..];
    StrippedPartsSplittable(t[..ColonIndex(t)], t[ColonIndex(t) + 1..]);
  }

  lemma StrippedPartsSplittable(field: string, rest: string)
    requires ':' !in field
    ensures Splittable(Strip(field), Strip(rest))
  {
    StripShape(field);
    StripShape(rest);
    StripKeepsOut(field, ':');
  }

  /** `from_string` on a line whose first ':' after the first character is at `p` there. */
  lemma FieldFromStringAt(line: string, p: nat)
    requires line != [] && p < |line| - 1 && ':' !in line[1..][..p] && line[1..][p] == ':'
    ensures FieldFromString(line) == Ok(FieldComment(Strip(line[1..][..p]), Strip(line[1..][p + 1..])))
  {
    var t := line[1..];
    ColonIndexExact(t, p);
    assert p != |t|;
  }

  /** A printed field comment after its '*': the field and the value, either
      side of the first ':'. */
  lemma RenderedFieldParts(f: string, v: string)
    requires ':' !in f
    ensures var t := " " + f + ": " + v; var p := 1 + |f|;
      && Render(FieldComment(f, v))[1..] == t
      && t[..p] == " " + f + "" && t[p] == ':' && t[p + 1..] == " " + v + ""
  {
    var t := " " + f + ": " + v;
    assert Render(FieldComment(f, v)) == "*" + t;
  }

  /** A printed field comment passes `FieldComment.validate`. */
  lemma FieldPrintedValidates(f: string, v: string)
    requires Printable(f, v)
    ensures FieldValidate(Render(FieldComment(f, v))) == Ok(true)
  {
    var line := Render(FieldComment(f, v));
    var p := 2 + |f|;
    assert line[p] == ':';
    assert FieldShape(line) by {
      assert line[1..p][1] == f[0];
      assert line[p + 1..][1] == v[0];
    }
    assert '\n' !in line by {
      assert IsLineBreak('\n');
      assert line == "* " + f + ": " + v;
      assert '\n' !in f && '\n' !in v;
    }
    LeadingSpacesExact(line, 0);
    BaseValidateFirstChar(line);
  }

  /** A field comment example: a source file line. */
  lemma SourceFileExample()
    ensures FieldValidate("* SOURCE FILE: clip_01.mov") == Ok(true)
    ensures FieldFromString("* SOURCE FILE: clip_01.mov") == Ok(FieldComment("SOURCE FILE", "clip_01.mov"))
  {
    var f, v := "SOURCE FILE", "clip_01.mov";
    SourceFilePrintable();
    assert Render(FieldComment(f, v)) == "* SOURCE FILE: clip_01.mov";
    TrimmedRoundTrip(f, v);
    FieldPrintedValidates(f, v);
  }

  lemma SourceFilePrintable()
    ensures Printable("SOURCE FILE", "clip_01.mov")
  {
    var f, v := "SOURCE FILE", "clip_01.mov";
    forall i | 0 <= i < |f| ensures !IsLineBreak(f[i]) && f[i] != ':' {
    }
    forall i | 0 <= i < |v| ensures !IsLineBreak(v[i]) {
    }

  }
}
