/** The parts of Python's `str` and `re` behaviour that the EDL code relies on:
    whitespace, digits, ASCII case mapping, `strip`, `split`, `splitlines`,
    `"\n".join`, `zfill`, `ljust`, `str(int)` and `int(str)`. */
module Text {
  import opened Wrappers

  // ---------------------------------------------------------------------
  // Character classes

  /** `str.isspace()`; the `\s` class of a `str` regex is the same set. */
  predicate IsSpace(c: char) {
    || c == ' ' || '\t' <= c <= '\r' || '\U{1c}' <= c <= '\U{1f}'
    || c == '\U{85}' || c == '\U{a0}' || c == '\U{1680}'
    || '\U{2000}' <= c <= '\U{200a}' || c == '\U{2028}' || c == '\U{2029}'
    || c == '\U{202f}' || c == '\U{205f}' || c == '\U{3000}'
  }

  /** The characters at which `str.splitlines()` breaks a line ("\r\n" counts once). */
  predicate IsLineBreak(c: char) {
    || c == '\n' || c == '\r' || c == '\U{0b}' || c == '\U{0c}'
    || '\U{1c}' <= c <= '\U{1e}' || c == '\U{85}' || c == '\U{2028}' || c == '\U{2029}'
  }

  lemma LineBreakIsSpace(c: char)
    requires IsLineBreak(c)
    ensures IsSpace(c)
  {
  }

  /** ASCII digits, for `\d`, `isnumeric()` and `int()`. */
  predicate IsDigit(c: char) { '0' <= c <= '9' }

  predicate AllDigits(s: string) { forall i | 0 <= i < |s| :: IsDigit(s[i]) }

  predicate AllSpace(s: string) { forall i | 0 <= i < |s| :: IsSpace(s[i]) }

  predicate NoSpace(s: string) { forall i | 0 <= i < |s| :: !IsSpace(s[i]) }

  predicate NoLineBreak(s: string) { forall i | 0 <= i < |s| :: !IsLineBreak(s[i]) }

  /** A maximal run of non-whitespace, as `[^\s]+` followed by `\s` or the end matches. */
  predicate IsToken(s: string) { s != [] && NoSpace(s) }

  /** A string of which `isnumeric()` holds: non-empty, all digits. */
  predicate IsNumeric(s: string) { s != [] && AllDigits(s) }

  lemma NumericIsToken(s: string)
    requires IsNumeric(s)
    ensures IsToken(s)
  {
  }

  // ---------------------------------------------------------------------
  // Case

  function Upper(c: char): char {
    if 'a' <= c <= 'z' then (c as int - 32) as char else c
  }

  function Lower(c: char): char {
    if 'A' <= c <= 'Z' then (c as int + 32) as char else c
  }

  function UpperStr(s: string): (r: string)
    ensures |r| == |s| && forall i | 0 <= i < |s| :: r[i] == Upper(s[i])
  {
    seq(|s|, i requires 0 <= i < |s| => Upper(s[i]))
  }

  function LowerStr(s: string): (r: string)
    ensures |r| == |s| && forall i | 0 <= i < |s| :: r[i] == Lower(s[i])
  {
    seq(|s|, i requires 0 <= i < |s| => Lower(s[i]))
  }

  /** Whether `c` matches the literal pattern character `p` under `re.IGNORECASE`:
      the two case forms of a letter, and for `K` also U+212A KELVIN SIGN. */
  predicate MatchesIgnoringCase(c: char, p: char) {
    Lower(c) == Lower(p) || (Lower(p) == 'k' && c == '\U{212a}')
  }

  predicate EqualsIgnoringCase(s: string, p: string) {
    |s| == |p| && forall i | 0 <= i < |s| :: MatchesIgnoringCase(s[i], p[i])
  }

  lemma EqualsIgnoringCaseSelf(s: string)
    ensures EqualsIgnoringCase(s, s)
  {
  }

  // ---------------------------------------------------------------------
  // strip

  /** The number of whitespace characters that `s` starts with. */
  function LeadingSpaces(s: string): (n: nat)
    ensures n <= |s| && AllSpace(s[..n])
    ensures n < |s| ==> !IsSpace(s[n])
  {
    if s == [] || !IsSpace(s[0]) then 0
    else
      var n := 1 + LeadingSpaces(s[1..]);
      assert s[..n] == [s[0]] + s[1..][..n - 1];
      n
  }

  /** The number of whitespace characters that `s` ends with. */
  function TrailingSpaces(s: string): (n: nat)
    ensures n <= |s| && AllSpace(s[|s| - n..])
    ensures n < |s| ==> !IsSpace(s[|s| - n - 1])
  {
    if s == [] || !IsSpace(s[|s| - 1]) then 0
    else
      var m := TrailingSpaces(s[..|s| - 1]);
      var n := 1 + m;
      assert forall i | |s| - n <= i < |s| - 1 :: s[i] == s[..|s| - 1][i];
      n
  }

  lemma {:induction false} LeadingSpacesExact(s: string, n: nat)
    requires n <= |s| && AllSpace(s[..n]) && (n < |s| ==> !IsSpace(s[n]))
    ensures LeadingSpaces(s) == n
  {
    if n > 0 {
      assert s[..n][0] == s[0];
      assert s[1..][..n - 1] == s[..n][1..];
      LeadingSpacesExact(s[1..], n - 1);
    }
  }

  /** Python's `str.strip()`. */
  function Strip(s: string): (r: string)
    ensures |r| <= |s|
  {
    var t := s[LeadingSpaces(s)..];
    t[..|t| - TrailingSpaces(t)]
  }

  /** `strip()` gives the empty string exactly for all-whitespace input, and
      otherwise a string that neither starts nor ends with whitespace. */
  lemma StripShape(s: string)
    ensures Strip(s) == [] <==> AllSpace(s)
    ensures Strip(s) != [] ==> !IsSpace(Strip(s)[0]) && !IsSpace(Strip(s)[|Strip(s)| - 1])
  {
    var a := LeadingSpaces(s);
    var t := s[a..];
    if a < |s| {
      assert t[0] == s[a];
      assert !AllSpace(s);
      var b := TrailingSpaces(t);
      assert b < |t|;
    } else {
      assert s == s[..a];
    }
  }

  /** Neither starts nor ends with whitespace: what `strip()` returns. */
  predicate Trimmed(s: string) {
    s == [] || (!IsSpace(s[0]) && !IsSpace(s[|s| - 1]))
  }

  /** A string that neither starts nor ends with whitespace is its own `strip()`. */
  lemma StripTrimmed(s: string)
    requires s == [] || (!IsSpace(s[0]) && !IsSpace(s[|s| - 1]))
    ensures Strip(s) == s
  {
    if s != [] {
      LeadingSpacesExact(s, 0);
      assert s[0..] == s;
    }
  }

  /** `strip()` only removes characters, so it adds none that were absent. */
  lemma StripKeepsOut(s: string, x: char)
    requires x !in s
    ensures x !in Strip(s)
  {
    var a := LeadingSpaces(s);
    var r := Strip(s);
    forall i | 0 <= i < |r| ensures r[i] != x {
      assert r[i] == s[a..][i] == s[a + i];
    }
  }

  lemma StripIdempotent(s: string)
    ensures Strip(Strip(s)) == Strip(s)
  {
    StripShape(s);
    StripTrimmed(Strip(s));
  }

  /** `strip()` of whitespace, a string and whitespace again is that string's `strip()`. */
  lemma StripPadded(g: string, s: string, h: string)
    requires AllSpace(g) && AllSpace(h)
    requires s == [] || (!IsSpace(s[0]) && !IsSpace(s[|s| - 1]))
    ensures Strip(g + s + h) == s
  {
    var x := g + s + h;
    if s == [] {
      assert AllSpace(x);
      StripShape(x);
    } else {
      LeadingSpacesExact(x, |g|);
      var t := x[|g|..];
      assert t == s + h;
      assert t[|t| - |h|..] == h;
      var b := TrailingSpaces(t);
      assert t[..|t| - |h|] == s;
    }
  }

  // ---------------------------------------------------------------------
  // split()

  /** One token of `str.split()`, with the number of whitespace characters before it. */
  datatype Word = Word(gap: nat, text: string)

  /** The tokens of a line and the number of whitespace characters after the last one. */
  datatype Lexed = Lexed(words: seq<Word>, trailing: nat)

  /** The length of the non-whitespace run that `s` starts with. */
  function TokenLength(s: string): (n: nat)
    ensures n <= |s| && NoSpace(s[..n])
    ensures n < |s| ==> IsSpace(s[n])
    ensures s != [] && !IsSpace(s[0]) ==> n > 0
  {
    if s == [] || IsSpace(s[0]) then 0
    else
      var n := 1 + TokenLength(s[1..]);
      assert s[..n] == [s[0]] + s[1..][..n - 1];
      n
  }

  lemma {:induction false} TokenLengthExact(s: string, n: nat)
    requires n <= |s| && NoSpace(s[..n]) && (n < |s| ==> IsSpace(s[n]))
    ensures TokenLength(s) == n
  {
    if n > 0 {
      assert s[..n][0] == s[0];
      assert s[1..][..n - 1] == s[..n][1..];
      TokenLengthExact(s[1..], n - 1);
    }
  }

  /** The whitespace-separated tokens of `s`, each with its preceding gap. */
  function Lex(s: string): (r: Lexed)
    ensures WellSpaced(r.words)
    ensures r.words != [] ==> r.words[0].gap == LeadingSpaces(s)
    decreases |s|
  {
    var g := LeadingSpaces(s);
    if g == |s| then Lexed([], g)
    else
      var n := TokenLength(s[g..]);
      var rest := Lex(s[g + n..]);
      assert g + n < |s| ==> IsSpace(s[g + n..][0]);
      var w := Word(g, s[g..g + n]);
      assert w.text == s[g..][..n];
      assert rest.words != [] ==> rest.words[0].gap > 0;
      WellSpacedCons(w, rest.words);
      Lexed([w] + rest.words, rest.trailing)
  }

  lemma WellSpacedCons(w: Word, ws: seq<Word>)
    requires IsToken(w.text) && WellSpaced(ws) && (ws != [] ==> ws[0].gap > 0)
    ensures WellSpaced([w] + ws)
  {
    var r := [w] + ws;
    forall i | 0 <= i < |r| ensures IsToken(r[i].text) && (i > 0 ==> r[i].gap > 0) {
      if i > 0 {
        assert r[i] == ws[i - 1];
      }
    }
  }

  lemma WellSpacedAppend(a: seq<Word>, b: seq<Word>)
    requires WellSpaced(a) && WellSpaced(b) && (b != [] ==> b[0].gap > 0)
    ensures WellSpaced(a + b)
  {
    var r := a + b;
    forall i | 0 <= i < |r| ensures IsToken(r[i].text) && (i > 0 ==> r[i].gap > 0) {
      if i >= |a| {
        assert r[i] == b[i - |a|];
      }
    }
  }

  function Texts(ws: seq<Word>): (r: seq<string>)
    ensures |r| == |ws| && forall i | 0 <= i < |ws| :: r[i] == ws[i].text
  {
    seq(|ws|, i requires 0 <= i < |ws| => ws[i].text)
  }

  /** Python's `str.split()` with no arguments. */
  function Split(s: string): seq<string> {
    Texts(Lex(s).words)
  }

  /** Splitting finds no token exactly when the line is blank, and the first
      token starts at the first non-whitespace character. */
  lemma LexAllSpace(line: string)
    ensures Split(line) == [] <==> AllSpace(line)
    ensures Split(line) != [] ==> Split(line)[0][0] == line[LeadingSpaces(line)]
  {
    var g := LeadingSpaces(line);
    if g == |line| {
      assert line == line[..g];
    } else {
      assert !AllSpace(line) by { assert !IsSpace(line[g]); }
      assert Lex(line).words[0].text == line[g..g + TokenLength(line[g..])];
    }
  }

  lemma LexSpaces(g: string)
    requires AllSpace(g)
    ensures Lex(g) == Lexed([], |g|)
  {
    assert g[..|g|] == g;
    LeadingSpacesExact(g, |g|);
  }

  /** Lexing whitespace, a token and a rest that starts with whitespace (or is empty). */
  lemma LexCons(g: string, w: string, r: string)
    requires AllSpace(g) && IsToken(w) && (r == [] || IsSpace(r[0]))
    ensures Lex(g + w + r) == Lexed([Word(|g|, w)] + Lex(r).words, Lex(r).trailing)
  {
    var s := g + w + r;
    assert s[..|g|] == g;
    LeadingSpacesExact(s, |g|);
    var t := s[|g|..];
    assert t == w + r;
    assert t[..|w|] == w;
    TokenLengthExact(t, |w|);
    assert s[|g| + |w|..] == r;
    assert s[|g|..|g| + |w|] == w;
  }

  /** A layout of tokens: each preceded by as many spaces as its gap. */
  function Layout(ws: seq<Word>): string {
    if ws == [] then "" else Spaces(ws[0].gap) + ws[0].text + Layout(ws[1..])
  }

  /** Tokens that `Lex` reads back as they are: non-empty, space-free, and
      separated by at least one space. */
  predicate WellSpaced(ws: seq<Word>) {
    forall i | 0 <= i < |ws| :: IsToken(ws[i].text) && (i > 0 ==> ws[i].gap > 0)
  }

  lemma {:induction false} LexLayout(ws: seq<Word>, trailing: nat)
    requires WellSpaced(ws)
    ensures Lex(Layout(ws) + Spaces(trailing)) == Lexed(ws, trailing)
  {
    if ws == [] {
      LexSpaces(Spaces(trailing));
    } else {
      var tail := ws[1..];
      WellSpacedTail(ws);
      var rest := Layout(tail) + Spaces(trailing);
      calc {
        Lex(Layout(ws) + Spaces(trailing));
        { Assoc3(Spaces(ws[0].gap) + ws[0].text, Layout(tail), Spaces(trailing)); }
        Lex(Spaces(ws[0].gap) + ws[0].text + rest);
        { LayoutStartsWithSpace(tail, trailing);
          SpacesAreSpace(ws[0].gap);
          LexCons(Spaces(ws[0].gap), ws[0].text, rest); }
        Lexed([Word(ws[0].gap, ws[0].text)] + Lex(rest).words, Lex(rest).trailing);
        { LexLayout(tail, trailing); }
        Lexed([ws[0]] + tail, trailing);
        { assert [ws[0]] + tail == ws; }
        Lexed(ws, trailing);
      }
    }
  }

  lemma WellSpacedTail(ws: seq<Word>)
    requires WellSpaced(ws) && ws != []
    ensures WellSpaced(ws[1..]) && IsToken(ws[0].text)
  {
    var tail := ws[1..];
    forall i | 0 <= i < |tail| ensures IsToken(tail[i].text) && (i > 0 ==> tail[i].gap > 0) {
      assert tail[i] == ws[i + 1];
    }
  }

  /** A layout whose first gap is not empty, followed by spaces, starts with whitespace. */
  lemma LayoutStartsWithSpace(ws: seq<Word>, trailing: nat)
    requires ws == [] || ws[0].gap > 0
    ensures var r := Layout(ws) + Spaces(trailing); r == [] || IsSpace(r[0])
  {
    var r := Layout(ws) + Spaces(trailing);
    if ws != [] {
      assert r[0] == Spaces(ws[0].gap)[0];
    } else if trailing > 0 {
      assert r[0] == ' ';
    }
  }

  lemma {:induction false} LayoutAppend(a: seq<Word>, b: seq<Word>)
    ensures Layout(a + b) == Layout(a) + Layout(b)
  {
    if a != [] {
      assert (a + b)[1..] == a[1..] + b;
      LayoutAppend(a[1..], b);
    } else {
      assert a + b == b;
    }
  }

  lemma LayoutCons(w: Word, ws: seq<Word>)
    ensures Layout([w] + ws) == Spaces(w.gap) + w.text + Layout(ws)
  {
    assert ([w] + ws)[1..] == ws;
  }

  lemma Assoc3(a: string, b: string, c: string)
    ensures a + b + c == a + (b + c)
  {
  }

  lemma Assoc4(a: string, b: string, c: string, d: string)
    ensures a + (b + c + d) == (a + b) + c + d
  {
  }

  lemma Assoc5(a: string, b: string, c: string, d: string, e: string)
    ensures a + b + c + d + e == a + (b + c + d + e)
  {
  }

  lemma Assoc8(a: string, b: string, c: string, d: string, e: string, f: string, g: string, h: string)
    ensures a + b + c + d + e + f + g + h == a + (b + c + d + e + f + g + h)
  {
  }

  lemma Assoc7(a: string, b: string, c: string, d: string, e: string, f: string, g: string)
    ensures a + (b + c + d + e + f + g) == a + b + c + d + e + f + g
  {
  }

  lemma Assoc6(a: string, b: string, c: string, d: string, e: string, f: string)
    ensures a + (b + c + d + e + f) == (a + b) + c + d + e + f
  {
  }

  lemma LayoutTwo(g1: nat, a: string, g2: nat, b: string)
    ensures Layout([Word(g1, a), Word(g2, b)]) == Spaces(g1) + a + Spaces(g2) + b
  {
    LayoutOne(Word(g2, b));
    LayoutCons(Word(g1, a), [Word(g2, b)]);
  }

  lemma LayoutThree(g1: nat, a: string, g2: nat, b: string, g3: nat, c: string)
    ensures Layout([Word(g1, a), Word(g2, b), Word(g3, c)]) == Spaces(g1) + a + Spaces(g2) + b + Spaces(g3) + c
  {
    var ws := [Word(g2, b), Word(g3, c)];
    calc {
      Layout([Word(g1, a), Word(g2, b), Word(g3, c)]);
      { assert [Word(g1, a), Word(g2, b), Word(g3, c)] == [Word(g1, a)] + ws; }
      Layout([Word(g1, a)] + ws);
      { LayoutCons(Word(g1, a), ws); }
      Spaces(g1) + a + Layout(ws);
      { LayoutTwo(g2, b, g3, c); }
      Spaces(g1) + a + (Spaces(g2) + b + Spaces(g3) + c);
      { Assoc5(Spaces(g1) + a, Spaces(g2), b, Spaces(g3), c); }
      Spaces(g1) + a + Spaces(g2) + b + Spaces(g3) + c;
    }
  }

  /** Four tokens, the last three one space apart. */
  lemma LayoutFour(g: nat, a: string, b: string, c: string, d: string)
    ensures Layout([Word(g, a), Word(1, b), Word(1, c), Word(1, d)]) == Spaces(g) + a + " " + b + " " + c + " " + d
  {
    var ws := [Word(1, b), Word(1, c), Word(1, d)];
    calc {
      Layout([Word(g, a), Word(1, b), Word(1, c), Word(1, d)]);
      { assert [Word(g, a), Word(1, b), Word(1, c), Word(1, d)] == [Word(g, a)] + ws; }
      Layout([Word(g, a)] + ws);
      { LayoutCons(Word(g, a), ws); }
      Spaces(g) + a + Layout(ws);
      { LayoutThree(1, b, 1, c, 1, d); }
      Spaces(g) + a + (Spaces(1) + b + Spaces(1) + c + Spaces(1) + d);
      { Assoc7(Spaces(g) + a, Spaces(1), b, Spaces(1), c, Spaces(1), d); }
      Spaces(g) + a + Spaces(1) + b + Spaces(1) + c + Spaces(1) + d;
      { assert Spaces(1) == " "; }
      Spaces(g) + a + " " + b + " " + c + " " + d;
    }
  }

  /** Laid-out tokens hold no line break: the gaps are spaces and the tokens
      hold no whitespace. */
  lemma {:induction false} LayoutNoLineBreak(ws: seq<Word>)
    requires WellSpaced(ws)
    ensures NoLineBreak(Layout(ws))
  {
    if ws != [] {
      var tail := ws[1..];
      assert WellSpaced(tail) by {
        forall i | 0 <= i < |tail| ensures IsToken(tail[i].text) && (i > 0 ==> tail[i].gap > 0) {
          assert tail[i] == ws[i + 1];
        }
      }
      LayoutNoLineBreak(tail);
      var a, t, b := Spaces(ws[0].gap), ws[0].text, Layout(tail);
      assert IsToken(t);
      forall i | 0 <= i < |a + t + b| ensures !IsLineBreak((a + t + b)[i]) {
        if i < |a| {
          assert (a + t + b)[i] == ' ';
        } else if i < |a| + |t| {
          assert (a + t + b)[i] == t[i - |a|];
          if IsLineBreak(t[i - |a|]) {
            LineBreakIsSpace(t[i - |a|]);
          }
        } else {
          assert (a + t + b)[i] == b[i - |a| - |t|];
        }
      }
    }
  }

  lemma LayoutOne(w: Word)
    ensures Layout([w]) == Spaces(w.gap) + w.text
  {
    assert [w][1..] == [];
  }

  // ---------------------------------------------------------------------
  // Padding

  function Spaces(n: nat): (r: string)
    ensures |r| == n && forall i | 0 <= i < n :: r[i] == ' '
  {
    if n == 0 then "" else " " + Spaces(n - 1)
  }

  lemma SpacesAreSpace(n: nat)
    ensures AllSpace(Spaces(n))
  {
  }

  lemma SpacesAdd(a: nat, b: nat)
    ensures Spaces(a) + Spaces(b) == Spaces(a + b)
  {
    assert Spaces(a) + Spaces(b) == Spaces(a + b);
  }

  function Zeros(n: nat): (r: string)
    ensures |r| == n && forall i | 0 <= i < n :: r[i] == '0'
  {
    if n == 0 then "" else "0" + Zeros(n - 1)
  }

  /** `s.ljust(width)`: pad with spaces on the right up to `width`. */
  function LJust(s: string, width: nat): (r: string)
    ensures r == s + Spaces(if |s| < width then width - |s| else 0)
  {
    if |s| >= width then s else s + Spaces(width - |s|)
  }

  /** `s.rjust(width)`: pad with spaces on the left up to `width`. */
  function RJust(s: string, width: nat): (r: string)
    ensures r == Spaces(if |s| < width then width - |s| else 0) + s
  {
    if |s| >= width then s else Spaces(width - |s|) + s
  }

  /** `s.zfill(width)` for a string without a sign: pad with zeros on the left. */
  function ZFill(s: string, width: nat): (r: string)
    ensures r == Zeros(if |s| < width then width - |s| else 0) + s
  {
    if |s| >= width then s else Zeros(width - |s|) + s
  }

  // ---------------------------------------------------------------------
  // Decimal numbers

  function DigitValue(c: char): nat
    requires IsDigit(c)
  {
    c as int - '0' as int
  }

  function DigitChar(d: nat): (c: char)
    requires d < 10
    ensures IsDigit(c) && DigitValue(c) == d
  {
    ('0' as int + d) as char
  }

  /** The value of a run of decimal digits, as `int(s)` computes it. */
  function DigitsValue(s: string): nat
    requires AllDigits(s)
  {
    if s == [] then 0 else DigitsValue(s[..|s| - 1]) * 10 + DigitValue(s[|s| - 1])
  }

  /** `str(n)` for a natural number. */
  function NatToString(n: nat): (r: string)
    ensures IsNumeric(r)
  {
    if n < 10 then [DigitChar(n)] else NatToString(n / 10) + [DigitChar(n % 10)]
  }

  lemma {:induction false} NatToStringValue(n: nat)
    ensures DigitsValue(NatToString(n)) == n
  {
    var r := NatToString(n);
    if n >= 10 {
      NatToStringValue(n / 10);
      assert r[..|r| - 1] == NatToString(n / 10);
    } else {
      assert r[..0] == [];
    }
  }

  lemma {:induction false} LeadingZeroValue(s: string)
    requires AllDigits(s)
    ensures AllDigits("0" + s) && DigitsValue("0" + s) == DigitsValue(s)
  {
    if s != [] {
      assert ("0" + s)[..|s|] == "0" + s[..|s| - 1];
      LeadingZeroValue(s[..|s| - 1]);
    } else {
      assert ("0" + s)[..0] == [];
    }
  }

  lemma {:induction false} ZerosValue(k: nat, s: string)
    requires AllDigits(s)
    ensures AllDigits(Zeros(k) + s) && DigitsValue(Zeros(k) + s) == DigitsValue(s)
  {
    if k > 0 {
      ZerosValue(k - 1, s);
      assert Zeros(k) + s == "0" + (Zeros(k - 1) + s);
      LeadingZeroValue(Zeros(k - 1) + s);
    } else {
      assert Zeros(k) + s == s;
    }
  }

  /** A natural number printed with `str(n).zfill(w)` reads back as `n`. */
  lemma {:induction false} NatToStringLength(n: nat)
    ensures n < 10 ==> |NatToString(n)| == 1
    ensures n < 100 ==> |NatToString(n)| <= 2
    ensures n < 1000 ==> |NatToString(n)| <= 3
  {
    if n >= 10 {
      NatToStringLength(n / 10);
    }
  }

  lemma ZFilledValue(n: nat, width: nat)
    ensures IsNumeric(ZFill(NatToString(n), width))
    ensures DigitsValue(ZFill(NatToString(n), width)) == n
  {
    var s := NatToString(n);
    ZerosValue(if |s| < width then width - |s| else 0, s);
    NatToStringValue(n);
  }

  lemma NumericTrimmed(s: string)
    requires IsNumeric(s)
    ensures Strip(s) == s
  {
    assert IsDigit(s[0]) && IsDigit(s[|s| - 1]);
    StripTrimmed(s);
  }

  /** Python's `int(s)` on a string: surrounding whitespace, an optional sign
      and one or more digits. */
  function ParseInt(s: string): (r: Option<int>)
    ensures IsNumeric(s) ==> r == Some(DigitsValue(s))
  {
    var t := Strip(s);
    if IsNumeric(s) then
      NumericTrimmed(s);
      Some(DigitsValue(t))
    else if t != [] && (t[0] == '+' || t[0] == '-') then
      if IsNumeric(t[1..]) then
        var v: int := DigitsValue(t[1..]);
        Some(if t[0] == '-' then -v else v)
      else None
    else if IsNumeric(t) then Some(DigitsValue(t))
    else None
  }

  // ---------------------------------------------------------------------
  // Lines

  /** The length of the text before the first line break (or of all of `s`). */
  function LineLength(s: string): (n: nat)
    ensures n <= |s| && NoLineBreak(s[..n])
    ensures n < |s| ==> IsLineBreak(s[n])
  {
    if s == [] || IsLineBreak(s[0]) then 0
    else
      var n := 1 + LineLength(s[1..]);
      assert s[..n] == [s[0]] + s[1..][..n - 1];
      n
  }

  /** Python's `str.splitlines()` (without the line ends). */
  function SplitLines(s: string): seq<string>
    decreases |s|
  {
    if s == [] then []
    else
      var n := LineLength(s);
      if n == |s| then [s]
      else
        var width := if s[n] == '\r' && n + 1 < |s| && s[n + 1] == '\n' then 2 else 1;
        [s[..n]] + SplitLines(s[n + width..])
  }

  /** `"\n".join(lines)`. */
  function JoinLines(lines: seq<string>): string {
    if |lines| == 0 then ""
    else if |lines| == 1 then lines[0]
    else lines[0] + "\n" + JoinLines(lines[1..])
  }

  /** Python's `s.rstrip('\n')`. */
  function RStripNewlines(s: string): (r: string)
    ensures r <= s && (r == [] || r[|r| - 1] != '\n')
  {
    if s != [] && s[|s| - 1] == '\n' then RStripNewlines(s[..|s| - 1]) else s
  }

  lemma {:induction false} LineLengthExact(s: string, n: nat)
    requires n <= |s| && NoLineBreak(s[..n]) && (n < |s| ==> IsLineBreak(s[n]))
    ensures LineLength(s) == n
  {
    if n > 0 {
      assert s[..n][0] == s[0];
      assert s[1..][..n - 1] == s[..n][1..];
      LineLengthExact(s[1..], n - 1);
    }
  }

  /** Splitting a line without breaks, followed by "\n" and more text. */
  lemma SplitLinesCons(line: string, rest: string)
    requires NoLineBreak(line)
    ensures SplitLines(line + "\n" + rest) == [line] + SplitLines(rest)
  {
    var s := line + "\n" + rest;
    assert s[..|line|] == line;
    LineLengthExact(s, |line|);
    assert s[|line| + 1..] == rest;
  }

  lemma SplitLinesOne(line: string)
    requires NoLineBreak(line) && line != []
    ensures SplitLines(line) == [line]
  {
    assert line[..|line|] == line;
    LineLengthExact(line, |line|);
  }

  /** Splitting joined lines, a line feed and a rest gives the lines back and
      then the lines of the rest, when none of the lines holds a line break. */
  lemma {:induction false} SplitJoinLines(lines: seq<string>, rest: string)
    requires forall i | 0 <= i < |lines| :: NoLineBreak(lines[i])
    requires lines != []
    ensures SplitLines(JoinLines(lines) + "\n" + rest) == lines + SplitLines(rest)
  {
    if |lines| == 1 {
      assert JoinLines(lines) == lines[0] && lines == [lines[0]];
      SplitLinesCons(lines[0], rest);
    } else {
      var tail := lines[1..];
      NoLineBreakTail(lines);
      calc {
        SplitLines(JoinLines(lines) + "\n" + rest);
        { SplitJoinFirst(lines, rest); }
        [lines[0]] + SplitLines(JoinLines(tail) + "\n" + rest);
        { SplitJoinLines(tail, rest); }
        [lines[0]] + (tail + SplitLines(rest));
        { assert [lines[0]] + tail == lines; }
        lines + SplitLines(rest);
      }
    }
  }

  /** The first of several joined lines splits off on its own. */
  lemma SplitJoinFirst(lines: seq<string>, rest: string)
    requires |lines| > 1 && NoLineBreak(lines[0])
    ensures SplitLines(JoinLines(lines) + "\n" + rest) == [lines[0]] + SplitLines(JoinLines(lines[1..]) + "\n" + rest)
  {
    var after := JoinLines(lines[1..]) + "\n" + rest;
    JoinRegroup(lines[0], JoinLines(lines[1..]), rest);
    SplitLinesCons(lines[0], after);
  }

  lemma NoLineBreakTail(lines: seq<string>)
    requires lines != [] && forall i | 0 <= i < |lines| :: NoLineBreak(lines[i])
    ensures forall i | 0 <= i < |lines[1..]| :: NoLineBreak(lines[1..][i])
  {
    var tail := lines[1..];
    forall i | 0 <= i < |tail| ensures NoLineBreak(tail[i]) {
      assert tail[i] == lines[i + 1];
    }
  }

  lemma JoinRegroup(a: string, j: string, rest: string)
    ensures a + "\n" + j + "\n" + rest == a + "\n" + (j + "\n" + rest)
  {
  }

  /** A non-empty string that does not end in a line break is a single line of
      `splitlines()` exactly when it holds no line break at all. */
  lemma SplitLinesSingle(s: string)
    requires s != [] && !IsLineBreak(s[|s| - 1])
    ensures |SplitLines(s)| == 1 <==> NoLineBreak(s)
  {
    var n := LineLength(s);
    if n == |s| {
      assert s[..n] == s;
    } else {
      assert !NoLineBreak(s) by { assert IsLineBreak(s[n]); }
      var width := if s[n] == '\r' && n + 1 < |s| && s[n + 1] == '\n' then 2 else 1;
      assert n + width < |s|;
      assert SplitLines(s) == [s[..n]] + SplitLines(s[n + width..]);
    }
  }

  /** Lines joined and closed by a blank line split into those lines and one
      empty line. */
  lemma SplitJoinLinesBlank(lines: seq<string>)
    requires forall i | 0 <= i < |lines| :: NoLineBreak(lines[i])
    requires lines != []
    ensures SplitLines(JoinLines(lines) + "\n\n") == lines + [""]
  {
    var j := JoinLines(lines);
    SplitJoinLines(lines, "\n");
    SplitNewline();
    Assoc3(j, "\n", "\n");
    assert "\n" + "\n" == "\n\n";
  }

  lemma SplitNewline()
    ensures SplitLines("\n") == [""]
  {
    assert LineLength("\n") == 0;
    assert "\n"[1..] == "";
  }

  lemma {:induction false} SplitJoinLinesEnd(lines: seq<string>)
    requires forall i | 0 <= i < |lines| :: NoLineBreak(lines[i])
    requires lines != [] && lines[|lines| - 1] != []
    ensures SplitLines(JoinLines(lines)) == lines
  {
    if |lines| == 1 {
      SplitLinesOne(lines[0]);
    } else {
      SplitJoinLinesEnd(lines[1..]);
      SplitLinesCons(lines[0], JoinLines(lines[1..]));
      assert [lines[0]] + lines[1..] == lines;
    }
  }
}
