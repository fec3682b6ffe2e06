/** Source reels: Black, Aux or a named Tape (edl/sources.py). Python
    compares and hashes reels by name only. */
module Sources {
  import opened Wrappers
  import opened Text

  datatype SourceReel = Black | Aux | Tape(tapeName: string)

  /** `SourceReel.name`. */
  function Name(r: SourceReel): string {
    match r
    case Black => "BL"
    case Aux => "AX"
    case Tape(n) => n
  }

  /** `BlackSource.validate`. */
  predicate IsBlack(reelName: string) { UpperStr(reelName) == "BL" }

  /** `AuxSource.validate`. */
  predicate IsAux(reelName: string) { UpperStr(reelName) == "AX" }

  /** `TapeSource.validate`: something left after `strip()`, and no whitespace anywhere. */
  predicate IsTape(reelName: string) { |Strip(reelName)| > 0 && NoSpace(reelName) }

  /** The Tape check is "a non-empty token": no whitespace and not empty. */
  lemma IsTapeIff(reelName: string)
    ensures IsTape(reelName) <==> IsToken(reelName)
  {
    StripShape(reelName);
    if IsToken(reelName) {
      assert !IsSpace(reelName[0]);
    }
  }

  /** `TapeSource(name)`: raises unless the name validates. */
  function NewTape(reelName: string): (r: Result<SourceReel>)
    ensures r.Ok? <==> IsToken(reelName)
    ensures r.Ok? ==> r.value == Tape(reelName)
    ensures r.Err? ==> r.error == InvalidReelCharacters
  {
    IsTapeIff(reelName);
    if IsTape(reelName) then Ok(Tape(reelName)) else Err(InvalidReelCharacters)
  }

  /** `SourceReel.from_string`: Black, then Aux, then Tape, else ValueError. */
  function FromString(reelName: string): (r: Result<SourceReel>)
    ensures r == Ok(Black) <==> IsBlack(reelName)
    ensures r == Ok(Aux) <==> IsAux(reelName) && !IsBlack(reelName)
    ensures r == Ok(Tape(reelName)) <==> !IsBlack(reelName) && !IsAux(reelName) && IsToken(reelName)
    ensures r.Err? <==> !IsBlack(reelName) && !IsAux(reelName) && !IsToken(reelName)
    ensures r.Err? ==> r.error == ReelNotRecognized
  {
    IsTapeIff(reelName);
    if IsBlack(reelName) then Ok(Black)
    else if IsAux(reelName) then Ok(Aux)
    else if IsTape(reelName) then NewTape(reelName)
    else Err(ReelNotRecognized)
  }

  /** `SourceReel.__eq__` (and the hash key): names only. */
  predicate SameReel(a: SourceReel, b: SourceReel) { Name(a) == Name(b) }

  /** A reel the factory can build: the result of `FromString` on its own name. */
  predicate Canonical(r: SourceReel) { FromString(Name(r)) == Ok(r) }

  /** Black and Aux are named "BL" and "AX" whatever the case of the input; a
      Tape keeps the token verbatim. */
  lemma FromStringNames(reelName: string)
    requires FromString(reelName).Ok?
    ensures var r := FromString(reelName).value;
      && (r.Black? ==> Name(r) == "BL")
      && (r.Aux? ==> Name(r) == "AX")
      && (r.Tape? ==> Name(r) == reelName)
      && (UpperStr(Name(r)) == UpperStr(reelName))
  {
    var r := FromString(reelName).value;
    if r.Black? {
      assert UpperStr("BL") == "BL";
    } else if r.Aux? {
      assert UpperStr("AX") == "AX";
    }
  }

  /** Every reel the factory builds is canonical, so
      `from_string(from_string(s).name) == from_string(s)`; and a canonical
      reel's name is a non-empty token. */
  lemma FromStringIdempotent(reelName: string)
    requires FromString(reelName).Ok?
    ensures Canonical(FromString(reelName).value)
    ensures IsToken(Name(FromString(reelName).value))
  {
    var r := FromString(reelName).value;
    if r.Black? {
      assert UpperStr("BL") == "BL";
    } else if r.Aux? {
      assert UpperStr("AX") == "AX";
      assert UpperStr("AX") != "BL";
    }
  }

  lemma CanonicalNameIsToken(r: SourceReel)
    requires Canonical(r)
    ensures IsToken(Name(r))
  {
    FromStringIdempotent(Name(r));
  }

  /** Among canonical reels, Python's name equality is plain equality. */
  lemma CanonicalSameReel(a: SourceReel, b: SourceReel)
    requires Canonical(a) && Canonical(b)
    ensures SameReel(a, b) <==> a == b
  {
  }

  /** A Tape built directly from "BL" equals Black, although the factory
      never builds it. */
  lemma TapeNamedLikeBlack()
    ensures NewTape("BL") == Ok(Tape("BL")) && SameReel(Tape("BL"), Black)
    ensures !Canonical(Tape("BL"))
  {
    UpperPair('B', 'L');
    TokenPair('B', 'L');
    assert IsBlack("BL");
    assert FromString("BL") == Ok(Black);
  }

  /** A Tape built directly from "AX" equals Aux, although the factory
      never builds it. */
  lemma TapeNamedLikeAux()
    ensures NewTape("AX") == Ok(Tape("AX")) && SameReel(Tape("AX"), Aux)
    ensures !Canonical(Tape("AX"))
  {
    UpperPair('A', 'X');
    TokenPair('A', 'X');
    assert IsAux("AX") && !IsBlack("AX");
    assert FromString("AX") == Ok(Aux);
  }

  /** The factory recognises Black and Aux in any case. */
  lemma FromStringIgnoresCase()
    ensures FromString("bl") == Ok(Black) && FromString("Ax") == Ok(Aux)
  {
    UpperPair('b', 'l');
    UpperPair('A', 'x');
  }

  lemma TokenPair(a: char, b: char)
    requires !IsSpace(a) && !IsSpace(b)
    ensures IsToken([a, b])
  {
  }

  lemma UpperPair(a: char, b: char)
    ensures UpperStr([a, b]) == [Upper(a), Upper(b)]
  {
  }

  /** Blank names and names with whitespace are rejected. */
  lemma TapeRejects(reelName: string)
    requires !IsToken(reelName)
    ensures NewTape(reelName) == Err(InvalidReelCharacters)
    ensures !IsBlack(reelName) && !IsAux(reelName) ==> FromString(reelName) == Err(ReelNotRecognized)
  {
  }
}
