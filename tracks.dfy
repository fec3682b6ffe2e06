/** A track of the EDL: a type letter and an index (edl/tracks.py). Python
    compares tracks by their rendered name and orders them by index alone. */
module Tracks {
  import opened Wrappers
  import opened Text

  datatype TrackType = Video | Audio

  /** `Track.Type.value`. */
  function TypeValue(t: TrackType): string {
    match t
    case Video => "V"
    case Audio => "A"
  }

  /** `Track.Type(s)`: lookup by value, ValueError for anything else. */
  function TypeFromValue(s: string): (r: Result<TrackType>)
    ensures r.Ok? <==> s == "V" || s == "A"
    ensures r.Ok? ==> TypeValue(r.value) == s
    ensures r.Err? ==> r.error == InvalidTrackType
  {
    if s == "V" then Ok(Video) else if s == "A" then Ok(Audio) else Err(InvalidTrackType)
  }

  /** `_type` and `_index` as the constructor sets them; the index is any
      integer `int()` accepts. */
  datatype Track = Track(kind: TrackType, index: int)

  /** `Track(name)`: the upper-cased first character is the type, the rest
      (if any) is the index, which defaults to 1. */
  function FromName(name: string): (r: Result<Track>)
    ensures r.Ok? <==>
      && |name| > 0
      && (Upper(name[0]) == 'V' || Upper(name[0]) == 'A')
      && (|name| == 1 || ParseInt(name[1..]).Some?)
    ensures r.Ok? ==> TypeValue(r.value.kind) == [Upper(name[0])]
    ensures r.Ok? ==> r.value.index == if |name| > 1 then ParseInt(name[1..]).value else 1
    ensures |name| == 0 ==> r == Err(IndexOutOfRange)
  {
    if |name| == 0 then Err(IndexOutOfRange)
    else
      var kind :- TypeFromValue([Upper(name[0])]);
      if |name| > 1 then
        match ParseInt(name[1..])
        case None => Err(InvalidIntLiteral)
        case Some(i) => Ok(Track(kind, i))
      else Ok(Track(kind, 1))
  }

  /** `Track.name`: the bare letter up to index 1, else the letter followed by
      the decimal index. */
  function Name(t: Track): (r: string)
    ensures |r| >= 1 && [r[0]] == TypeValue(t.kind)
    ensures t.index <= 1 <==> |r| == 1
    ensures t.index > 1 ==> IsNumeric(r[1..]) && DigitsValue(r[1..]) == t.index
  {
    if t.index > 1 then
      NatToStringValue(t.index);
      var r := TypeValue(t.kind) + NatToString(t.index);
      assert r[1..] == NatToString(t.index);
      r
    else TypeValue(t.kind)
  }

  /** The track with index 1 in place of any index up to 1: the one that
      `FromName` builds from this track's name. */
  function Canonical(t: Track): Track {
    if t.index <= 1 then Track(t.kind, 1) else t
  }

  /** Re-parsing a track's name gives the canonical track, so re-parsing is
      stable: `Track(Track(s).name).name == Track(s).name`. */
  lemma NameReparse(t: Track)
    ensures FromName(Name(t)) == Ok(Canonical(t))
    ensures Name(Canonical(t)) == Name(t)
  {
    var n := Name(t);
    assert Upper(n[0]) == n[0];
    if t.index > 1 {
      assert ParseInt(n[1..]) == Some(t.index);
    }
  }

  lemma NameStable(s: string)
    requires FromName(s).Ok?
    ensures FromName(Name(FromName(s).value)).Ok?
    ensures Name(FromName(Name(FromName(s).value)).value) == Name(FromName(s).value)
  {
    NameReparse(FromName(s).value);
  }

  /** A track name is one token: a type letter followed by decimal digits. */
  lemma NameIsToken(t: Track)
    ensures IsToken(Name(t))
  {
    var n := Name(t);
    forall i | 0 <= i < |n| ensures !IsSpace(n[i]) {
      if i > 0 {
        assert n[i] == n[1..][i - 1];
      }
    }
  }

  /** The right-hand side of `==` and `<`, which may be something other than a Track. */
  datatype Operand = TrackOperand(track: Track) | NotATrack

  /** `Track.__eq__`: false for a non-Track, otherwise equal names. */
  predicate Equals(t: Track, other: Operand) {
    match other
    case NotATrack => false
    case TrackOperand(o) => Name(t) == Name(o)
  }

  /** `Track.__lt__`: false for a non-Track, otherwise by index alone. */
  predicate LessThan(t: Track, other: Operand) {
    match other
    case NotATrack => false
    case TrackOperand(o) => t.index < o.index
  }

  /** `Track.__hash__` hashes the name; this is the hashed key. */
  function HashKey(t: Track): string {
    Name(t)
  }

  /** Two tracks are equal exactly when their types agree and their indexes
      are equal or both at most 1; equal tracks have equal hash keys. */
  lemma EqualsIff(a: Track, b: Track)
    ensures Equals(a, TrackOperand(b)) <==>
      a.kind == b.kind && (a.index == b.index || (a.index <= 1 && b.index <= 1))
    ensures Equals(a, TrackOperand(b)) ==> HashKey(a) == HashKey(b)
  {
    var na, nb := Name(a), Name(b);
    if na == nb {
      assert [na[0]] == [nb[0]];
      assert a.kind == b.kind;
      if a.index > 1 {
        assert na[1..] == nb[1..];
      }
    }
    if a.kind == b.kind && a.index == b.index {
      assert na == nb;
    }
  }

  /** Track("A1") == Track("a") == Track("A"), and Track("V") != Track("A"). */
  lemma EqualityExamples()
    ensures FromName("A1") == Ok(Track(Audio, 1))
    ensures FromName("a") == Ok(Track(Audio, 1)) && FromName("A") == Ok(Track(Audio, 1))
    ensures FromName("V") == Ok(Track(Video, 1))
    ensures Equals(Track(Audio, 1), TrackOperand(Track(Audio, 1)))
    ensures !Equals(Track(Video, 1), TrackOperand(Track(Audio, 1)))
  {
    assert ParseInt("1") == Some(1) by {
      assert IsNumeric("1");
      assert DigitsValue("1") == 1 by { assert "1"[..0] == []; }
    }
    assert "A1"[1..] == "1";
  }

  /** Track("V") < Track("A2"); Track("V") and Track("A") are neither < nor ==;
      B is not a track type. */
  lemma OrderExamples()
    ensures FromName("A2") == Ok(Track(Audio, 2))
    ensures LessThan(Track(Video, 1), TrackOperand(Track(Audio, 2)))
    ensures !LessThan(Track(Video, 1), TrackOperand(Track(Audio, 1)))
    ensures !LessThan(Track(Audio, 1), TrackOperand(Track(Video, 1)))
    ensures !Equals(Track(Video, 1), TrackOperand(Track(Audio, 1)))
    ensures FromName("B") == Err(InvalidTrackType) && FromName("b") == Err(InvalidTrackType)
  {
    assert ParseInt("2") == Some(2) by {
      assert IsNumeric("2");
      assert DigitsValue("2") == 2 by { assert "2"[..0] == []; }
    }
    assert "A2"[1..] == "2";
  }

  /** `__lt__` between tracks compares indexes alone: a strict order that
      ignores the type letter. */
  lemma LessThanOrder(a: Track, b: Track, c: Track)
    ensures !LessThan(a, TrackOperand(a))
    ensures LessThan(a, TrackOperand(b)) ==> !LessThan(b, TrackOperand(a))
    ensures LessThan(a, TrackOperand(b)) && LessThan(b, TrackOperand(c)) ==> LessThan(a, TrackOperand(c))
    ensures LessThan(a, TrackOperand(b)) || LessThan(b, TrackOperand(a)) || a.index == b.index
    ensures LessThan(a, TrackOperand(b)) == LessThan(Track(Video, a.index), TrackOperand(Track(Audio, b.index)))
  {
  }

  /** `__lt__` and `__eq__` disagree only below index 2: `__eq__` reads every
      index up to 1 as 1, so two equal tracks are ordered only when both
      indexes are at most 1. */
  lemma EqualTracksOrdered(a: Track, b: Track)
    ensures Equals(a, TrackOperand(b)) && LessThan(a, TrackOperand(b)) ==> a.index < b.index <= 1
    ensures a.kind == b.kind && a.index < b.index <= 1 ==> Equals(a, TrackOperand(b)) && LessThan(a, TrackOperand(b))
  {
    EqualsIff(a, b);
  }

  /** Track("A0") == Track("A"), and yet Track("A0") < Track("A"). */
  lemma EqualButLess()
    ensures FromName("A0") == Ok(Track(Audio, 0)) && FromName("A") == Ok(Track(Audio, 1))
    ensures Equals(Track(Audio, 0), TrackOperand(Track(Audio, 1)))
    ensures LessThan(Track(Audio, 0), TrackOperand(Track(Audio, 1)))
  {
    assert ParseInt("0") == Some(0) by {
      assert IsNumeric("0");
      assert DigitsValue("0") == 0 by { assert "0"[..0] == []; }
    }
    assert "A0"[1..] == "0";
    EqualTracksOrdered(Track(Audio, 0), Track(Audio, 1));
  }

  /** Comparing with something that is not a Track is false both ways. */
  lemma NonTrackComparisons(t: Track)
    ensures !Equals(t, NotATrack) && !LessThan(t, NotATrack)
  {
  }
}
