/** The frame counting mode (FCM) of an EDL, bound to its header token
    (edl/fcm.py). */
module FrameCounting {
  import opened Wrappers

  datatype Fcm = NonDropFrame | DropFrame | Pal

  /** `Fcm.value`: the token written after "FCM:" in a header. */
  function Value(f: Fcm): string {
    match f
    case NonDropFrame => "NON-DROP FRAME"
    case DropFrame => "DROP FRAME"
    case Pal => "PAL"
  }

  /** `Fcm(s)`: the member whose value is exactly `s` (case-sensitive), or
      `None` where Python raises ValueError. */
  function FromValue(s: string): (r: Option<Fcm>)
    ensures r.Some? <==> s == "NON-DROP FRAME" || s == "DROP FRAME" || s == "PAL"
    ensures r.Some? ==> Value(r.value) == s
  {
    if s == "NON-DROP FRAME" then Some(NonDropFrame)
    else if s == "DROP FRAME" then Some(DropFrame)
    else if s == "PAL" then Some(Pal)
    else None
  }

  /** Looking a member up by its own value gives that member back, so the
      three tokens are distinct. */
  lemma FromValueOfValue(f: Fcm)
    ensures FromValue(Value(f)) == Some(f)
    ensures forall g: Fcm :: Value(g) == Value(f) ==> g == f
  {
  }
}
