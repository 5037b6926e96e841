/** The arithmetic shared by both scroll wheels: scroll offset to option
    index and back, the clamp into the option list, the lookup of a value,
    and the decision whether a resolved option is reported as a change. */
module WheelIndex {
  import opened Wrappers
  import opened Arith

  /** A wheel's item height in pixels (50 by default in both wheels). */
  type Height = h: int | h > 0 witness 50

  /** The value of a padding entry; never reported as a selection. */
  const Sentinel: int := -1

  /** `Math.round(off / h)` for integer offsets: the nearest integer r,
      r - 1/2 <= off / h < r + 1/2, so halves round up (towards positive
      infinity, as JavaScript does). */
  function Round(off: int, h: int): (r: int)
    requires h > 0
    ensures h * (2 * r - 1) <= 2 * off < h * (2 * r + 1)
  {
    var q, rem := (2 * off + h) / (2 * h), (2 * off + h) % (2 * h);
    assert 2 * off + h == q * (2 * h) + rem && 0 <= rem < 2 * h;
    assert h * (2 * q - 1) == q * (2 * h) - h;
    assert h * (2 * q + 1) == q * (2 * h) + h;
    q
  }

  /** The offset of item i resolves back to item i. */
  lemma RoundOfMultiple(i: int, h: int)
    requires h > 0
    ensures Round(i * h, h) == i
  {
    assert 2 * (i * h) + h == i * (2 * h) + h;
    DivIsUnique(2 * (i * h) + h, 2 * h, i);
  }

  /** `Math.max(0, Math.min(i, len - 1))`. */
  function ClampIndex(i: int, len: nat): (r: int)
    ensures len > 0 ==> 0 <= r < len
    ensures 0 <= i < len ==> r == i
    ensures len > 0 && i < 0 ==> r == 0
    ensures len > 0 && i >= len ==> r == len - 1
    ensures len == 0 ==> r == 0
  {
    var m := if i < len - 1 then i else len - 1;
    if 0 < m then m else 0
  }

  /** The option index a scroll offset selects in ScrollWheel.tsx: the
      rounded index when it names an option, else the nearer end. */
  function ResolveIndex(off: int, h: int, len: nat): (r: int)
    requires h > 0
    ensures len > 0 ==> 0 <= r < len
    ensures 0 <= Round(off, h) < len ==> r == Round(off, h)
    ensures len > 0 && Round(off, h) < 0 ==> r == 0
    ensures len > 0 && Round(off, h) >= len ==> r == len - 1
  {
    ClampIndex(Round(off, h), len)
  }

  /** Round trip: placing the wheel at item i (offset i*h) resolves to i. */
  lemma ResolveRoundTrip(i: int, h: int, len: nat)
    requires h > 0 && 0 <= i < len
    ensures ResolveIndex(i * h, h, len) == i
  {
    RoundOfMultiple(i, h);
  }

  /** `options.findIndex(o => o.value === v)`: the first position of v, or -1. */
  function FindIndex(options: seq<int>, v: int): (i: int)
    ensures -1 <= i < |options|
    ensures i == -1 <==> v !in options
    ensures i >= 0 ==> options[i] == v && v !in options[..i]
  {
    if options == [] then -1
    else if options[0] == v then 0
    else
      var j := FindIndex(options[1..], v);
      assert options[1..][..if j < 0 then 0 else j] == options[1..1 + if j < 0 then 0 else j];
      if j == -1 then -1 else j + 1
  }

  /** The value passed to `onChange` for the option at `idx`, if any: only an
      existing option, different from the current value, and not padding. */
  function ChangeAt(options: seq<int>, idx: int, value: int): (c: Option<int>)
    ensures c.Some? <==> 0 <= idx < |options| && options[idx] != value && options[idx] != Sentinel
    ensures c.Some? ==> c.value == options[idx] && c.value != value
  {
    if 0 <= idx < |options| && options[idx] != value && options[idx] != Sentinel
    then Some(options[idx]) else None
  }

  /** No feedback loop: once the wheel is placed at the current value's item,
      resolving that offset reports no change. */
  lemma NoEchoAtValue(options: seq<int>, v: int, h: int)
    requires h > 0 && v in options
    ensures ChangeAt(options, ResolveIndex(FindIndex(options, v) * h, h, |options|), v) == None
  {
    ResolveRoundTrip(FindIndex(options, v), h, |options|);
  }

  /** The offset `snapToNearestItem` in ScrollWheel.tsx aims for. */
  function SnapTarget(off: int, h: int, len: nat): (t: int)
    requires h > 0
    ensures ResolveIndex(t, h, len) == ResolveIndex(off, h, len)
    ensures len > 0 ==> 0 <= t <= (len - 1) * h
  {
    var i := ResolveIndex(off, h, len);
    RoundOfMultiple(i, h);
    if len > 0 then ScaleWithin(i, len - 1, h); i * h else i * h
  }

  /** A snap scrolls only when the offset is more than 2 away from the target. */
  predicate NeedsSnap(off: int, target: int) {
    off - target > 2 || target - off > 2
  }

  /** Snapping is idempotent: at a snap target no further scroll is needed. */
  lemma SnapIsIdempotent(off: int, h: int, len: nat)
    requires h > 0
    ensures SnapTarget(SnapTarget(off, h, len), h, len) == SnapTarget(off, h, len)
    ensures !NeedsSnap(SnapTarget(off, h, len), SnapTarget(SnapTarget(off, h, len), h, len))
  {
  }
}
