/** The four input-box row bounds and the rule by which the size buttons
    change them (`windowSizeUp` and `windowSizeDown`). The bounds are plain
    integers: nothing keeps a maximum at or above its minimum. */
module RowBounds {

  datatype Rows = Rows(maxRowsWide: int, minRowsWide: int, minRowsNormal: int, maxRowsNormal: int)

  /** The one bound a size button press changes. */
  datatype Target = MaxWide | MaxNormal | MinNormal | MinWide

  /** `Math.max` on two numbers. */
  function Max(a: int, b: int): (m: int)
    ensures m >= a && m >= b && (m == a || m == b)
  {
    if a >= b then a else b
  }

  /** The branch both size buttons take: with the expanded (pre-fullscreen)
      marker present they change the active mode's maximum, without it its
      minimum. */
  function TargetOf(expanded: bool, wide: bool): (t: Target)
    ensures t == MaxWide <==> expanded && wide
    ensures t == MaxNormal <==> expanded && !wide
    ensures t == MinNormal <==> !expanded && !wide
    ensures t == MinWide <==> !expanded && wide
  {
    if expanded && wide then MaxWide
    else if expanded && !wide then MaxNormal
    else if !wide then MinNormal
    else MinWide
  }

  function Get(r: Rows, t: Target): int
  {
    match t
    case MaxWide => r.maxRowsWide
    case MaxNormal => r.maxRowsNormal
    case MinNormal => r.minRowsNormal
    case MinWide => r.minRowsWide
  }

  function Set(r: Rows, t: Target, v: int): (r': Rows)
    ensures Get(r', t) == v
    ensures forall u :: u != t ==> Get(r', u) == Get(r, u)
  {
    match t
    case MaxWide => r.(maxRowsWide := v)
    case MaxNormal => r.(maxRowsNormal := v)
    case MinNormal => r.(minRowsNormal := v)
    case MinWide => r.(minRowsWide := v)
  }

  /** The value below which Down does not take a bound: a maximum stops at
      its mode's minimum, a minimum at 1. */
  function Floor(r: Rows, t: Target): int
  {
    match t
    case MaxWide => r.minRowsWide
    case MaxNormal => r.minRowsNormal
    case MinNormal => 1
    case MinWide => 1
  }

  /** A press of the Up button: one more row, with no ceiling. */
  function Up(r: Rows, t: Target): (r': Rows)
    ensures Get(r', t) == Get(r, t) + 1
    ensures forall u :: u != t ==> Get(r', u) == Get(r, u)
  {
    Set(r, t, Get(r, t) + 1)
  }

  /** A press of the Down button: `Math.max(floor, bound - 1)`. */
  function Down(r: Rows, t: Target): Rows
  {
    Set(r, t, Max(Floor(r, t), Get(r, t) - 1))
  }

  /** Down lowers the bound by one while it is above its floor, and leaves
      it at the floor otherwise (raising a bound that was below the floor);
      nothing else changes, the floor included. */
  lemma DownStepsToFloor(r: Rows, t: Target)
    ensures Get(Down(r, t), t) >= Floor(r, t)
    ensures Get(r, t) > Floor(r, t) ==> Get(Down(r, t), t) == Get(r, t) - 1
    ensures Get(r, t) <= Floor(r, t) ==> Get(Down(r, t), t) == Floor(r, t)
    ensures forall u :: u != t ==> Get(Down(r, t), u) == Get(r, u)
    ensures Floor(Down(r, t), t) == Floor(r, t)
  {
  }

  /** After Down a maximum is at least its mode's minimum and a minimum is
      at least 1. */
  lemma DownRespectsFloor(r: Rows, t: Target)
    ensures t == MaxWide ==> Down(r, t).maxRowsWide >= Down(r, t).minRowsWide
    ensures t == MaxNormal ==> Down(r, t).maxRowsNormal >= Down(r, t).minRowsNormal
    ensures t == MinNormal ==> Down(r, t).minRowsNormal >= 1
    ensures t == MinWide ==> Down(r, t).minRowsWide >= 1
  {
  }

  /** Down undoes Up on the same bound, provided the bound was not below
      its floor to begin with. */
  lemma DownAfterUp(r: Rows, t: Target)
    requires Get(r, t) >= Floor(r, t)
    ensures Down(Up(r, t), t) == r
  {
    var u := Up(r, t);
    assert Floor(u, t) == Floor(r, t);
  }

  /** Up undoes Down on a bound that was above its floor. */
  lemma UpAfterDown(r: Rows, t: Target)
    requires Get(r, t) > Floor(r, t)
    ensures Up(Down(r, t), t) == r
  {
  }

  /** A bound at its floor is a fixed point of Down. */
  lemma DownAtFloor(r: Rows, t: Target)
    requires Get(r, t) == Floor(r, t)
    ensures Down(r, t) == r
  {
  }

  /** `n` presses of the Down button on the same bound. */
  function DownTimes(r: Rows, t: Target, n: nat): Rows
    decreases n
  {
    if n == 0 then r else DownTimes(Down(r, t), t, n - 1)
  }

  /** `n` presses of the Up button on the same bound. */
  function UpTimes(r: Rows, t: Target, n: nat): Rows
    decreases n
  {
    if n == 0 then r else UpTimes(Up(r, t), t, n - 1)
  }

  /** After `n > 0` presses of Down the bound is `max(floor, bound - n)`,
      and the other bounds are as they were. */
  lemma {:induction false} DownTimesValue(r: Rows, t: Target, n: nat)
    ensures n > 0 ==> Get(DownTimes(r, t, n), t) == Max(Floor(r, t), Get(r, t) - n)
    ensures forall u :: u != t ==> Get(DownTimes(r, t, n), u) == Get(r, u)
    ensures Floor(DownTimes(r, t, n), t) == Floor(r, t)
    decreases n
  {
    if n > 0 {
      DownStepsToFloor(r, t);
      DownTimesValue(Down(r, t), t, n - 1);
    }
  }

  /** After `n` presses of Up the bound is `n` higher and the others are as
      they were. */
  lemma {:induction false} UpTimesValue(r: Rows, t: Target, n: nat)
    ensures Get(UpTimes(r, t, n), t) == Get(r, t) + n
    ensures forall u :: u != t ==> Get(UpTimes(r, t, n), u) == Get(r, u)
    decreases n
  {
    if n > 0 {
      UpTimesValue(Up(r, t), t, n - 1);
    }
  }

  /** Ten presses of Down from a wide minimum of 6 end at 1, not below. */
  lemma TenDownsFromSix(r: Rows)
    requires r.minRowsWide == 6
    ensures DownTimes(r, MinWide, 10).minRowsWide == 1
  {
    DownTimesValue(r, MinWide, 10);
  }

  /** The bounds do not keep a maximum at or above its minimum: from the
      default bounds, seven Up presses on the wide minimum take it past the
      wide maximum. */
  lemma UpPassesMaximum()
    ensures var r := UpTimes(Rows(12, 6, 3, 8), MinWide, 7);
            r.minRowsWide == 13 && r.maxRowsWide == 12
  {
    UpTimesValue(Rows(12, 6, 3, 8), MinWide, 7);
  }

  /** Down on a maximum that is below its minimum raises it to the
      minimum. */
  lemma DownCanRaiseMaximum(r: Rows)
    requires r.maxRowsWide < r.minRowsWide
    ensures Down(r, MaxWide).maxRowsWide == r.minRowsWide > r.maxRowsWide
  {
  }
}
