/** Screen modes and the cyclic successor/predecessor used to switch between them
    (nextIntInCycle, prevIntInCycle, nextScreenMode, prevScreenMode). */
module ScreenModes {
  import opened Sequences

  /** WindowMaximisation: how much of the screen the focused panel takes. */
  datatype ScreenMode = Normal | Half | Full

  /** The list both screen-mode handlers cycle through. */
  const ModeCycle: seq<ScreenMode> := [Normal, Half, Full]

  /** Position of the first occurrence of x in sl, or |sl| when x does not occur. */
  function IndexOf<T(==)>(sl: seq<T>, x: T): (i: nat)
    ensures i <= |sl|
    ensures i < |sl| ==> sl[i] == x
    ensures forall j :: 0 <= j < i ==> sl[j] != x
  {
    if |sl| == 0 then 0
    else if sl[0] == x then 0
    else 1 + IndexOf(sl[1..], x)
  }

  /** The element after the first occurrence of current, wrapping from the last element
      to the first; the first element when current does not occur. */
  function NextInCycle<T(==)>(sl: seq<T>, current: T): (r: T)
    requires |sl| > 0
    ensures r in sl
    ensures current !in sl ==> r == sl[0]
  {
    var i := IndexOf(sl, current);
    if i + 1 < |sl| then sl[i + 1] else sl[0]
  }

  /** The element before the first occurrence of current, wrapping from the first element
      to the last; the last element when current does not occur. */
  function PrevInCycle<T(==)>(sl: seq<T>, current: T): (r: T)
    requires |sl| > 0
    ensures r in sl
    ensures current !in sl ==> r == sl[|sl| - 1]
  {
    var i := IndexOf(sl, current);
    if 0 < i < |sl| then sl[i - 1] else sl[|sl| - 1]
  }

  /** nextIntInCycle: a search loop that returns as soon as it finds current. */
  method NextIntInCycle<T(==)>(sl: seq<T>, current: T) returns (r: T)
    requires |sl| > 0
    ensures r == NextInCycle(sl, current)
  {
    for i := 0 to |sl|
      invariant forall j :: 0 <= j < i ==> sl[j] != current
    {
      if sl[i] == current {
        if i == |sl| - 1 {
          return sl[0];
        }
        return sl[i + 1];
      }
    }
    return sl[0];
  }

  /** prevIntInCycle: the same search, returning the element before current. */
  method PrevIntInCycle<T(==)>(sl: seq<T>, current: T) returns (r: T)
    requires |sl| > 0
    ensures r == PrevInCycle(sl, current)
  {
    for i := 0 to |sl|
      invariant forall j :: 0 <= j < i ==> sl[j] != current
    {
      if sl[i] == current {
        if i > 0 {
          return sl[i - 1];
        }
        return sl[|sl| - 1];
      }
    }
    return sl[|sl| - 1];
  }

  /** In a list without repeats the first occurrence of sl[i] is i itself. */
  lemma IndexOfDistinct<T>(sl: seq<T>, i: nat)
    requires Distinct(sl) && i < |sl|
    ensures IndexOf(sl, sl[i]) == i
  {
  }

  /** In a list without repeats, the successor of sl[i] is sl[i + 1], or sl[0] for the last element. */
  lemma NextInCycleAt<T>(sl: seq<T>, i: nat)
    requires Distinct(sl) && i < |sl|
    ensures NextInCycle(sl, sl[i]) == if i + 1 < |sl| then sl[i + 1] else sl[0]
  {
    IndexOfDistinct(sl, i);
  }

  /** In a list without repeats, the predecessor of sl[i] is sl[i - 1], or the last element for sl[0]. */
  lemma PrevInCycleAt<T>(sl: seq<T>, i: nat)
    requires Distinct(sl) && i < |sl|
    ensures PrevInCycle(sl, sl[i]) == if i > 0 then sl[i - 1] else sl[|sl| - 1]
  {
    IndexOfDistinct(sl, i);
  }

  /** Stepping back undoes stepping forward, and the other way round, for every element
      of a list without repeats. */
  lemma CycleRoundTrip<T>(sl: seq<T>, x: T)
    requires Distinct(sl) && x in sl
    ensures PrevInCycle(sl, NextInCycle(sl, x)) == x
    ensures NextInCycle(sl, PrevInCycle(sl, x)) == x
  {
    var i :| 0 <= i < |sl| && sl[i] == x;
    NextInCycleAt(sl, i);
    PrevInCycleAt(sl, i);
    var n := if i + 1 < |sl| then i + 1 else 0;
    var p := if i > 0 then i - 1 else |sl| - 1;
    PrevInCycleAt(sl, n);
    NextInCycleAt(sl, p);
  }

  /** n successive steps forward from x. */
  function NextIterated<T(==)>(sl: seq<T>, x: T, n: nat): T
    requires |sl| > 0
  {
    if n == 0 then x else NextInCycle(sl, NextIterated(sl, x, n - 1))
  }

  /** Stepping a + b times is stepping a times and then b times. */
  lemma {:induction false} NextIteratedAdd<T>(sl: seq<T>, x: T, a: nat, b: nat)
    requires |sl| > 0
    ensures NextIterated(sl, x, a + b) == NextIterated(sl, NextIterated(sl, x, a), b)
  {
    if b > 0 {
      NextIteratedAdd(sl, x, a, b - 1);
    }
  }

  /** In a list without repeats, n steps forward from sl[i] land on sl[i + n] while that exists. */
  lemma {:induction false} NextIteratedAt<T>(sl: seq<T>, i: nat, n: nat)
    requires Distinct(sl) && i + n < |sl|
    ensures NextIterated(sl, sl[i], n) == sl[i + n]
  {
    if n > 0 {
      NextIteratedAt(sl, i, n - 1);
      NextInCycleAt(sl, i + n - 1);
    }
  }

  /** From the last element, 1 + i steps forward reach sl[i]. */
  lemma FromLast<T>(sl: seq<T>, i: nat)
    requires Distinct(sl) && i < |sl|
    ensures NextIterated(sl, sl[|sl| - 1], 1 + i) == sl[i]
  {
    assert NextIterated(sl, sl[|sl| - 1], 1) == sl[0] by {
      NextInCycleAt(sl, |sl| - 1);
    }
    NextIteratedAt(sl, 0, i);
    NextIteratedAdd(sl, sl[|sl| - 1], 1, i);
  }

  /** Going forward as many times as the list is long comes back to where one started. */
  lemma FullCycle<T>(sl: seq<T>, i: nat)
    requires Distinct(sl) && i < |sl|
    ensures NextIterated(sl, sl[i], |sl|) == sl[i]
  {
    var last := |sl| - 1;
    NextIteratedAt(sl, i, last - i);
    FromLast(sl, i);
    ComposeSteps(sl, sl[i], sl[last], sl[i], last - i, 1 + i);
  }

  /** a steps from x reach y and b steps from y reach z, so a + b steps from x reach z. */
  lemma ComposeSteps<T>(sl: seq<T>, x: T, y: T, z: T, a: nat, b: nat)
    requires |sl| > 0
    requires NextIterated(sl, x, a) == y && NextIterated(sl, y, b) == z
    ensures NextIterated(sl, x, a + b) == z
  {
    NextIteratedAdd(sl, x, a, b);
  }

  lemma ModeCycleDistinct()
    ensures Distinct(ModeCycle)
  {
  }

  /** For the screen modes, previous undoes next and next undoes previous. */
  lemma ScreenModeRoundTrip(m: ScreenMode)
    ensures PrevInCycle(ModeCycle, NextInCycle(ModeCycle, m)) == m
    ensures NextInCycle(ModeCycle, PrevInCycle(ModeCycle, m)) == m
  {
    ModeCycleDistinct();
    assert m in ModeCycle by {
      match m
      case Normal => assert ModeCycle[0] == m;
      case Half => assert ModeCycle[1] == m;
      case Full => assert ModeCycle[2] == m;
    }
    CycleRoundTrip(ModeCycle, m);
  }

  /** Three calls of nextScreenMode restore the original mode, and no fewer do. */
  lemma ScreenModeThreeSteps(m: ScreenMode)
    ensures NextIterated(ModeCycle, m, 3) == m
    ensures NextIterated(ModeCycle, m, 1) != m && NextIterated(ModeCycle, m, 2) != m
  {
    ModeCycleDistinct();
    NextInCycleAt(ModeCycle, 0);
    NextInCycleAt(ModeCycle, 1);
    NextInCycleAt(ModeCycle, 2);
  }

  /** The screen-mode part of the gui state. */
  class ScreenState {
    var mode: ScreenMode

    constructor (initial: ScreenMode)
      ensures mode == initial
    {
      mode := initial;
    }

    /** nextScreenMode: advance to the next mode, wrapping from Full to Normal. */
    method NextScreenMode()
      modifies this
      ensures mode == NextInCycle(ModeCycle, old(mode))
    {
      mode := NextIntInCycle(ModeCycle, mode);
    }

    /** prevScreenMode: go back to the previous mode, wrapping from Normal to Full. */
    method PrevScreenMode()
      modifies this
      ensures mode == PrevInCycle(ModeCycle, old(mode))
    {
      mode := PrevIntInCycle(ModeCycle, mode);
    }
  }
}
