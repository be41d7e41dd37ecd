/** Scrolling a view's origin up and down (scrollUpView, scrollDownView) and the handlers
    that scroll the main, secondary and confirmation views. */
module Scrolling {
  import opened Wrappers

  /** The scrolling settings of the user config: Gui.ScrollHeight and Gui.ScrollPastBottom. */
  datatype ScrollConfig = ScrollConfig(scrollHeight: int, scrollPastBottom: bool)

  function Max(a: int, b: int): int { if a < b then b else a }

  function Min(a: int, b: int): int { if a < b then a else b }

  /** New vertical origin after scrolling up: ScrollHeight lines higher, clamped at the first line. */
  function ScrollUpOrigin(oy: int, scrollHeight: int): (r: int)
    ensures r >= 0 && r >= oy - scrollHeight
    ensures r == 0 || r == oy - scrollHeight
  {
    Max(0, oy - scrollHeight)
  }

  /** How many lines must stay visible when scrolled all the way down. */
  function Margin(scrollPastBottom: bool): int
  {
    if scrollPastBottom then 2 else 1
  }

  /** Lines below the bottom edge of the view; below its top edge when scrolling past the
      bottom is allowed. */
  function ScrollableLines(oy: int, viewHeight: int, linesHeight: int, scrollPastBottom: bool): int
  {
    linesHeight - (if scrollPastBottom then oy else oy + viewHeight)
  }

  /** The outcome of scrollDownView: the (possibly reduced) scroll height that is handed to the
      view's buffer manager, and the new vertical origin when the origin is set at all. */
  datatype ScrollDown = ScrollDown(step: int, newOy: Option<int>)

  function ScrollDownPlan(oy: int, viewHeight: int, linesHeight: int, cfg: ScrollConfig): (p: ScrollDown)
    ensures var lines := ScrollableLines(oy, viewHeight, linesHeight, cfg.scrollPastBottom);
            && (lines <= 0 ==> p == ScrollDown(cfg.scrollHeight, None))
            && (lines > 0 ==> p.step == Min(cfg.scrollHeight, lines - Margin(cfg.scrollPastBottom)))
            && (p.newOy.Some? <==> lines > 0 && oy + p.step >= 0)
            && (p.newOy.Some? ==> p.newOy.value == oy + p.step)
  {
    var lines := ScrollableLines(oy, viewHeight, linesHeight, cfg.scrollPastBottom);
    if lines <= 0 then ScrollDown(cfg.scrollHeight, None)
    else
      var step := if lines - Margin(cfg.scrollPastBottom) < cfg.scrollHeight
                  then lines - Margin(cfg.scrollPastBottom) else cfg.scrollHeight;
      ScrollDown(step, if oy + step >= 0 then Some(oy + step) else None)
  }

  /** The origin after scrolling down: the planned one, or the old one when it is not set. */
  function ScrollDownOrigin(oy: int, viewHeight: int, linesHeight: int, cfg: ScrollConfig): int
  {
    var p := ScrollDownPlan(oy, viewHeight, linesHeight, cfg);
    if p.newOy.Some? then p.newOy.value else oy
  }

  /** A new origin set by scrollDownView is never negative. */
  lemma ScrollDownNeverNegative(oy: int, viewHeight: int, linesHeight: int, cfg: ScrollConfig)
    requires ScrollDownPlan(oy, viewHeight, linesHeight, cfg).newOy.Some?
    ensures ScrollDownPlan(oy, viewHeight, linesHeight, cfg).newOy.value >= 0
  {
  }

  /** Without scroll-past-bottom, a move leaves at least one line of content below the view:
      the last visible line is at most linesHeight - 2. */
  lemma ScrollDownKeepsContentBelow(oy: int, viewHeight: int, linesHeight: int, cfg: ScrollConfig)
    requires !cfg.scrollPastBottom
    requires ScrollDownPlan(oy, viewHeight, linesHeight, cfg).newOy.Some?
    ensures ScrollDownPlan(oy, viewHeight, linesHeight, cfg).newOy.value + viewHeight <= linesHeight - 1
  {
  }

  /** With scroll-past-bottom, a move leaves at least two lines of content from the origin on. */
  lemma ScrollDownPastBottomKeepsTwoLines(oy: int, viewHeight: int, linesHeight: int, cfg: ScrollConfig)
    requires cfg.scrollPastBottom
    requires ScrollDownPlan(oy, viewHeight, linesHeight, cfg).newOy.Some?
    ensures ScrollDownPlan(oy, viewHeight, linesHeight, cfg).newOy.value <= linesHeight - 2
  {
  }

  /** Without scroll-past-bottom and with a non-negative scroll height, scrolling down never
      moves the origin up. */
  lemma ScrollDownMonotone(oy: int, viewHeight: int, linesHeight: int, cfg: ScrollConfig)
    requires !cfg.scrollPastBottom && cfg.scrollHeight >= 0
    ensures ScrollDownOrigin(oy, viewHeight, linesHeight, cfg) >= oy
  {
  }

  /** With scroll-past-bottom and a single line left below the origin, the step is -1: a
      scroll down moves the origin one line up. */
  lemma ScrollDownStepsBack(oy: int, viewHeight: int, linesHeight: int, cfg: ScrollConfig)
    requires cfg.scrollPastBottom && cfg.scrollHeight >= 0
    requires linesHeight - oy == 1 && oy >= 1
    ensures ScrollDownPlan(oy, viewHeight, linesHeight, cfg) == ScrollDown(-1, Some(oy - 1))
  {
  }

  /** A scroll key press. */
  datatype ScrollCommand = Up | Down

  /** The vertical origin after a run of scroll commands on a view whose size and content stay
      the same. */
  function ApplyScrolls(oy: int, cmds: seq<ScrollCommand>, viewHeight: int, linesHeight: int,
                        cfg: ScrollConfig): int
    decreases |cmds|
  {
    if cmds == [] then oy
    else
      var next := match cmds[0]
        case Up => ScrollUpOrigin(oy, cfg.scrollHeight)
        case Down => ScrollDownOrigin(oy, viewHeight, linesHeight, cfg);
      ApplyScrolls(next, cmds[1..], viewHeight, linesHeight, cfg)
  }

  /** Without scroll-past-bottom, an origin that starts within [0, max(0, linesHeight - viewHeight)]
      stays there whatever scroll commands follow. */
  lemma {:induction false} ScrollsStayInRange(oy: int, cmds: seq<ScrollCommand>, viewHeight: int,
                                              linesHeight: int, cfg: ScrollConfig)
    requires !cfg.scrollPastBottom && cfg.scrollHeight >= 0
    requires 0 <= oy <= Max(0, linesHeight - viewHeight)
    ensures 0 <= ApplyScrolls(oy, cmds, viewHeight, linesHeight, cfg) <= Max(0, linesHeight - viewHeight)
    decreases |cmds|
  {
    if cmds != [] {
      var next := match cmds[0]
        case Up => ScrollUpOrigin(oy, cfg.scrollHeight)
        case Down => ScrollDownOrigin(oy, viewHeight, linesHeight, cfg);
      if cmds[0] == Down && ScrollDownPlan(oy, viewHeight, linesHeight, cfg).newOy.Some? {
        ScrollDownKeepsContentBelow(oy, viewHeight, linesHeight, cfg);
      }
      ScrollsStayInRange(next, cmds[1..], viewHeight, linesHeight, cfg);
    }
  }

  /** The parts of a gocui view that scrolling reads and writes. */
  class View {
    const name: string
    var ox: int
    var oy: int
    /** The view's height, the second result of Size(). */
    var height: int
    /** ViewLinesHeight(): the number of lines of content. */
    var linesHeight: int
    var editable: bool

    /** The origin is never negative. */
    ghost predicate Valid()
      reads this
    {
      ox >= 0 && oy >= 0
    }

    constructor (name: string, height: int, linesHeight: int, editable: bool)
      ensures Valid()
      ensures this.name == name && ox == 0 && oy == 0
      ensures this.height == height && this.linesHeight == linesHeight && this.editable == editable
    {
      this.name := name;
      ox, oy := 0, 0;
      this.height := height;
      this.linesHeight := linesHeight;
      this.editable := editable;
    }

    method SetOrigin(x: int, y: int)
      requires x >= 0 && y >= 0
      modifies this`ox, this`oy
      ensures ox == x && oy == y
    {
      ox, oy := x, y;
    }
  }

  /** scrollUpView: move the origin ScrollHeight lines up, never above the first line. */
  method ScrollUpView(view: View, cfg: ScrollConfig)
    requires view.Valid()
    modifies view`ox, view`oy
    ensures view.Valid()
    ensures view.ox == old(view.ox)
    ensures view.oy == ScrollUpOrigin(old(view.oy), cfg.scrollHeight)
  {
    var ox, oy := view.ox, view.oy;
    var newOy := Max(0, oy - cfg.scrollHeight);
    view.SetOrigin(ox, newOy);
  }

  /** scrollDownView: move the origin down by at most ScrollHeight lines, keeping the margin, and
      hand the step to the view's buffer manager when it has one (readLines is that argument). */
  method ScrollDownView(view: View, cfg: ScrollConfig, bufferManagers: set<string>)
    returns (readLines: Option<int>)
    requires view.Valid()
    modifies view`ox, view`oy
    ensures view.Valid()
    ensures view.ox == old(view.ox)
    ensures view.oy == ScrollDownOrigin(old(view.oy), view.height, view.linesHeight, cfg)
    ensures readLines == if view.name in bufferManagers
                         then Some(ScrollDownPlan(old(view.oy), view.height, view.linesHeight, cfg).step)
                         else None
  {
    var ox, oy := view.ox, view.oy;
    var y := oy;
    if !cfg.scrollPastBottom {
      y := y + view.height;
    }
    var scrollHeight := cfg.scrollHeight;
    var scrollableLines := view.linesHeight - y;
    if scrollableLines > 0 {
      var margin := 1;
      if cfg.scrollPastBottom {
        margin := 2;
      }
      if scrollableLines - margin < scrollHeight {
        scrollHeight := scrollableLines - margin;
      }
      if oy + scrollHeight >= 0 {
        view.SetOrigin(ox, oy + scrollHeight);
      }
    }
    readLines := if view.name in bufferManagers then Some(scrollHeight) else None;
  }

  /** The views the scroll handlers act on, and the merge panel's UserScrolling flag. */
  class ScrollGui {
    const main: View
    const secondary: View
    const confirmation: View
    const config: ScrollConfig
    /** Names of the views that have a view buffer manager. */
    const bufferManagers: set<string>
    var mergingUserScrolling: bool

    ghost predicate Valid()
      reads this, main, secondary, confirmation
    {
      main.Valid() && secondary.Valid() && confirmation.Valid()
    }

    constructor (main: View, secondary: View, confirmation: View, config: ScrollConfig,
                 bufferManagers: set<string>)
      requires main.Valid() && secondary.Valid() && confirmation.Valid()
      ensures Valid()
      ensures this.main == main && this.secondary == secondary && this.confirmation == confirmation
      ensures this.config == config && this.bufferManagers == bufferManagers
      ensures !mergingUserScrolling
    {
      this.main := main;
      this.secondary := secondary;
      this.confirmation := confirmation;
      this.config := config;
      this.bufferManagers := bufferManagers;
      mergingUserScrolling := false;
    }

    /** scrollUpMain: flags the merge panel as user-scrolled when it can scroll, then scrolls main up. */
    method ScrollUpMain(canScrollMergePanel: bool)
      requires Valid()
      modifies this`mergingUserScrolling, main`ox, main`oy
      ensures Valid()
      ensures mergingUserScrolling == (old(mergingUserScrolling) || canScrollMergePanel)
      ensures main.ox == old(main.ox) && main.oy == ScrollUpOrigin(old(main.oy), config.scrollHeight)
    {
      if canScrollMergePanel {
        mergingUserScrolling := true;
      }
      ScrollUpView(main, config);
    }

    /** scrollDownMain: flags the merge panel as user-scrolled when it can scroll, then scrolls main down. */
    method ScrollDownMain(canScrollMergePanel: bool) returns (readLines: Option<int>)
      requires Valid()
      modifies this`mergingUserScrolling, main`ox, main`oy
      ensures Valid()
      ensures mergingUserScrolling == (old(mergingUserScrolling) || canScrollMergePanel)
      ensures main.ox == old(main.ox)
      ensures main.oy == ScrollDownOrigin(old(main.oy), main.height, main.linesHeight, config)
      ensures readLines == if main.name in bufferManagers
                           then Some(ScrollDownPlan(old(main.oy), main.height, main.linesHeight, config).step)
                           else None
    {
      if canScrollMergePanel {
        mergingUserScrolling := true;
      }
      readLines := ScrollDownView(main, config, bufferManagers);
    }

    /** scrollUpSecondary */
    method ScrollUpSecondary()
      requires Valid()
      modifies secondary`ox, secondary`oy
      ensures Valid()
      ensures secondary.ox == old(secondary.ox)
      ensures secondary.oy == ScrollUpOrigin(old(secondary.oy), config.scrollHeight)
    {
      ScrollUpView(secondary, config);
    }

    /** scrollDownSecondary */
    method ScrollDownSecondary() returns (readLines: Option<int>)
      requires Valid()
      modifies secondary`ox, secondary`oy
      ensures Valid()
      ensures secondary.ox == old(secondary.ox)
      ensures secondary.oy == ScrollDownOrigin(old(secondary.oy), secondary.height, secondary.linesHeight, config)
      ensures readLines == if secondary.name in bufferManagers
                           then Some(ScrollDownPlan(old(secondary.oy), secondary.height,
                                                    secondary.linesHeight, config).step)
                           else None
    {
      readLines := ScrollDownView(secondary, config, bufferManagers);
    }

    /** scrollUpConfirmationPanel: does nothing while the confirmation view is editable. */
    method ScrollUpConfirmationPanel()
      requires Valid()
      modifies confirmation`ox, confirmation`oy
      ensures Valid()
      ensures confirmation.ox == old(confirmation.ox)
      ensures confirmation.oy == if confirmation.editable then old(confirmation.oy)
                                 else ScrollUpOrigin(old(confirmation.oy), config.scrollHeight)
    {
      if confirmation.editable {
        return;
      }
      ScrollUpView(confirmation, config);
    }

    /** scrollDownConfirmationPanel: does nothing while the confirmation view is editable. */
    method ScrollDownConfirmationPanel() returns (readLines: Option<int>)
      requires Valid()
      modifies confirmation`ox, confirmation`oy
      ensures Valid()
      ensures confirmation.ox == old(confirmation.ox)
      ensures confirmation.oy == if confirmation.editable then old(confirmation.oy)
                                 else ScrollDownOrigin(old(confirmation.oy), confirmation.height,
                                                       confirmation.linesHeight, config)
      ensures confirmation.editable ==> readLines == None
      ensures !confirmation.editable ==>
                readLines == if confirmation.name in bufferManagers
                             then Some(ScrollDownPlan(old(confirmation.oy), confirmation.height,
                                                      confirmation.linesHeight, config).step)
                             else None
    {
      if confirmation.editable {
        return None;
      }
      readLines := ScrollDownView(confirmation, config, bufferManagers);
    }
  }
}
