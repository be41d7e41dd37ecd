/** The declarative box trees that the dashboard hands to its layout engine: which windows
    exist, their weights and fixed sizes, and the split directions (arrangement.go). */
module Arrangement {
  import opened Sequences
  import opened ScreenModes
  import opened Contexts

  datatype Direction = Row | Column

  /** A box's children: none (the box is a window), a fixed list, or the side panels, which the
      layout engine obtains from SidePanelChildren with the width and height allotted to the box. */
  datatype Children = NoChildren | Nested(boxes: seq<Box>) | SidePanelsConditional

  /** A node of the layout tree. A zero weight together with a zero size collapses the box. */
  datatype Box = Box(window: string, direction: Direction, weight: int, size: int, children: Children)

  /** A window box that shares the remaining space by weight. */
  function Weighted(window: string, weight: int): Box
  {
    Box(window, Row, weight, 0, NoChildren)
  }

  /** A window box with a fixed size. */
  function Sized(window: string, size: int): Box
  {
    Box(window, Row, 0, size, NoChildren)
  }

  /** The five side windows, top to bottom. */
  const SidePanelWindows: seq<string> := ["status", "files", "branches", "commits", "stash"]

  /** The state the layout functions read: screen mode, focus, terminal size, user config and
      the context stack. Calls into code not modelled here are given as values:
      currentWindow (currentWindow()), mainPanelSplit (isMainPanelSplit()), secondaryFocused
      (secondaryViewFocused()) and invSideRatio, the integer int(1/SidePanelWidth). */
  datatype LayoutState = LayoutState(
    mode: ScreenMode,
    currentWindow: string,
    mainPanelSplit: bool,
    secondaryFocused: bool,
    splitMode: string,
    width: int,
    height: int,
    invSideRatio: int,
    expandFocusedSidePanel: bool,
    stack: seq<Context>,
    searching: bool)

  /** Number of bytes in the UTF-8 encoding of c. */
  function RuneLen(c: char): nat
  {
    if c as int < 0x80 then 1
    else if c as int < 0x800 then 2
    else if c as int < 0x10000 then 3
    else 4
  }

  /** Go's len on a string: the length of its UTF-8 encoding in bytes. */
  function ByteLen(s: string): (n: nat)
    ensures |s| <= n <= 4 * |s|
    ensures n == 0 <==> s == []
  {
    if s == [] then 0 else RuneLen(s[0]) + ByteLen(s[1..])
  }

  /** On ASCII text the byte length is the number of characters. */
  lemma {:induction false} AsciiByteLen(s: string)
    requires forall k :: 0 <= k < |s| ==> s[k] as int < 0x80
    ensures ByteLen(s) == |s|
  {
    if s != [] {
      AsciiByteLen(s[1..]);
    }
  }

  /** mainSectionChildren: the main window alone, or the main and secondary windows with equal
      weights, swapped when the secondary view is focused. */
  function MainSectionChildren(s: LayoutState): (r: seq<Box>)
    ensures !s.mainPanelSplit || (s.mode == Full && s.currentWindow == "main") ==>
              r == [Weighted("main", 1)]
    ensures s.mainPanelSplit && !(s.mode == Full && s.currentWindow == "main") ==>
              && |r| == 2
              && r[0].weight == 1 && r[1].weight == 1
              && r[0].size == 0 && r[1].size == 0
              && r[0].children == NoChildren && r[1].children == NoChildren
              && {r[0].window, r[1].window} == {"main", "secondary"}
              && (r[0].window == "secondary" <==> s.secondaryFocused)
  {
    if !s.mainPanelSplit || (s.mode == Full && s.currentWindow == "main") then
      [Weighted("main", 1)]
    else
      var (main, secondary) := if s.secondaryFocused then ("secondary", "main") else ("main", "secondary");
      [Weighted(main, 1), Weighted(secondary, 1)]
  }

  /** splitMainPanelSideBySide: whether main and secondary sit side by side rather than stacked. */
  function SplitMainPanelSideBySide(s: LayoutState): (r: bool)
    ensures !s.mainPanelSplit ==> !r
    ensures s.mainPanelSplit && s.splitMode == "vertical" ==> !r
    ensures s.mainPanelSplit && s.splitMode == "horizontal" ==> r
    ensures s.mainPanelSplit && s.splitMode != "vertical" && s.splitMode != "horizontal" ==>
              (!r <==> s.width < 200 && s.height > 30)
  {
    if !s.mainPanelSplit then false
    else if s.splitMode == "vertical" then false
    else if s.splitMode == "horizontal" then true
    else !(s.width < 200 && s.height > 30)
  }

  /** The weights of the side section and of the main section. */
  datatype Weights = Weights(side: int, main: int)

  /** The main-section weight in normal mode: 5 when the main panels sit side by side, otherwise
      int(1/SidePanelWidth) - 1, i.e. a side ratio of 0.2 gives 1 against 4. */
  function NormalMainWeight(s: LayoutState): int
  {
    if SplitMainPanelSideBySide(s) then 5 else s.invSideRatio - 1
  }

  /** getMidSectionWeights */
  function MidSectionWeights(s: LayoutState): (w: Weights)
    ensures w.side == 0 || w.side == 1
    ensures w.side == 0 <==> s.currentWindow == "main" && (s.mode == Half || s.mode == Full)
    ensures s.currentWindow == "main" ==> w.main == NormalMainWeight(s)
    ensures s.currentWindow != "main" ==>
              w.main == match s.mode
                        case Normal => NormalMainWeight(s)
                        case Half => 1
                        case Full => 0
  {
    var main := if SplitMainPanelSideBySide(s) then 5 else s.invSideRatio - 1;
    if s.currentWindow == "main" then
      Weights(if s.mode == Half || s.mode == Full then 0 else 1, main)
    else
      Weights(1, if s.mode == Half then 1 else if s.mode == Full then 0 else main)
  }

  /** infoSectionChildren: the search prompt while searching; otherwise the app status (only when
      there is one), the options and the information box. Sizes are byte lengths. */
  function InfoSectionChildren(searching: bool, searchPrefix: string, padding: string,
                               decolorisedInfo: string, appStatus: string): (r: seq<Box>)
    ensures searching ==> r == [Sized("searchPrefix", ByteLen(searchPrefix)), Weighted("search", 1)]
    ensures !searching ==>
              && |r| == (if appStatus == "" then 2 else 3)
              && r[|r| - 2] == Weighted("options", 1)
              && r[|r| - 1] == Sized("information", ByteLen(padding) + ByteLen(decolorisedInfo))
              && (appStatus != "" ==> r[0] == Sized("appStatus", ByteLen(appStatus) + ByteLen(padding)))
  {
    if searching then
      [Sized("searchPrefix", ByteLen(searchPrefix)), Weighted("search", 1)]
    else
      var status := if ByteLen(appStatus) > 0
                    then [Sized("appStatus", ByteLen(appStatus) + ByteLen(padding))]
                    else [];
      status + [Weighted("options", 1), Sized("information", ByteLen(padding) + ByteLen(decolorisedInfo))]
  }

  /** Some context on the stack is drawn in window w. */
  function AnyWindowIs(stack: seq<Context>, w: string): (b: bool)
    ensures b <==> exists i :: 0 <= i < |stack| && stack[i].window == w
  {
    if stack == [] then false
    else stack[0].window == w || AnyWindowIs(stack[1..], w)
  }

  /** getDefaultStashWindowBox: the stash window takes weight 1 once a context on the stack is
      drawn in it, and a fixed size of 3 otherwise. */
  function StashWindowBox(stack: seq<Context>): Box
  {
    if AnyWindowIs(stack, "stash") then Weighted("stash", 1) else Sized("stash", 3)
  }

  /** The stack scan of getDefaultStashWindowBox. */
  method GetDefaultStashWindowBox(stack: seq<Context>) returns (box: Box)
    ensures box == StashWindowBox(stack)
    ensures (exists i :: 0 <= i < |stack| && stack[i].window == "stash") ==> box == Weighted("stash", 1)
    ensures (forall i :: 0 <= i < |stack| ==> stack[i].window != "stash") ==> box == Sized("stash", 3)
  {
    var stashWindowAccessed := false;
    for k := 0 to |stack|
      invariant stashWindowAccessed <==> exists i :: 0 <= i < k && stack[i].window == "stash"
    {
      if stack[k].window == "stash" {
        stashWindowAccessed := true;
      }
    }
    if stashWindowAccessed {
      box := Weighted("stash", 1);
    } else {
      box := Sized("stash", 3);
    }
  }

  /** stack[i] is a side context and no side context lies above it. */
  predicate TopSideAt(stack: seq<Context>, i: int)
  {
    && 0 <= i < |stack|
    && stack[i].kind == SideContext
    && forall j :: i < j < |stack| ==> stack[j].kind != SideContext
  }

  /** currentSideWindowName as a function: the window of the topmost side context, "files"
      when the stack holds none. */
  function TopSideWindow(stack: seq<Context>): (r: string)
    ensures forall i :: TopSideAt(stack, i) ==> r == stack[i].window
    ensures (forall i :: 0 <= i < |stack| ==> stack[i].kind != SideContext) ==> r == "files"
  {
    if stack == [] then "files"
    else if stack[|stack| - 1].kind == SideContext then stack[|stack| - 1].window
    else
      var rest := stack[..|stack| - 1];
      assert forall i :: TopSideAt(stack, i) ==> TopSideAt(rest, i);
      TopSideWindow(rest)
  }

  /** currentSideWindowName: scans the stack from the top and stops at the first side context. */
  method CurrentSideWindowName(stack: seq<Context>) returns (name: string)
    ensures name == TopSideWindow(stack)
  {
    for idx := 0 to |stack|
      invariant forall j :: |stack| - idx <= j < |stack| ==> stack[j].kind != SideContext
    {
      var reversedIdx := |stack| - 1 - idx;
      if stack[reversedIdx].kind == SideContext {
        assert TopSideAt(stack, reversedIdx);
        return stack[reversedIdx].window;
      }
    }
    return "files";
  }

  /** In half and full screen only the current side window takes space. */
  function FullHeightBox(window: string, current: string): Box
  {
    if window == current then Weighted(window, 1) else Sized(window, 0)
  }

  /** In a short terminal the current side window takes the space left by the squashed others. */
  function SquashedSidePanelBox(window: string, current: string, squashedHeight: int): Box
  {
    if window == current then Weighted(window, 1) else Sized(window, squashedHeight)
  }

  /** With accordion mode on, the current side window's box is enlarged to weight 2. */
  function AccordionBox(defaultBox: Box, accordionMode: bool, current: string): Box
  {
    if accordionMode && defaultBox.window == current then Weighted(defaultBox.window, 2) else defaultBox
  }

  function FullHeightChildren(current: string): (r: seq<Box>)
    ensures |r| == 5
    ensures forall k :: 0 <= k < 5 ==> r[k] == FullHeightBox(SidePanelWindows[k], current)
  {
    [FullHeightBox("status", current), FullHeightBox("files", current), FullHeightBox("branches", current),
     FullHeightBox("commits", current), FullHeightBox("stash", current)]
  }

  function SquashedChildren(current: string, squashedHeight: int): (r: seq<Box>)
    ensures |r| == 5
    ensures forall k :: 0 <= k < 5 ==> r[k] == SquashedSidePanelBox(SidePanelWindows[k], current, squashedHeight)
  {
    [SquashedSidePanelBox("status", current, squashedHeight),
     SquashedSidePanelBox("files", current, squashedHeight),
     SquashedSidePanelBox("branches", current, squashedHeight),
     SquashedSidePanelBox("commits", current, squashedHeight),
     SquashedSidePanelBox("stash", current, squashedHeight)]
  }

  function AccordionChildren(accordionMode: bool, current: string, stashBox: Box): (r: seq<Box>)
    requires stashBox.window == "stash" && stashBox.children == NoChildren
    ensures |r| == 5
    ensures forall k :: 0 <= k < 5 ==> r[k].window == SidePanelWindows[k] && r[k].children == NoChildren
    ensures r[0] == Sized("status", 3)
    ensures forall k :: 1 <= k < 4 ==>
              r[k] == Weighted(SidePanelWindows[k], if accordionMode && SidePanelWindows[k] == current then 2 else 1)
    ensures r[4] == if accordionMode && current == "stash" then Weighted("stash", 2) else stashBox
  {
    [Sized("status", 3),
     AccordionBox(Weighted("files", 1), accordionMode, current),
     AccordionBox(Weighted("branches", 1), accordionMode, current),
     AccordionBox(Weighted("commits", 1), accordionMode, current),
     AccordionBox(stashBox, accordionMode, current)]
  }

  /** sidePanelChildren: the five side windows in their fixed order, sized by screen mode,
      available height and focus. */
  function SidePanelChildren(s: LayoutState, width: int, height: int): (r: seq<Box>)
    ensures |r| == 5
    ensures forall k :: 0 <= k < 5 ==> r[k].window == SidePanelWindows[k] && r[k].children == NoChildren
    ensures s.mode == Half || s.mode == Full ==>
              forall k :: 0 <= k < 5 ==>
                r[k] == if SidePanelWindows[k] == TopSideWindow(s.stack) then Weighted(SidePanelWindows[k], 1)
                        else Sized(SidePanelWindows[k], 0)
    ensures s.mode == Normal && height < 28 ==>
              forall k :: 0 <= k < 5 ==>
                r[k] == if SidePanelWindows[k] == TopSideWindow(s.stack) then Weighted(SidePanelWindows[k], 1)
                        else Sized(SidePanelWindows[k], if height >= 21 then 3 else 1)
    ensures s.mode == Normal && height >= 28 ==>
              && r[0] == Sized("status", 3)
              && (forall k :: 1 <= k < 4 ==>
                    r[k] == Weighted(SidePanelWindows[k],
                                     if s.expandFocusedSidePanel && SidePanelWindows[k] == TopSideWindow(s.stack)
                                     then 2 else 1))
              && r[4] == if s.expandFocusedSidePanel && TopSideWindow(s.stack) == "stash"
                         then Weighted("stash", 2) else StashWindowBox(s.stack)
  {
    var current := TopSideWindow(s.stack);
    if s.mode == Full || s.mode == Half then
      FullHeightChildren(current)
    else if height >= 28 then
      AccordionChildren(s.expandFocusedSidePanel, current, StashWindowBox(s.stack))
    else
      SquashedChildren(current, if height >= 21 then 3 else 1)
  }

  /** Portrait mode stacks the side section above the main section. */
  predicate PortraitMode(s: LayoutState)
  {
    s.width <= 84 && s.height > 45
  }

  /** The box tree of getWindowDimensions, before it is handed to the layout engine. */
  function WindowTree(s: LayoutState, searchPrefix: string, padding: string,
                      decolorisedInfo: string, appStatus: string): (root: Box)
    ensures root.direction == Row && root.weight == 0 && root.size == 0
    ensures root.children.Nested? && |root.children.boxes| == 2
    ensures var mid := root.children.boxes[0];
            && mid.weight == 1 && mid.size == 0
            && mid.direction == (if PortraitMode(s) then Row else Column)
            && mid.children.Nested? && |mid.children.boxes| == 2
            && mid.children.boxes[0].weight == MidSectionWeights(s).side
            && mid.children.boxes[0].direction == Row && mid.children.boxes[0].size == 0
            && mid.children.boxes[0].children == SidePanelsConditional
            && mid.children.boxes[1].weight == MidSectionWeights(s).main
            && mid.children.boxes[1].size == 0
            && mid.children.boxes[1].direction == (if SplitMainPanelSideBySide(s) then Column else Row)
            && mid.children.boxes[1].children == Nested(MainSectionChildren(s))
    ensures var info := root.children.boxes[1];
            && info.size == 1 && info.weight == 0 && info.direction == Column
            && info.children == Nested(InfoSectionChildren(s.searching, searchPrefix, padding,
                                                           decolorisedInfo, appStatus))
  {
    var weights := MidSectionWeights(s);
    var sidePanelsDirection := if PortraitMode(s) then Row else Column;
    var mainPanelsDirection := if SplitMainPanelSideBySide(s) then Column else Row;
    Box("", Row, 0, 0, Nested([
      Box("", sidePanelsDirection, 1, 0, Nested([
        Box("", Row, weights.side, 0, SidePanelsConditional),
        Box("", mainPanelsDirection, weights.main, 0, Nested(MainSectionChildren(s)))
      ])),
      Box("", Column, 0, 1, Nested(InfoSectionChildren(s.searching, searchPrefix, padding,
                                                        decolorisedInfo, appStatus)))
    ]))
  }

  /** The windows a tree names, left to right, with the side panels materialised as the layout
      engine would for a side box given the given width and height. */
  function Windows(b: Box, s: LayoutState, width: int, height: int): seq<string>
    decreases b, 1
  {
    match b.children
    case NoChildren => [b.window]
    case Nested(boxes) => WindowsOf(boxes, s, width, height)
    case SidePanelsConditional => WindowsOfLeaves(SidePanelChildren(s, width, height))
  }

  function WindowsOf(boxes: seq<Box>, s: LayoutState, width: int, height: int): seq<string>
    decreases boxes, 0
  {
    if boxes == [] then []
    else Windows(boxes[0], s, width, height) + WindowsOf(boxes[1..], s, width, height)
  }

  /** The window names of a list of childless boxes. */
  function WindowsOfLeaves(boxes: seq<Box>): (ws: seq<string>)
    ensures |ws| == |boxes|
    ensures forall k :: 0 <= k < |boxes| ==> ws[k] == boxes[k].window
  {
    if boxes == [] then [] else [boxes[0].window] + WindowsOfLeaves(boxes[1..])
  }

  /** A list of childless boxes names exactly its own windows. */
  lemma {:induction false} WindowsOfChildless(boxes: seq<Box>, s: LayoutState, width: int, height: int)
    requires forall k :: 0 <= k < |boxes| ==> boxes[k].children == NoChildren
    ensures WindowsOf(boxes, s, width, height) == WindowsOfLeaves(boxes)
  {
    if boxes != [] {
      WindowsOfChildless(boxes[1..], s, width, height);
    }
  }

  lemma DistinctConcat(a: seq<string>, b: seq<string>)
    requires Distinct(a) && Distinct(b)
    requires forall x :: x in a ==> x !in b
    ensures Distinct(a + b)
  {
    forall i, j | 0 <= i < j < |a + b|
      ensures (a + b)[i] != (a + b)[j]
    {
      if j >= |a| && i < |a| {
        assert (a + b)[i] in a && (a + b)[j] in b;
      }
    }
  }

  lemma WindowsOfPair(a: Box, b: Box, s: LayoutState, width: int, height: int)
    ensures WindowsOf([a, b], s, width, height) == Windows(a, s, width, height) + Windows(b, s, width, height)
  {
    assert [a, b][1..] == [b];
    assert [b][1..] == [];
    assert WindowsOf([b], s, width, height) == Windows(b, s, width, height) + [];
    assert Windows(b, s, width, height) + [] == Windows(b, s, width, height);
  }

  /** The side section always names the five side windows in order. */
  lemma SideWindows(s: LayoutState, width: int, height: int)
    ensures Windows(Box("", Row, MidSectionWeights(s).side, 0, SidePanelsConditional), s, width, height)
            == SidePanelWindows
  {
    var ws := WindowsOfLeaves(SidePanelChildren(s, width, height));
    assert |ws| == |SidePanelWindows|;
    assert forall k :: 0 <= k < 5 ==> ws[k] == SidePanelWindows[k];
  }

  /** The main section names "main", then "secondary" as well when the panel is split, each once. */
  lemma MainWindows(s: LayoutState)
    ensures var ws := WindowsOfLeaves(MainSectionChildren(s));
            && Distinct(ws)
            && (forall x :: x in ws ==> x == "main" || x == "secondary")
            && "main" in ws
  {
  }

  const InfoWindowNames: seq<string> := ["searchPrefix", "search", "appStatus", "options", "information"]

  /** No info window shares its name with a side or main window. */
  lemma WindowNamesDisjoint()
    ensures forall x :: x in InfoWindowNames ==> x !in SidePanelWindows && x != "main" && x != "secondary"
    ensures "main" !in SidePanelWindows && "secondary" !in SidePanelWindows
    ensures Distinct(SidePanelWindows)
  {
  }

  /** The info section names each of its windows at most once. */
  lemma InfoWindows(searching: bool, searchPrefix: string, padding: string, decolorisedInfo: string,
                    appStatus: string)
    ensures var ws := WindowsOfLeaves(InfoSectionChildren(searching, searchPrefix, padding,
                                                          decolorisedInfo, appStatus));
            && Distinct(ws)
            && (forall x :: x in ws ==> x in InfoWindowNames)
  {
  }

  /** Side, main and info windows put together name no window twice. */
  lemma LayoutNamesDistinct(mainWindows: seq<string>, infoWindows: seq<string>)
    requires Distinct(mainWindows) && forall x :: x in mainWindows ==> x == "main" || x == "secondary"
    requires Distinct(infoWindows) && forall x :: x in infoWindows ==> x in InfoWindowNames
    ensures Distinct(SidePanelWindows + mainWindows + infoWindows)
  {
    WindowNamesDisjoint();
    DistinctConcat(SidePanelWindows, mainWindows);
    assert forall x :: x in SidePanelWindows + mainWindows ==> x !in infoWindows;
    DistinctConcat(SidePanelWindows + mainWindows, infoWindows);
  }

  /** The windows of the whole tree are those of its three sections, in order. */
  lemma TreeWindows(s: LayoutState, searchPrefix: string, padding: string,
                    decolorisedInfo: string, appStatus: string, width: int, height: int)
    ensures Windows(WindowTree(s, searchPrefix, padding, decolorisedInfo, appStatus), s, width, height)
            == SidePanelWindows + WindowsOfLeaves(MainSectionChildren(s))
               + WindowsOfLeaves(InfoSectionChildren(s.searching, searchPrefix, padding, decolorisedInfo, appStatus))
  {
    var root := WindowTree(s, searchPrefix, padding, decolorisedInfo, appStatus);
    var mid, info := root.children.boxes[0], root.children.boxes[1];
    var side, main := mid.children.boxes[0], mid.children.boxes[1];
    var mainBoxes := MainSectionChildren(s);
    var infoBoxes := InfoSectionChildren(s.searching, searchPrefix, padding, decolorisedInfo, appStatus);
    var mainWindows := WindowsOfLeaves(mainBoxes);
    var infoWindows := WindowsOfLeaves(infoBoxes);
    assert Windows(side, s, width, height) == SidePanelWindows by {
      SideWindows(s, width, height);
    }
    assert Windows(main, s, width, height) == mainWindows by {
      WindowsOfChildless(mainBoxes, s, width, height);
    }
    assert Windows(info, s, width, height) == infoWindows by {
      WindowsOfChildless(infoBoxes, s, width, height);
    }
    assert Windows(mid, s, width, height) == SidePanelWindows + mainWindows by {
      WindowsOfPair(side, main, s, width, height);
    }
    WindowsOfPair(mid, info, s, width, height);
  }

  /** Whatever the state and whatever size the layout engine gives the side section, the tree
      names the five side windows, then the main windows, then the info windows, each once:
      windows collapse to zero rather than disappear, so every window keeps its identity. */
  lemma WindowsAppearOnce(s: LayoutState, searchPrefix: string, padding: string,
                          decolorisedInfo: string, appStatus: string, width: int, height: int)
    ensures var mainWindows := WindowsOfLeaves(MainSectionChildren(s));
            var infoWindows := WindowsOfLeaves(InfoSectionChildren(s.searching, searchPrefix, padding,
                                                                   decolorisedInfo, appStatus));
            var ws := Windows(WindowTree(s, searchPrefix, padding, decolorisedInfo, appStatus), s, width, height);
            && ws == SidePanelWindows + mainWindows + infoWindows
            && Distinct(ws)
  {
    TreeWindows(s, searchPrefix, padding, decolorisedInfo, appStatus, width, height);
    MainWindows(s);
    InfoWindows(s.searching, searchPrefix, padding, decolorisedInfo, appStatus);
    LayoutNamesDistinct(WindowsOfLeaves(MainSectionChildren(s)),
                        WindowsOfLeaves(InfoSectionChildren(s.searching, searchPrefix, padding,
                                                            decolorisedInfo, appStatus)));
  }
}
