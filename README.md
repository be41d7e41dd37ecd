# lazygit layout, screen mode, scrolling, sub-commits and pager: a Dafny model

This project models four pieces of lazygit's core:

- **The layout policy** (`pkg/gui/arrangement.go`). It computes the declarative box tree handed to the layout engine: which windows exist, their weights and fixed sizes, and the split directions.
- **Screen-mode cycling and view scrolling** (`pkg/gui/global_handlers.go`).
- **The sub-commits panel** (`pkg/gui/sub_commits_panel.go`). It covers the selected commit, the main-view task it shows, checking it out, opening its files, and switching to the panel.
- **Pager resolution** (`pkg/commands/config.go`).

The modules are as follows:

- `Wrappers`: Option and Result.
- `Sequences`: the repeat-free predicate `Distinct`, shared by the mode cycle and the layout.
- `Contexts`: the context records that the layout and sub-commit code read.
- `ScreenModes`: the cyclic successor and predecessor. The source loops are methods proved against functions, plus a `ScreenState` class whose mode the handlers assign.
- `Scrolling`: the scroll arithmetic as functions. A `View` class has its origin, and a `ScrollGui` class has the main, secondary and confirmation views and the merge panel's user-scrolling flag.
- `Arrangement`: the box trees. These are pure functions, plus the two stack scans as loop methods.
- `SubCommits`: a `Gui` class holding the sub-commit list, the ref name, the selection, the parent context and a log of pushed contexts.
- `Pager`: the pure pager-resolution functions.

Calls into code outside this core are parameters of the model:

- the environment (`getenv`);
- git's output (`run`, `getGitConfigValue`);
- the commit-list builder (`getCommits`);
- the errors returned by `ask`, `pushContext`, `refreshMainViews` and `switchToCommitFilesContext` (`askError`, `pushError`, `refreshError`, `switchError`);
- `ResolvePlaceholderString` (`resolve`);
- the decolorised information string;
- `SEARCH_PREFIX` and `INFO_SECTION_PADDING`.

Two behaviours of the code are worth stating outright, and the model keeps both:

- **Scrolling down can move the origin up.** `scrollDownView` computes its step as `min(ScrollHeight, scrollableLines − margin)`. With scroll-past-bottom on, the margin is 2. With one line left below the origin and a non-negative ScrollHeight, that step is −1. When the origin is not already at line 0, a scroll down then moves the origin up one line (`Scrolling.ScrollDownStepsBack`). At line 0 the origin stays put, but −1 is still handed to the buffer manager. Without scroll-past-bottom and with a non-negative ScrollHeight, the origin stays within `[0, max(0, linesHeight − viewHeight)]` for every run of scrolls (`Scrolling.ScrollsStayInRange`).
- **The "files" fallback.** The comment in `currentSideWindowName` (pkg/gui/arrangement.go:283) says the context stack always holds exactly one side context. The code still falls back to `"files"` when it finds none, and `Arrangement.TopSideWindow` keeps that fallback.

## Model

| member | source | states |
|---|---|---|
| ScreenModes.IndexOf | pkg/gui/global_handlers.go:26-36 | the position of the first occurrence of the current value, or the length when it is absent; nothing earlier matches |
| ScreenModes.NextInCycle | pkg/gui/global_handlers.go:26-36 | the successor is always an element of the list, and is the first element when the current value is absent |
| ScreenModes.PrevInCycle | pkg/gui/global_handlers.go:39-49 | the predecessor is always an element of the list, and is the last element when the current value is absent |
| ScreenModes.NextIntInCycle | pkg/gui/global_handlers.go:26-36 | the early-return search loop returns exactly the cyclic successor |
| ScreenModes.PrevIntInCycle | pkg/gui/global_handlers.go:39-49 | the early-return search loop returns exactly the cyclic predecessor |
| ScreenModes.NextInCycleAt | pkg/gui/global_handlers.go:26-36 | in a list without repeats, the successor of sl[i] is sl[i+1], wrapping from the last element to sl[0] |
| ScreenModes.PrevInCycleAt | pkg/gui/global_handlers.go:39-49 | in a list without repeats, the predecessor of sl[i] is sl[i-1], wrapping from sl[0] to the last element |
| ScreenModes.CycleRoundTrip | pkg/gui/global_handlers.go:26-49 | for a list without repeats, prev undoes next and next undoes prev on every element |
| ScreenModes.NextIteratedAdd | pkg/gui/global_handlers.go:26-36 | a+b successive steps forward equal a steps followed by b steps |
| ScreenModes.NextIteratedAt | pkg/gui/global_handlers.go:26-36 | n steps forward from sl[i] reach sl[i+n] while that exists |
| ScreenModes.FromLast | pkg/gui/global_handlers.go:26-36 | from the last element, 1+i steps forward reach sl[i] |
| ScreenModes.FullCycle | pkg/gui/global_handlers.go:26-36 | stepping forward as many times as the list is long returns to the start |
| ScreenModes.ModeCycleDistinct | pkg/gui/global_handlers.go:51-61 | the mode list Normal, Half, Full has no repeats |
| ScreenModes.ScreenModeRoundTrip | pkg/gui/global_handlers.go:51-61 | prevScreenMode undoes nextScreenMode and the other way round, for every mode |
| ScreenModes.ScreenModeThreeSteps | pkg/gui/global_handlers.go:51-55 | three nextScreenMode steps restore the mode; one or two steps do not |
| ScreenModes.ScreenState.NextScreenMode | pkg/gui/global_handlers.go:51-55 | the new mode is the cyclic successor of the old one in Normal, Half, Full |
| ScreenModes.ScreenState.PrevScreenMode | pkg/gui/global_handlers.go:57-61 | the new mode is the cyclic predecessor of the old one |
| Scrolling.ScrollUpOrigin | pkg/gui/global_handlers.go:63-67 | the new origin is never negative, is at least oy − ScrollHeight, and is either 0 or exactly oy − ScrollHeight |
| Scrolling.ScrollDownPlan | pkg/gui/global_handlers.go:69-100 | with no scrollable lines nothing is set and the full step is handed on; otherwise the step is min(ScrollHeight, lines − margin), and the origin moves by it exactly when the result is non-negative |
| Scrolling.ScrollDownNeverNegative | pkg/gui/global_handlers.go:90-94 | an origin set by scrollDownView is never negative |
| Scrolling.ScrollDownKeepsContentBelow | pkg/gui/global_handlers.go:71-91 | without scroll-past-bottom, every move keeps oy + viewHeight ≤ linesHeight − 1 |
| Scrolling.ScrollDownPastBottomKeepsTwoLines | pkg/gui/global_handlers.go:71-91 | with scroll-past-bottom, every move keeps at least two content lines from the origin on |
| Scrolling.ScrollDownMonotone | pkg/gui/global_handlers.go:69-100 | without scroll-past-bottom and with a non-negative step, scrolling down never moves the origin up |
| Scrolling.ScrollDownStepsBack | pkg/gui/global_handlers.go:80-93 | with scroll-past-bottom, a non-negative ScrollHeight, one line left below the origin and the origin not at line 0, the step is −1 and the origin moves up one line |
| Scrolling.ScrollsStayInRange | pkg/gui/global_handlers.go:63-100 | without scroll-past-bottom and with a non-negative ScrollHeight, an origin in [0, max(0, linesHeight − viewHeight)] stays there under any sequence of scroll-ups and scroll-downs |
| Scrolling.View.SetOrigin | pkg/gui/global_handlers.go:66 | the origin becomes the given non-negative pair |
| Scrolling.ScrollUpView | pkg/gui/global_handlers.go:63-67 | ox is unchanged, oy becomes max(0, oy − ScrollHeight), and the origin stays non-negative |
| Scrolling.ScrollDownView | pkg/gui/global_handlers.go:69-100 | ox is unchanged; oy follows the scroll-down plan; the buffer manager, when the view has one, is handed the planned step |
| Scrolling.ScrollGui.ScrollUpMain | pkg/gui/global_handlers.go:102-108 | UserScrolling becomes true when the merge panel can scroll and is otherwise kept; the main view scrolls up |
| Scrolling.ScrollGui.ScrollDownMain | pkg/gui/global_handlers.go:110-116 | UserScrolling becomes true when the merge panel can scroll and is otherwise kept; the main view scrolls down, and its buffer manager, if any, is handed the planned step |
| Scrolling.ScrollGui.ScrollUpSecondary | pkg/gui/global_handlers.go:118-120 | the secondary view scrolls up |
| Scrolling.ScrollGui.ScrollDownSecondary | pkg/gui/global_handlers.go:122-124 | the secondary view scrolls down, and its buffer manager, if any, is handed the planned step |
| Scrolling.ScrollGui.ScrollUpConfirmationPanel | pkg/gui/global_handlers.go:126-132 | nothing changes while the confirmation view is editable; otherwise it scrolls up |
| Scrolling.ScrollGui.ScrollDownConfirmationPanel | pkg/gui/global_handlers.go:134-140 | nothing changes and no lines are read while the confirmation view is editable; otherwise it scrolls down, and its buffer manager, if any, is handed the planned step |
| Arrangement.ByteLen | pkg/gui/arrangement.go:85-103 | Go's len on a string: between the character count and four times it, and 0 exactly for the empty string |
| Arrangement.AsciiByteLen | pkg/gui/arrangement.go:85-103 | on ASCII text the byte length equals the character count |
| Arrangement.MainSectionChildren | pkg/gui/arrangement.go:8-39 | a single weight-1 main box when the panel is not split, or when the mode is Full with main focused; otherwise two weight-1 boxes, main and secondary, with secondary first exactly when it is focused |
| Arrangement.SplitMainPanelSideBySide | pkg/gui/arrangement.go:111-131 | false when not split; false for "vertical"; true for "horizontal"; otherwise false exactly when width < 200 and height > 30 |
| Arrangement.MidSectionWeights | pkg/gui/arrangement.go:41-67 | the side weight is 0 or 1, and is 0 exactly when main is focused in Half or Full; the main weight is 1 in Half and 0 in Full when main is not focused, and is otherwise 5 when side by side or int(1/ratio) − 1 |
| Arrangement.InfoSectionChildren | pkg/gui/arrangement.go:69-109 | while searching, the search prefix (sized by its byte length) and a weight-1 search box; otherwise an app-status box only when there is an app status, sized status + padding, then weight-1 options and information sized padding + text |
| Arrangement.AnyWindowIs | pkg/gui/arrangement.go:188-193 | true exactly when some context on the stack is drawn in the window |
| Arrangement.GetDefaultStashWindowBox | pkg/gui/arrangement.go:183-202 | the stack scan gives the stash window weight 1 when a stacked context is drawn in it, and a fixed size of 3 otherwise |
| Arrangement.TopSideWindow | pkg/gui/arrangement.go:282-297 | the window of the topmost side context, or "files" when the stack holds no side context |
| Arrangement.CurrentSideWindowName | pkg/gui/arrangement.go:282-297 | the top-down loop with early return yields exactly the topmost side context's window |
| Arrangement.FullHeightChildren | pkg/gui/arrangement.go:207-228 | in Half and Full, five boxes in order, where the current one has weight 1 and every other has size 0 |
| Arrangement.SquashedChildren | pkg/gui/arrangement.go:252-278 | in a short terminal, five boxes in order, where the current one has weight 1 and the others the squashed size |
| Arrangement.AccordionChildren | pkg/gui/arrangement.go:229-251 | status has size 3, files to commits have weight 1 (2 for the focused one in accordion mode), and stash has the default stash box (weight 2 when focused in accordion mode) |
| Arrangement.SidePanelChildren | pkg/gui/arrangement.go:204-280 | always five childless boxes: status, files, branches, commits, stash; sized per mode and height exactly as the three branches do (size 1 below height 21, 3 below 28, accordion rules from 28 on) |
| Arrangement.WindowTree | pkg/gui/arrangement.go:133-177 | the root is an unsized, unweighted row of two boxes. The mid section has weight 1, no size and a portrait-dependent direction; it holds the side section (a row with the side weight, no size and the conditional side panels) and the main section (its weight, no size, a direction set by the side-by-side split, and the main children). The info section is a column of size 1 and weight 0 holding the info children |
| Arrangement.WindowsOfLeaves | pkg/gui/arrangement.go:133-177 | the window names of childless boxes, one per box, in order |
| Arrangement.WindowsOfChildless | pkg/gui/arrangement.go:133-177 | a list of childless boxes names exactly its own windows |
| Arrangement.WindowsOfPair | pkg/gui/arrangement.go:133-177 | the windows of two sibling boxes are those of the first followed by those of the second |
| Arrangement.DistinctConcat | pkg/gui/arrangement.go:133-177 | two repeat-free name lists that share no name concatenate without repeats |
| Arrangement.SideWindows | pkg/gui/arrangement.go:204-280 | whatever the size given, the side section names exactly status, files, branches, commits, stash in that order |
| Arrangement.MainWindows | pkg/gui/arrangement.go:8-39 | the main section names main, and possibly secondary, each once |
| Arrangement.WindowNamesDisjoint | pkg/gui/arrangement.go:69-109 | info window names, side window names and main/secondary never coincide |
| Arrangement.InfoWindows | pkg/gui/arrangement.go:69-109 | the info section names each of its windows at most once, all among the info window names |
| Arrangement.LayoutNamesDistinct | pkg/gui/arrangement.go:133-177 | side, main and info names put together contain no repeats |
| Arrangement.TreeWindows | pkg/gui/arrangement.go:133-177 | the tree's windows are the side windows, then the main windows, then the info windows |
| Arrangement.WindowsAppearOnce | pkg/gui/arrangement.go:133-177 | for every state and side-section size, every window of the tree appears exactly once, in side, main, info order |
| SubCommits.SelectedSubCommit | pkg/gui/sub_commits_panel.go:10-18 | nothing exactly when the selection is −1 or the list is empty, otherwise the selected commit |
| SubCommits.SubCommitSelectUpdate | pkg/gui/sub_commits_panel.go:20-39 | titled "Commit"; a static "No commits" text exactly when nothing is selected, otherwise a pty task with the show command of the selected commit under the filter path |
| SubCommits.ViewSubCommitFilesRequest | pkg/gui/sub_commits_panel.go:69-76 | no request exactly when nothing is selected; otherwise the commit's files, not rebasable, returning to the sub-commits context, in the branches window |
| SubCommits.Gui.GetSelectedSubCommit | pkg/gui/sub_commits_panel.go:10-18 | nothing exactly when the selection is −1 or the list is empty, otherwise the commit at the selection |
| SubCommits.Gui.HandleSubCommitSelect | pkg/gui/sub_commits_panel.go:20-39 | the main view is titled "Commit" and shows "No commits" or the selected commit's show command; refreshMainViews's error is returned |
| SubCommits.Gui.HandleCheckoutSubCommit | pkg/gui/sub_commits_panel.go:41-61 | with nothing selected, no error, nothing asked and nothing changed; otherwise ask's error is returned, and the selection resets to 0 only when ask succeeded |
| SubCommits.Gui.HandleViewSubCommitFiles | pkg/gui/sub_commits_panel.go:69-76 | no request and no error when nothing is selected; otherwise the commit-files request for the selected commit, returning switchToCommitFilesContext's error |
| SubCommits.Gui.SwitchToSubCommitsContext | pkg/gui/sub_commits_panel.go:78-100 | on a failed load, its error and no state change and no push; on success, commits, ref name and selection 0 are stored, the parent is set, the context is pushed, pushContext's error is returned, and the first commit (if any) becomes the selected one |
| SubCommits.Gui.HandleSwitchToSubCommits | pkg/gui/sub_commits_panel.go:102-109 | without a current side list context, no error and nothing changes; otherwise it switches to the sub-commits of that context's selected item id: a failed load returns its error and changes nothing, and a successful one stores the commits, sets that context as the parent, pushes the sub-commits context and returns pushContext's error |
| Pager.TrimLeft | pkg/commands/config.go:22 | a suffix of the input, with only white space dropped, that does not start with white space |
| Pager.TrimRight | pkg/commands/config.go:22 | a prefix of the input, with only white space dropped, that does not end with white space |
| Pager.TrimSpace | pkg/commands/config.go:22 | no longer than the input, and neither starts nor ends with white space |
| Pager.TrimSpaceDropsOnlySpace | pkg/commands/config.go:22 | the trimmed text is a contiguous part of the input, and everything dropped before and after it is white space |
| Pager.TrimSpaceIdempotent | pkg/commands/config.go:22 | trimming twice is trimming once |
| Pager.Index | pkg/commands/config.go:23 | the first position where the separator occurs, or the length when it does not occur |
| Pager.BeforeFirst | pkg/commands/config.go:23 | Split(s, sep)[0]: a prefix of s without sep, with no occurrence of sep in s starting inside it, followed by sep when shorter than s, and all of s when sep is absent |
| Pager.FirstLineHasNoNewline | pkg/commands/config.go:23 | the first line of a text contains no newline |
| Pager.ConfiguredPager | pkg/commands/config.go:11-24 | GIT_PAGER when set; otherwise PAGER when set; otherwise "" when the git command fails, else a newline-free prefix of the trimmed output that does not start with white space, and all of it when the output has no newline |
| Pager.ConfiguredPagerIsFirstLine | pkg/commands/config.go:18-23 | when both variables are unset and git succeeds, the result is the trimmed output up to its first newline: a newline-free prefix that is all of the output or is followed by a newline |
| Pager.GoDiv | pkg/commands/config.go:34 | Go's division truncates toward zero: the remainder has the sign of the dividend |
| Pager.ColumnWidth | pkg/commands/config.go:34 | width/2 − 6 truncated toward zero: 2(c + 6) is width or width − 1 for non-negative width, and width or width + 1 for negative width |
| Pager.ColumnWidthTruncates | pkg/commands/config.go:34 | for width −3 the value is −7, where floor-based division would give −8 |
| Pager.NatToDecimal | pkg/commands/config.go:34 | at least one decimal digit, with no leading zero |
| Pager.Itoa | pkg/commands/config.go:34 | strconv.Itoa: non-empty, starting with '-' exactly for negative numbers |
| Pager.DecimalRoundTrip | pkg/commands/config.go:34 | the decimal digits of n read back as n |
| Pager.ItoaRoundTrip | pkg/commands/config.go:34 | Itoa loses nothing: its text parses back to the number |
| Pager.PagerTemplateValues | pkg/commands/config.go:33-35 | exactly one placeholder, columnWidth, whose text is negative exactly when width < 12 |
| Pager.PagerTemplateColumnWidth | pkg/commands/config.go:33-35 | the columnWidth text reads back as width/2 − 6 under truncating division |
| Pager.GetPager | pkg/commands/config.go:26-39 | with UseConfig, the configured pager up to its first "\| less", which is a prefix of it and all of it when "\| less" is absent; otherwise the pager template resolved with the column-width values |
| Pager.GetConfigValue | pkg/commands/config.go:45-48 | the git config output unchanged, with the error discarded |

## Left out

- `boxlayout.ArrangeWindows` (pkg/gui/arrangement.go:176): the layout engine is not part of this model. The model stops at the box tree handed to it. Conditional side children are a marker that `Arrangement.SidePanelChildren` materialises for a given width and height.
- Context-manager locking (RLock/RUnlock): concurrency is not modelled. The stack is read as a plain sequence.
- `fetch`: it uses the network and a mutex.
- `rerenderViewsWithScreenModeDependentContent`, the mouse handlers, `handleInfoClick`, `handleRefresh` and the clipboard/toast handler: these are rendering and operating-system side effects.
- The side-panel width ratio is a float. `Arrangement.MidSectionWeights` reads the integer int(1/ratio) from the `invSideRatio` field of `LayoutState`.
- `math.Max` over float64 in scrollUpView is modelled as integer maximum. Origins and step sizes are integers in the source.
- `ScreenModes.NextInCycle`, `ScreenModes.PrevInCycle`, `ScreenModes.NextIntInCycle`, `ScreenModes.PrevIntInCycle`: these require a non-empty list. On an empty slice the Go functions index out of range and panic (pkg/gui/global_handlers.go:35,48), and that panic is not modelled. The only callers pass the constant three-mode list, so the case never arises.
- `ScreenModes.ScreenState.NextScreenMode`, `ScreenModes.ScreenState.PrevScreenMode`: the re-render that follows the mode change is not modelled.
- `Scrolling.ScrollDownView`: `ReadLines` on the view buffer manager is recorded only as its argument, the returned `readLines`. What it streams is not modelled.
- `Scrolling.View.SetOrigin`: gocui's SetOrigin, which fails on a negative origin, is an assignment guarded by a non-negative precondition. Both callers only pass non-negative origins, so its error path never arises.
- `SEARCH_PREFIX`, `INFO_SECTION_PADDING` and `utils.Decolorise`: these definitions are not part of this model. They are parameters of `Arrangement.InfoSectionChildren`.
- `SubCommits.Gui.HandleCheckoutSubCommit`: the confirmation handler that checks out the ref is the `handleConfirm` callback handed to `ask` and is not modelled. `ask`'s result is the parameter `askError`.
- `SubCommits.Gui.SwitchToSubCommitsContext`: `pushContext` is modelled as an entry appended to the `pushed` log plus its returned error. Its effect on the focus stack is not modelled. `GetCommits` is the parameter `getCommits`.
- `ShowCmdStr` / `ExecutableFromString`: the show command is the record `ShowCommand(sha, filterPath)`, not the command-line text.
- `handleCreateSubCommitResetMenu`: the reset menu is outside this core. It dereferences the selected commit without the nil check the other handlers make.
- `Pager.ConfiguredPager`, `Pager.GetPager`, `Pager.GetConfigValue`: `os.Getenv`, `RunCommandWithOutput`, `getGitConfigValue` and `ResolvePlaceholderString` are given as function parameters.
- `SubCommits.SelectedSubCommit`, `SubCommits.Gui.GetSelectedSubCommit`: the source does no upper-bound check on the selection. The model requires the selection to be −1, a valid index, or any value over an empty list. Every method keeps this as the class invariant.
- `pkg/commands/git_test.go`: these are test harnesses for git commands outside this core.
