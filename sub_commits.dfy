/** The sub-commits panel: the commits of a chosen ref, the selected one, and the handlers that
    show, check out or open it, and that switch to the panel (sub_commits_panel.go). */
module SubCommits {
  import opened Wrappers
  import opened Contexts

  datatype Commit = Commit(sha: string)

  /** The show command for a commit, restricted to the filter path (ShowCmdStr). */
  datatype ShowCommand = ShowCommand(sha: string, filterPath: string)

  /** What the main view is asked to display. */
  datatype Task = RenderStringTask(text: string) | RunPtyTask(cmd: ShowCommand)

  /** The title and task handed to refreshMainViews for the main view. */
  datatype ViewUpdate = ViewUpdate(title: string, task: Task)

  /** The arguments switchToCommitFilesContext is called with. */
  datatype CommitFilesRequest = CommitFilesRequest(sha: string, canRebase: bool, parentKey: string, window: string)

  /** The options passed to the commit-list builder's GetCommits. */
  datatype CommitsQuery = CommitsQuery(limit: bool, filterPath: string, includeRebaseCommits: bool, refName: string)

  /** The selection index is -1, or indexes a commit, or the list is empty. The source does no
      bounds check beyond -1 and emptiness, so its callers keep this. */
  predicate SelectionOk(commits: seq<Commit>, selectedLineIdx: int)
  {
    selectedLineIdx == -1 || |commits| == 0 || 0 <= selectedLineIdx < |commits|
  }

  /** getSelectedSubCommit: nothing when the selection is -1 or there are no commits, otherwise
      the selected commit. */
  function SelectedSubCommit(commits: seq<Commit>, selectedLineIdx: int): (r: Option<Commit>)
    requires SelectionOk(commits, selectedLineIdx)
    ensures r.None? <==> selectedLineIdx == -1 || |commits| == 0
    ensures r.Some? ==> 0 <= selectedLineIdx < |commits| && r.value == commits[selectedLineIdx]
  {
    if selectedLineIdx == -1 || |commits| == 0 then None else Some(commits[selectedLineIdx])
  }

  /** The main-view update of handleSubCommitSelect: titled "Commit", a static "No commits" text
      when nothing is selected, otherwise a pty task running the show command of the commit. */
  function SubCommitSelectUpdate(commit: Option<Commit>, filterPath: string): (u: ViewUpdate)
    ensures u.title == "Commit"
    ensures u.task.RenderStringTask? <==> commit.None?
    ensures commit.None? ==> u.task.text == "No commits"
    ensures commit.Some? ==> u.task.cmd == ShowCommand(commit.value.sha, filterPath)
  {
    var task := if commit.None? then RenderStringTask("No commits")
                else RunPtyTask(ShowCommand(commit.value.sha, filterPath));
    ViewUpdate("Commit", task)
  }

  /** The request of handleViewSubCommitFiles: none when nothing is selected, otherwise the
      selected commit's files, not rebasable, returning to the sub-commits context, drawn in the
      branches window. */
  function ViewSubCommitFilesRequest(commit: Option<Commit>, subCommitsKey: string): (r: Option<CommitFilesRequest>)
    ensures r.None? <==> commit.None?
    ensures commit.Some? ==>
              r.value.sha == commit.value.sha && !r.value.canRebase
              && r.value.parentKey == subCommitsKey && r.value.window == "branches"
  {
    if commit.None? then None
    else Some(CommitFilesRequest(commit.value.sha, false, subCommitsKey, "branches"))
  }

  /** The sub-commits part of the gui state. */
  class Gui {
    /** The sub-commits context, created once. */
    const subCommitsContext: Context
    var subCommits: seq<Commit>
    var refName: string
    var selectedLineIdx: int
    /** Panels.Commits.LimitCommits */
    var limitCommits: bool
    /** The parent context set on the sub-commits context. */
    var subCommitsParent: Option<Context>
    /** The contexts handed to pushContext, oldest first. */
    var pushed: seq<Context>

    ghost predicate Valid()
      reads this
    {
      SelectionOk(subCommits, selectedLineIdx)
    }

    constructor (subCommitsContext: Context)
      ensures Valid()
      ensures this.subCommitsContext == subCommitsContext
      ensures subCommits == [] && selectedLineIdx == 0 && pushed == [] && subCommitsParent == None
    {
      this.subCommitsContext := subCommitsContext;
      subCommits := [];
      refName := "";
      selectedLineIdx := 0;
      limitCommits := true;
      subCommitsParent := None;
      pushed := [];
    }

    /** getSelectedSubCommit on the current state. */
    method GetSelectedSubCommit() returns (commit: Option<Commit>)
      requires Valid()
      ensures commit.None? <==> selectedLineIdx == -1 || |subCommits| == 0
      ensures commit.Some? ==> commit.value == subCommits[selectedLineIdx]
    {
      var selectedLine := selectedLineIdx;
      var commits := subCommits;
      if selectedLine == -1 || |commits| == 0 {
        return None;
      }
      return Some(commits[selectedLine]);
    }

    /** handleSubCommitSelect: the update it hands to refreshMainViews, and refreshMainViews's
        error (refreshError), which it returns. */
    method HandleSubCommitSelect(filterPath: string, refreshError: Option<string>)
      returns (u: ViewUpdate, err: Option<string>)
      requires Valid()
      ensures err == refreshError
      ensures u.title == "Commit"
      ensures u == SubCommitSelectUpdate(SelectedSubCommit(subCommits, selectedLineIdx), filterPath)
      ensures selectedLineIdx == -1 || |subCommits| == 0 ==> u.task == RenderStringTask("No commits")
      ensures 0 <= selectedLineIdx < |subCommits| ==>
                u.task == RunPtyTask(ShowCommand(subCommits[selectedLineIdx].sha, filterPath))
    {
      var commit := GetSelectedSubCommit();
      var task: Task;
      if commit.None? {
        task := RenderStringTask("No commits");
      } else {
        task := RunPtyTask(ShowCommand(commit.value.sha, filterPath));
      }
      u := ViewUpdate("Commit", task);
      err := refreshError;
    }

    /** handleCheckoutSubCommit: with a commit selected, asks for confirmation (askError is what
        ask returns) and resets the selection to 0 only when ask succeeded. asked is the commit
        the confirmation is about. */
    method HandleCheckoutSubCommit(askError: Option<string>) returns (err: Option<string>, asked: Option<Commit>)
      requires Valid()
      modifies this`selectedLineIdx
      ensures Valid()
      ensures asked == SelectedSubCommit(subCommits, old(selectedLineIdx))
      ensures asked.None? ==> err == None && selectedLineIdx == old(selectedLineIdx)
      ensures asked.Some? ==> err == askError
      ensures asked.Some? ==> selectedLineIdx == if askError.None? then 0 else old(selectedLineIdx)
    {
      var commit := GetSelectedSubCommit();
      if commit.None? {
        return None, None;
      }
      asked := commit;
      if askError.Some? {
        return askError, asked;
      }
      selectedLineIdx := 0;
      err := None;
    }

    /** handleViewSubCommitFiles: the commit-files switch it requests, if any, and the error of
        switchToCommitFilesContext (switchError), which it returns when it makes that call. */
    method HandleViewSubCommitFiles(switchError: Option<string>)
      returns (request: Option<CommitFilesRequest>, err: Option<string>)
      requires Valid()
      ensures err == if request.None? then None else switchError
      ensures request == ViewSubCommitFilesRequest(SelectedSubCommit(subCommits, selectedLineIdx),
                                                   subCommitsContext.key)
      ensures request.None? <==> selectedLineIdx == -1 || |subCommits| == 0
    {
      var commit := GetSelectedSubCommit();
      if commit.None? {
        return None, None;
      }
      return Some(CommitFilesRequest(commit.value.sha, false, subCommitsContext.key, "branches")), switchError;
    }

    /** switchToSubCommitsContext: loads the commits of refName with getCommits; on failure returns
        its error and changes nothing; on success stores the commits, the ref name and selection 0,
        makes the current side list context the parent, and pushes the sub-commits context,
        returning pushContext's error (pushError). */
    method SwitchToSubCommitsContext(refName: string, filterPath: string,
                                     getCommits: CommitsQuery -> Result<seq<Commit>, string>,
                                     currentSideListContext: Option<Context>, pushError: Option<string>)
      returns (err: Option<string>)
      requires Valid()
      modifies this`subCommits, this`refName, this`selectedLineIdx, this`subCommitsParent, this`pushed
      ensures Valid()
      ensures var built := getCommits(CommitsQuery(limitCommits, filterPath, false, refName));
              if built.Err? then
                && err == Some(built.error)
                && subCommits == old(subCommits) && this.refName == old(this.refName)
                && selectedLineIdx == old(selectedLineIdx)
                && subCommitsParent == old(subCommitsParent) && pushed == old(pushed)
              else
                && subCommits == built.value && this.refName == refName && selectedLineIdx == 0
                && subCommitsParent == currentSideListContext
                && pushed == old(pushed) + [subCommitsContext]
                && err == pushError
                && SelectedSubCommit(subCommits, selectedLineIdx)
                   == if built.value == [] then None else Some(built.value[0])
    {
      var built := getCommits(CommitsQuery(limitCommits, filterPath, false, refName));
      if built.Err? {
        return Some(built.error);
      }
      subCommits := built.value;
      this.refName := refName;
      selectedLineIdx := 0;
      subCommitsParent := currentSideListContext;
      pushed := pushed + [subCommitsContext];
      err := pushError;
    }

    /** handleSwitchToSubCommits: nothing without a current side list context; otherwise switches
        to the sub-commits of that context's selected item. */
    method HandleSwitchToSubCommits(currentSideListContext: Option<ListContext>, filterPath: string,
                                    getCommits: CommitsQuery -> Result<seq<Commit>, string>,
                                    pushError: Option<string>)
      returns (err: Option<string>)
      requires Valid()
      modifies this`subCommits, this`refName, this`selectedLineIdx, this`subCommitsParent, this`pushed
      ensures Valid()
      ensures currentSideListContext.None? ==>
                && err == None
                && subCommits == old(subCommits) && refName == old(refName)
                && selectedLineIdx == old(selectedLineIdx)
                && subCommitsParent == old(subCommitsParent) && pushed == old(pushed)
      ensures currentSideListContext.Some? ==>
                var ref := currentSideListContext.value.selectedItemId;
                var built := getCommits(CommitsQuery(limitCommits, filterPath, false, ref));
                && (built.Err? ==>
                      && err == Some(built.error)
                      && subCommits == old(subCommits) && refName == old(refName)
                      && selectedLineIdx == old(selectedLineIdx)
                      && subCommitsParent == old(subCommitsParent) && pushed == old(pushed))
                && (built.Ok? ==>
                      && refName == ref && subCommits == built.value && selectedLineIdx == 0
                      && subCommitsParent == Some(currentSideListContext.value.context)
                      && pushed == old(pushed) + [subCommitsContext]
                      && err == pushError)
    {
      if currentSideListContext.None? {
        return None;
      }
      err := SwitchToSubCommitsContext(currentSideListContext.value.selectedItemId, filterPath, getCommits,
                                       Some(currentSideListContext.value.context), pushError);
    }
  }
}
