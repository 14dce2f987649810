/** The container panel (`frontend/src/components/widgets/DockerWidget.jsx`):
    its filters, the status text and colour of a container, the action
    buttons, the confirmation dialog, and the per-container "busy" marks kept
    while an action request is in flight.

    The HTTP request is a parameter: its outcome arrives as a value. */
module DockerWidget {
  import opened Base
  import opened Text
  import opened Models
  import opened Lists
  import DockerParser
  import Handlers

  // ---------------------------------------------------------------------------
  // Filters
  // ---------------------------------------------------------------------------

  /** The text search: name, image or id contains the term, in any letter case. */
  predicate TextMatches(c: DockerContainer, term: string)
    ensures term == "" ==> TextMatches(c, term)
  {
    || Contains(Lower(c.name), Lower(term))
    || Contains(Lower(c.image), Lower(term))
    || Contains(Lower(c.id), Lower(term))
  }

  predicate IsRunning(c: DockerContainer) { c.state.running }

  function MatchesTerm(term: string): DockerContainer -> bool
  {
    c => TextMatches(c, term)
  }

  /** Both conditions of the panel's filters. */
  function Shown(term: string, onlyRunning: bool): DockerContainer -> bool
  {
    c => (!onlyRunning || IsRunning(c)) && (term == "" || TextMatches(c, term))
  }

  /** `filteredContainers`: the running filter first, then the text filter,
      each applied only when switched on. */
  function FilterContainers(containers: Option<seq<DockerContainer>>, term: string, onlyRunning: bool): (r: seq<DockerContainer>)
    ensures var all := if containers.Some? then containers.value else [];
      forall c :: c in r <==> c in all && (!onlyRunning || c.state.running) && (term == "" || TextMatches(c, term))
    ensures var all := if containers.Some? then containers.value else [];
      multiset(r) <= multiset(all)
  {
    var all := if containers.Some? then containers.value else [];
    FilterMembers(all, IsRunning);
    var running := if onlyRunning then Filter(all, IsRunning) else all;
    FilterMembers(running, MatchesTerm(term));
    if term != "" then Filter(running, MatchesTerm(term)) else running
  }

  /** Both filters together are one order-preserving filter by the conjunction
      of their conditions. */
  lemma FilterContainersIsOneFilter(containers: Option<seq<DockerContainer>>, term: string, onlyRunning: bool)
    ensures var all := if containers.Some? then containers.value else [];
      FilterContainers(containers, term, onlyRunning) == Filter(all, Shown(term, onlyRunning))
  {
    var all := if containers.Some? then containers.value else [];
    if onlyRunning && term != "" {
      BothFilters(all, term);
    } else if onlyRunning {
      assert forall x :: IsRunning(x) == Shown(term, onlyRunning)(x);
      FilterCongruent(all, IsRunning, Shown(term, onlyRunning));
    } else if term != "" {
      assert forall x :: MatchesTerm(term)(x) == Shown(term, onlyRunning)(x);
      FilterCongruent(all, MatchesTerm(term), Shown(term, onlyRunning));
    } else {
      assert forall x :: Shown(term, onlyRunning)(x);
      FilterAll(all, Shown(term, onlyRunning));
    }
  }

  lemma BothFilters(all: seq<DockerContainer>, term: string)
    requires term != ""
    ensures Filter(Filter(all, IsRunning), MatchesTerm(term)) == Filter(all, Shown(term, true))
  {
    FilterFilter(all, IsRunning, MatchesTerm(term), Shown(term, true));
  }

  /** The message shown when no container is left. */
  function EmptyMessage(term: string, onlyRunning: bool): (m: string)
    ensures m == "暂无Docker容器" <==> term == "" && !onlyRunning
  {
    if term != "" || onlyRunning then "没有匹配的容器" else "暂无Docker容器"
  }

  // ---------------------------------------------------------------------------
  // Status text and colour
  // ---------------------------------------------------------------------------

  /** `state[field]` read as a condition on the JSON object the backend sends
      for a `ContainerState`: the flags as they are, the optional fields when
      present and non-zero or non-empty, and any other field undefined. */
  function Field(s: ContainerState, field: string): bool
  {
    if field == "running" then s.running
    else if field == "paused" then s.paused
    else if field == "restarting" then s.restarting
    else if field == "dead" then s.dead
    else if field == "pid" then s.pid.Some? && s.pid.value != 0
    else if field == "exit_code" then s.exitCode.Some? && s.exitCode.value != 0
    else if field == "started_at" then s.startedAt.Some? && s.startedAt.value != ""
    else if field == "finished_at" then s.finishedAt.Some? && s.finishedAt.value != ""
    else false
  }

  const PausedText: string := "已暂停"
  const RunningText: string := "运行中"
  const RestartingText: string := "重启中"
  const StoppedText: string := "已停止"
  const UnknownText: string := "未知"

  /** `getStatusText(state)`, reading the fields in priority order. The text
      follows the flags in that order; since the state object has no `exited`
      field, "stopped" is never shown. */
  function StatusText(s: ContainerState): (t: string)
    ensures t == PausedText <==> s.running && s.paused
    ensures t == RunningText <==> s.running && !s.paused
    ensures t == RestartingText <==> !s.running && s.restarting
    ensures t == UnknownText <==> !s.running && !s.restarting
    ensures t != StoppedText
  {
    if Field(s, "running") && Field(s, "paused") then PausedText
    else if Field(s, "running") then RunningText
    else if Field(s, "restarting") then RestartingText
    else if Field(s, "exited") then StoppedText
    else UnknownText
  }

  /** With states derived by the backend parser, which never sets two flags,
      "paused" is never shown either: a paused container reads "unknown". */
  lemma StatusTextOfParsedState(word: string)
    ensures var t := StatusText(DockerParser.DeriveState(word));
      t != PausedText && t != StoppedText
    ensures word == "paused" ==> StatusText(DockerParser.DeriveState(word)) == UnknownText
    ensures word == "running" ==> StatusText(DockerParser.DeriveState(word)) == RunningText
  {
  }

  /** `getStatusColor(state)`. */
  function StatusColor(s: ContainerState): (c: string)
    ensures c == "text-green-500" <==> s.running
    ensures c == "text-yellow-500" <==> !s.running && s.paused
    ensures c == "text-blue-500" <==> !s.running && !s.paused && s.restarting
    ensures c == "text-gray-500" <==> !s.running && !s.paused && !s.restarting
  {
    if Field(s, "running") then "text-green-500"
    else if Field(s, "paused") then "text-yellow-500"
    else if Field(s, "restarting") then "text-blue-500"
    else "text-gray-500"
  }

  // ---------------------------------------------------------------------------
  // Actions
  // ---------------------------------------------------------------------------

  /** The action buttons of a container: stop, restart and pause or resume
      while it runs; start otherwise. */
  function OfferedActions(s: ContainerState): (actions: seq<string>)
    ensures s.running ==> actions == ["stop", "restart", if s.paused then "unpause" else "pause"]
    ensures !s.running ==> actions == ["start"]
  {
    if Field(s, "running") then ["stop", "restart", if Field(s, "paused") then "unpause" else "pause"]
    else ["start"]
  }

  /** The verb shown for each known action. */
  function ActionVerb(action: string): (v: Option<string>)
    ensures v.Some? <==> action in {"stop", "start", "restart", "pause", "unpause"}
  {
    if action == "stop" then Some("停止")
    else if action == "start" then Some("启动")
    else if action == "restart" then Some("重启")
    else if action == "pause" then Some("暂停")
    else if action == "unpause" then Some("恢复")
    else None
  }

  /** Every offered action has a verb and is one the backend accepts, and it
      runs the docker subcommand of the same name. */
  lemma OfferedActionsKnown(s: ContainerState)
    ensures forall a :: a in OfferedActions(s) ==>
      ActionVerb(a).Some? && Handlers.DecodeAction(a).Some? && Handlers.Command(Handlers.DecodeAction(a).value) == a
  {
  }

  /** The confirmation dialog's content. */
  datatype Dialog = Dialog(containerId: string, containerName: string, action: string,
                           actionText: string, message: string)

  /** `confirmAction(id, name, action)`: the verb or, for an unknown action, the
      action itself; the message interpolates the table entry, which for an
      unknown action reads "undefined". */
  function ConfirmDialog(containerId: string, containerName: string, action: string): (d: Dialog)
    ensures d.containerId == containerId && d.containerName == containerName && d.action == action
    ensures d.actionText == (if ActionVerb(action).Some? then ActionVerb(action).value else action)
    ensures d.message == "确定要" + (if ActionVerb(action).Some? then ActionVerb(action).value else "undefined")
      + "容器 \"" + containerName + "\" 吗？"
  {
    var verb := ActionVerb(action);
    Dialog(containerId, containerName, action,
           if verb.Some? then verb.value else action,
           "确定要" + (if verb.Some? then verb.value else "undefined") + "容器 \"" + containerName + "\" 吗？")
  }

  datatype ToastKind = Success | Error | Warning | Info
  datatype Toast = Toast(message: string, kind: ToastKind)

  /** How the action request ended: a reply with its `success` and `message`,
      an abort on the client's 60 s limit, an HTTP error with or without a
      `message` in its body, or no reply at all. */
  datatype RequestOutcome =
    | Replied(success: bool, message: string)
    | Aborted
    | HttpError(bodyMessage: Option<string>, errorMessage: string)
    | NoReply

  /** The notification shown when the request ends. */
  function ResultToast(name: string, actionText: string, outcome: RequestOutcome): (t: Toast)
    ensures t.kind == Success <==> outcome.Replied? && outcome.success
    ensures t.kind == Warning <==> outcome.Aborted?
    ensures t.kind != Info
  {
    var head := "容器 \"" + name + "\" " + actionText;
    match outcome
    case Replied(ok, message) =>
      if ok then Toast(head + "成功", Success) else Toast(head + "失败: " + message, Error)
    case Aborted => Toast(head + "操作超时，请稍后检查容器状态", Warning)
    case HttpError(body, error) =>
      var detail := if body.Some? && body.value != "" then body.value else error;
      Toast(head + "失败: " + detail, Error)
    case NoReply => Toast(head + "失败: 网络错误", Error)
  }

  /** The panel's own state. `actionLoading` is the set of container ids with
      a request in flight; their buttons are disabled. */
  class DockerPanel {
    var confirmDialog: Option<Dialog>
    var actionLoading: set<string>
    var toast: Option<Toast>

    constructor ()
      ensures confirmDialog == None && actionLoading == {} && toast == None
    {
      confirmDialog := None;
      actionLoading := {};
      toast := None;
    }

    /** A button of the container is disabled while its request is in flight. */
    predicate ButtonsDisabled(containerId: string)
      reads this
    {
      containerId in actionLoading
    }

    /** `confirmAction`: opens the dialog for one container and action. */
    method ConfirmAction(containerId: string, containerName: string, action: string)
      modifies this`confirmDialog
      ensures confirmDialog == Some(ConfirmDialog(containerId, containerName, action))
    {
      confirmDialog := Some(ConfirmDialog(containerId, containerName, action));
    }

    /** The dialog's cancel button. */
    method Cancel()
      modifies this`confirmDialog
      ensures confirmDialog == None
    {
      confirmDialog := None;
    }

    /** The synchronous start of `executeAction`: without a dialog nothing
      happens; otherwise the dialog closes and its container is marked busy.
      The dialog returned is the request to send. */
    method BeginAction() returns (request: Option<Dialog>)
      modifies this`confirmDialog, this`actionLoading
      ensures request == old(confirmDialog)
      ensures old(confirmDialog).None? ==> confirmDialog == None && actionLoading == old(actionLoading)
      ensures old(confirmDialog).Some? ==>
        confirmDialog == None && actionLoading == old(actionLoading) + {old(confirmDialog).value.containerId}
    {
      request := confirmDialog;
      if confirmDialog.Some? {
        actionLoading := actionLoading + {confirmDialog.value.containerId};
        confirmDialog := None;
      }
    }

    /** The end of `executeAction`: the notification, and the busy mark of
      that container alone removed. */
    method FinishAction(request: Dialog, outcome: RequestOutcome)
      modifies this`toast, this`actionLoading
      ensures toast == Some(ResultToast(request.containerName, request.actionText, outcome))
      ensures actionLoading == old(actionLoading) - {request.containerId}
    {
      toast := Some(ResultToast(request.containerName, request.actionText, outcome));
      actionLoading := actionLoading - {request.containerId};
    }
  }

  /** Two containers' actions overlap: when the first finishes, the second
      container is still marked busy and the first is not. */
  method OverlappingActions() returns (firstBusy: bool, secondBusy: bool, shown: Option<Toast>)
    ensures !firstBusy && secondBusy
    ensures shown == Some(Toast("容器 \"web\" 停止成功", Success))
  {
    var panel := new DockerPanel();
    panel.ConfirmAction("a1", "web", "stop");
    var first := panel.BeginAction();
    assert first.value.actionText == "停止";
    panel.ConfirmAction("b2", "db", "restart");
    var second := panel.BeginAction();
    panel.FinishAction(first.value, Replied(true, ""));
    firstBusy := panel.ButtonsDisabled("a1");
    secondBusy := panel.ButtonsDisabled("b2");
    shown := panel.toast;
    assert "容器 \"" + "web" + "\" " + "停止" + "成功" == "容器 \"web\" 停止成功";
  }
}
