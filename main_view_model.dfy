/**
 * The dashboard part of MainViewModel: the `uiState` record, the set of
 * focus titles the user snoozed or postponed, and the synchronous state
 * updates of `onDashboardEvent`, `refreshSmart` and `refreshTasks`.
 *
 * Work the view model launches (repository writes, snackbars, calendar
 * loading, the debounced smart refresh) is returned as a list of effects;
 * what that work later reports back arrives through the `On...` methods.
 */
module Dashboard {
  import opened Common
  import opened SmartDashboard

  const DAY_MS: int := 24 * 60 * 60 * 1000

  /** A diary entry as the dashboard shows it; the dashboard only stores the list. */
  datatype DiaryEntry = DiaryEntry(id: int, title: string, content: string, createdDate: int)

  datatype DashboardEvent =
    | ReadPermissionChanged(hasPermission: bool)
    | CompleteTask(task: Task, isCompleted: bool)
    | UndoComplete(task: Task)
    | InitAll
    | RefreshSmart
    | SnoozeFocus(title: string)
    | PostponeFocus(title: string)
    | DismissNudge

  datatype Snackbar = Snackbar(message: string, actionLabel: Option<string>, actionEvent: Option<DashboardEvent>)

  /** The work one event starts. */
  datatype Effect =
    | LoadCalendarEvents                       // getCalendarEvents()
    | SetTaskCompleted(taskId: int, isCompleted: bool)
    | ShowSnackbar(snackbar: Snackbar)
    | SavePostponedTask(task: Task, title: string)  // updateTask(updated, true), reported to OnPostponeSaved
    | CollectDashboardData
    | StartSmartRefreshCollector
    | TriggerSmartRefresh                      // after the debounce: BeginRefreshSmart, then the fetch
    | FetchSmartDashboard                      // the fetch of refreshSmart(), which ends in RefreshSmartWith

  datatype UiState = UiState(
    dashBoardTasks: seq<Task>,
    dashBoardEvents: map<string, seq<CalendarEvent>>,
    summaryTasks: seq<Task>,
    dashBoardEntries: seq<DiaryEntry>,
    smartTopFocus: seq<FocusItem>,
    smartFlow: seq<FlowItem>,
    smartNudge: Option<string>,
    loadingSmart: bool)

  function InitialUiState(): UiState
  {
    UiState([], map[], [], [], [], [], None, false)
  }

  function NotIn(titles: set<string>): FocusItem -> bool
  {
    (f: FocusItem) => f.title !in titles
  }

  /** `filter { it.title !in titles }`. */
  function WithoutTitles(items: seq<FocusItem>, titles: set<string>): seq<FocusItem>
  {
    Filter(items, NotIn(titles))
  }

  /** `map { if (it.title == title) it.copy(task = updated) else it }`. */
  function WithTaskFor(items: seq<FocusItem>, title: string, updated: Task): (r: seq<FocusItem>)
    ensures |r| == |items|
    ensures forall i :: 0 <= i < |r| ==>
      r[i] == if items[i].title == title then items[i].(task := Some(updated)) else items[i]
  {
    if items == [] then []
    else [if items[0].title == title then items[0].(task := Some(updated)) else items[0]]
         + WithTaskFor(items[1..], title, updated)
  }

  function TitleIs(title: string): FocusItem -> bool
  {
    (f: FocusItem) => f.title == title
  }

  /** The task a postpone would update: the first item with the title, if it has a task with a due date. */
  function PostponableTask(topFocus: seq<FocusItem>, title: string): Option<Task>
  {
    match Find(topFocus, TitleIs(title))
    case Some(item) =>
      if item.task.Some? && item.task.value.dueDate > 0 then item.task else None
    case None => None
  }

  /** The effects `onDashboardEvent` starts for `event`, given the focus list before it. */
  function DashboardEffects(topFocus: seq<FocusItem>, event: DashboardEvent): (effects: seq<Effect>)
    ensures SavesTask(effects) <==> event.PostponeFocus? && PostponableTask(topFocus, event.title).Some?
    ensures event.SnoozeFocus? || event.PostponeFocus? ==> |effects| == 2 && effects[1] == TriggerSmartRefresh
    ensures event.CompleteTask? ==> |effects| == 2 && effects[0] == SetTaskCompleted(event.task.id, event.isCompleted)
    ensures event.UndoComplete? ==> |effects| == 2 && effects[0] == SetTaskCompleted(event.task.id, false)
  {
    match event
    case ReadPermissionChanged(hasPermission) =>
      if hasPermission then [LoadCalendarEvents] else []
    case CompleteTask(task, isCompleted) =>
      [SetTaskCompleted(task.id, isCompleted),
       if isCompleted
       then ShowSnackbar(Snackbar("Marked '" + task.title + "' complete", Some("Undo"), Some(UndoComplete(task))))
       else ShowSnackbar(Snackbar("Marked '" + task.title + "' incomplete", None, None))]
    case UndoComplete(task) =>
      [SetTaskCompleted(task.id, false),
       ShowSnackbar(Snackbar("Undid completion for '" + task.title + "'", None, None))]
    case InitAll => [CollectDashboardData, StartSmartRefreshCollector, TriggerSmartRefresh]
    case RefreshSmart => [FetchSmartDashboard]
    case SnoozeFocus(title) =>
      [ShowSnackbar(Snackbar("Snoozed '" + title + "' for now", None, None)), TriggerSmartRefresh]
    case PostponeFocus(title) =>
      (match PostponableTask(topFocus, title)
       case Some(task) =>
         var effects := [SavePostponedTask(task.(dueDate := task.dueDate + DAY_MS), title), TriggerSmartRefresh];
         assert effects[0].SavePostponedTask?;
         effects
       case None =>
         [ShowSnackbar(Snackbar("Can't postpone '" + title + "' (no due date)", None, None)), TriggerSmartRefresh])
    case DismissNudge => []
  }

  predicate SavesTask(effects: seq<Effect>)
  {
    exists i :: 0 <= i < |effects| && effects[i].SavePostponedTask?
  }

  class MainViewModel {
    var uiState: UiState
    /** Titles snoozed or postponed; only ever added to. */
    var suppressedFocusTitles: set<string>

    /** No focus item on show has a suppressed title. */
    ghost predicate Valid()
      reads this
    {
      forall i :: 0 <= i < |uiState.smartTopFocus| ==> uiState.smartTopFocus[i].title !in suppressedFocusTitles
    }

    constructor()
      ensures uiState == InitialUiState() && suppressedFocusTitles == {}
      ensures Valid()
    {
      uiState := InitialUiState();
      suppressedFocusTitles := {};
    }

    /** Hide the focus items whose title is suppressed. */
    method HideSuppressed()
      modifies this
      ensures suppressedFocusTitles == old(suppressedFocusTitles)
      ensures uiState == old(uiState).(smartTopFocus := WithoutTitles(old(uiState.smartTopFocus), suppressedFocusTitles))
      ensures Valid()
    {
      uiState := uiState.(smartTopFocus := WithoutTitles(uiState.smartTopFocus, suppressedFocusTitles));
    }

    /**
     * `onDashboardEvent`. Snooze and postpone suppress the title and hide it;
     * a postpone's copy of the item with the moved task is hidden with it.
     */
    method OnDashboardEvent(event: DashboardEvent) returns (effects: seq<Effect>)
      requires Valid()
      modifies this
      ensures Valid()
      ensures old(suppressedFocusTitles) <= suppressedFocusTitles
      ensures effects == DashboardEffects(old(uiState.smartTopFocus), event)
      ensures (event.SnoozeFocus? || event.PostponeFocus?) ==>
        suppressedFocusTitles == old(suppressedFocusTitles) + {event.title} &&
        uiState == old(uiState).(smartTopFocus := WithoutTitles(old(uiState.smartTopFocus), suppressedFocusTitles))
      ensures event.DismissNudge? ==>
        suppressedFocusTitles == old(suppressedFocusTitles) && uiState == old(uiState).(smartNudge := None)
      ensures event.RefreshSmart? ==>
        suppressedFocusTitles == old(suppressedFocusTitles) && uiState == old(uiState).(loadingSmart := true)
      ensures !(event.SnoozeFocus? || event.PostponeFocus? || event.DismissNudge? || event.RefreshSmart?) ==>
        suppressedFocusTitles == old(suppressedFocusTitles) && uiState == old(uiState)
    {
      effects := DashboardEffects(uiState.smartTopFocus, event);
      match event {
        case SnoozeFocus(title) =>
          suppressedFocusTitles := suppressedFocusTitles + {title};
          HideSuppressed();
        case PostponeFocus(title) =>
          var before := uiState.smartTopFocus;
          var task := PostponableTask(before, title);
          if task.Some? {
            var updated := task.value.(dueDate := task.value.dueDate + DAY_MS);
            uiState := uiState.(smartTopFocus := WithTaskFor(before, title, updated));
            suppressedFocusTitles := suppressedFocusTitles + {title};
            PostponedCopyHidden(before, title, updated, suppressedFocusTitles);
          } else {
            suppressedFocusTitles := suppressedFocusTitles + {title};
          }
          HideSuppressed();
        case DismissNudge =>
          uiState := uiState.(smartNudge := None);
        case RefreshSmart =>
          BeginRefreshSmart();
        case _ =>
      }
    }

    /** `refreshSmart` up to its fetch: the loading flag is raised before the use case is called. */
    method BeginRefreshSmart()
      requires Valid()
      modifies this
      ensures Valid()
      ensures suppressedFocusTitles == old(suppressedFocusTitles)
      ensures uiState == old(uiState).(loadingSmart := true)
    {
      uiState := uiState.(loadingSmart := true);
    }

    /** The rest of `refreshSmart`, once the use case returned `data`. */
    method RefreshSmartWith(data: SmartDashboardData)
      requires Valid()
      modifies this
      ensures Valid()
      ensures suppressedFocusTitles == old(suppressedFocusTitles)
      ensures uiState == old(uiState).(
        smartTopFocus := WithoutTitles(data.topFocus, suppressedFocusTitles),
        smartFlow := data.flow,
        smartNudge := data.nudge,
        loadingSmart := false)
    {
      var filteredTop := WithoutTitles(data.topFocus, suppressedFocusTitles);
      uiState := uiState.(smartTopFocus := filteredTop, smartFlow := data.flow,
                          smartNudge := data.nudge, loadingSmart := false);
    }

    /**
     * `refreshTasks` once the repository emitted `tasks`; `inLastWeek`
     * tells whether a creation date lies within the last week.
     */
    method RefreshTasksWith(tasks: seq<Task>, showCompleted: bool, inLastWeek: int -> bool)
      requires Valid()
      modifies this
      ensures Valid()
      ensures suppressedFocusTitles == old(suppressedFocusTitles)
      ensures uiState == old(uiState).(
        dashBoardTasks := ShownTasks(tasks, showCompleted),
        summaryTasks := Filter(tasks, (t: Task) => inLastWeek(t.createdDate)))
    {
      uiState := uiState.(
        dashBoardTasks := ShownTasks(tasks, showCompleted),
        summaryTasks := Filter(tasks, (t: Task) => inLastWeek(t.createdDate)));
    }

    /** `getCalendarEvents` once the events, grouped by day, are loaded. */
    method OnCalendarEventsLoaded(events: map<string, seq<CalendarEvent>>)
      requires Valid()
      modifies this
      ensures Valid()
      ensures suppressedFocusTitles == old(suppressedFocusTitles)
      ensures uiState == old(uiState).(dashBoardEvents := events)
    {
      uiState := uiState.(dashBoardEvents := events);
    }

    /** `collectDashboardData` once the entries are loaded; it then refreshes the tasks. */
    method OnDashboardEntries(entries: seq<DiaryEntry>)
      requires Valid()
      modifies this
      ensures Valid()
      ensures suppressedFocusTitles == old(suppressedFocusTitles)
      ensures uiState == old(uiState).(dashBoardEntries := entries)
    {
      uiState := uiState.(dashBoardEntries := entries);
    }

    /** What follows the repository's answer to a postpone's task update. */
    method OnPostponeSaved(title: string, ok: bool) returns (effects: seq<Effect>)
      ensures ok ==> effects == [ShowSnackbar(Snackbar("Postponed '" + title + "' by 1 day", None, None)), TriggerSmartRefresh]
      ensures !ok ==> effects == []
    {
      if ok {
        effects := [ShowSnackbar(Snackbar("Postponed '" + title + "' by 1 day", None, None)), TriggerSmartRefresh];
      } else {
        effects := [];
      }
    }
  }

  /** The tasks the dashboard lists: all of them, or only the open ones. */
  function ShownTasks(tasks: seq<Task>, showCompleted: bool): (r: seq<Task>)
    ensures showCompleted ==> r == tasks
    ensures forall i :: 0 <= i < |r| ==> r[i] in tasks && (!showCompleted ==> !r[i].isCompleted)
  {
    if showCompleted then tasks else Filter(tasks, IsOpen)
  }

  // ---------------------------------------------------------------------
  // Properties
  // ---------------------------------------------------------------------

  /** Hiding leaves exactly the items whose title is not suppressed, in order, each as often as before. */
  lemma WithoutTitlesContents(items: seq<FocusItem>, titles: set<string>, x: FocusItem)
    ensures forall i :: 0 <= i < |WithoutTitles(items, titles)| ==> WithoutTitles(items, titles)[i].title !in titles
    ensures multiset(WithoutTitles(items, titles))[x] == if x.title in titles then 0 else multiset(items)[x]
    ensures forall a, b :: WithoutTitles(a + b, titles) == WithoutTitles(a, titles) + WithoutTitles(b, titles)
  {
    FilterCount(items, NotIn(titles), x);
    forall a: seq<FocusItem>, b: seq<FocusItem>
      ensures WithoutTitles(a + b, titles) == WithoutTitles(a, titles) + WithoutTitles(b, titles)
    {
      FilterAppend(a, b, NotIn(titles));
    }
  }

  /** Hiding by one set and then by another is hiding by both at once. */
  lemma {:induction false} WithoutTitlesTwice(items: seq<FocusItem>, a: set<string>, b: set<string>)
    ensures WithoutTitles(WithoutTitles(items, a), b) == WithoutTitles(items, a + b)
  {
    if items != [] {
      WithoutTitlesTwice(items[1..], a, b);
      var first := if items[0].title !in a then [items[0]] else [];
      FilterAppend(first, WithoutTitles(items[1..], a), NotIn(b));
      assert Filter(first, NotIn(b)) == if items[0].title !in a + b then [items[0]] else [];
    }
  }

  /** Once its title is suppressed, a postponed item's updated copy is hidden like the original. */
  lemma {:induction false} PostponedCopyHidden(items: seq<FocusItem>, title: string, updated: Task, titles: set<string>)
    requires title in titles
    ensures WithoutTitles(WithTaskFor(items, title, updated), titles) == WithoutTitles(items, titles)
  {
    if items != [] {
      PostponedCopyHidden(items[1..], title, updated, titles);
      var mapped := WithTaskFor(items, title, updated);
      assert mapped[1..] == WithTaskFor(items[1..], title, updated);
    }
  }

  /**
   * A postpone updates a task exactly when the first item with the title
   * has a task with a due date, and then moves it one day later; otherwise
   * it reports that the item cannot be postponed. A refresh follows either way.
   */
  lemma PostponeEffects(topFocus: seq<FocusItem>, title: string)
    ensures var effects := DashboardEffects(topFocus, PostponeFocus(title));
      var item := Find(topFocus, TitleIs(title));
      (SavesTask(effects) <==> item.Some? && item.value.task.Some? && item.value.task.value.dueDate > 0) &&
      (SavesTask(effects) ==>
         effects[0] == SavePostponedTask(item.value.task.value.(dueDate := item.value.task.value.dueDate + DAY_MS), title)) &&
      (!SavesTask(effects) ==>
         effects[0] == ShowSnackbar(Snackbar("Can't postpone '" + title + "' (no due date)", None, None))) &&
      effects[|effects| - 1] == TriggerSmartRefresh
  {
    var effects := DashboardEffects(topFocus, PostponeFocus(title));
    if PostponableTask(topFocus, title).Some? {
      assert effects[0].SavePostponedTask?;
    }
  }

  /** Completing offers an undo that reopens the same task; undoing never offers one. */
  lemma CompleteOffersUndo(topFocus: seq<FocusItem>, task: Task)
    ensures DashboardEffects(topFocus, CompleteTask(task, true))[0] == SetTaskCompleted(task.id, true)
    ensures DashboardEffects(topFocus, CompleteTask(task, true))[1].snackbar.actionEvent == Some(UndoComplete(task))
    ensures DashboardEffects(topFocus, UndoComplete(task))[0] == SetTaskCompleted(task.id, false)
    ensures DashboardEffects(topFocus, UndoComplete(task))[1].snackbar.actionEvent == None
    ensures DashboardEffects(topFocus, CompleteTask(task, false))[1].snackbar.actionEvent == None
  {
  }

  /** The dashboard shows every task, or exactly the open ones, in their order. */
  lemma ShownTasksContents(tasks: seq<Task>, showCompleted: bool, t: Task)
    ensures showCompleted ==> ShownTasks(tasks, showCompleted) == tasks
    ensures !showCompleted ==>
      multiset(ShownTasks(tasks, showCompleted))[t] == if t.isCompleted then 0 else multiset(tasks)[t]
    ensures !showCompleted ==> forall a, b :: Filter(a + b, IsOpen) == Filter(a, IsOpen) + Filter(b, IsOpen)
  {
    FilterCount(tasks, IsOpen, t);
    forall a: seq<Task>, b: seq<Task> ensures Filter(a + b, IsOpen) == Filter(a, IsOpen) + Filter(b, IsOpen) {
      FilterAppend(a, b, IsOpen);
    }
  }
}
