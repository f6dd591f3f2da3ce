/**
 * The smart dashboard (GetSmartDashboardItemsUseCase and the records of
 * SmartDashboardModels): the open tasks and upcoming events, the top focus
 * items (ranked by the local model, or by a heuristic when the model's
 * answer is unusable), the day's flow sorted by time, and an optional nudge.
 *
 * The clock (`now`), the hour of day of an instant in the local time zone
 * (`hourOf`), the model's reply and the JSON parser are inputs.
 */
module SmartDashboard {
  import opened Common
  import opened Sorting

  datatype Task = Task(id: int, title: string, isCompleted: bool, dueDate: int, priority: int, createdDate: int)
  datatype CalendarEvent = CalendarEvent(id: int, title: string, start: int, end: int)

  datatype FocusType = TaskFocus | EventFocus

  datatype FocusItem = FocusItem(
    title: string, reason: string, focusType: FocusType,
    task: Option<Task>, event: Option<CalendarEvent>)

  datatype FlowItem = FlowItem(
    time: int, title: string, flowType: FocusType,
    task: Option<Task>, event: Option<CalendarEvent>, hint: Option<string>)

  datatype SmartDashboardData = SmartDashboardData(topFocus: seq<FocusItem>, flow: seq<FlowItem>, nudge: Option<string>)

  const MAX_FOCUS: nat := 3
  const MAX_URGENT_TASKS: nat := 2
  const HOUR_MS: int := 60 * 60 * 1000
  const HINT_WINDOW_MS: int := 2 * HOUR_MS
  const DUE_SOON := "Due soon"
  const UPCOMING_EVENT := "Upcoming event"
  const NUDGE := "Free ~90 min this afternoon for deep work?"

  // ---------------------------------------------------------------------
  // Inputs of the ranking
  // ---------------------------------------------------------------------

  function IsOpen(t: Task): bool { !t.isCompleted }

  /** The tasks that are not completed. */
  function OpenTasks(tasks: seq<Task>): (r: seq<Task>)
    ensures forall i :: 0 <= i < |r| ==> r[i] in tasks && !r[i].isCompleted
    ensures forall i :: 0 <= i < |tasks| && !tasks[i].isCompleted ==> tasks[i] in r
  {
    Filter(tasks, IsOpen)
  }

  /** The events that have not ended at `now`. */
  function UpcomingEvents(events: seq<CalendarEvent>, now: int): (r: seq<CalendarEvent>)
    ensures forall i :: 0 <= i < |r| ==> r[i] in events && r[i].end >= now
    ensures forall i :: 0 <= i < |events| && events[i].end >= now ==> events[i] in r
  {
    Filter(events, (e: CalendarEvent) => e.end >= now)
  }

  // ---------------------------------------------------------------------
  // parseFocus
  // ---------------------------------------------------------------------

  /** A parsed JSON value; numbers and booleans are primitives holding their literal text. */
  datatype Json = JNull | JPrimitive(content: string) | JArray(elements: seq<Json>) | JObject(fields: map<string, Json>)

  /** `obj[name]?.jsonPrimitive?.content`: absent, the content, or a throw on an array or object. */
  datatype Field = Absent | Present(content: string) | Malformed

  function ReadField(fields: map<string, Json>, name: string): (f: Field)
    ensures f.Absent? <==> name !in fields
    ensures f.Malformed? <==> name in fields && (fields[name].JArray? || fields[name].JObject?)
  {
    if name !in fields then Absent
    else match fields[name]
      case JNull => Present("null")  // JsonNull's content is the text "null"
      case JPrimitive(c) => Present(c)
      case _ => Malformed
  }

  /** The first task whose title equals `title` ignoring case. */
  function TaskTitled(tasks: seq<Task>, title: string): Option<Task>
  {
    Find(tasks, (t: Task) => EqualsIgnoreCase(t.title, title))
  }

  /** The first event whose title equals `title` ignoring case. */
  function EventTitled(events: seq<CalendarEvent>, title: string): Option<CalendarEvent>
  {
    Find(events, (e: CalendarEvent) => EqualsIgnoreCase(e.title, title))
  }

  /** What the `mapNotNull` lambda does with one array element. */
  datatype Parsed = Dropped | Kept(item: FocusItem) | Failed

  function ParseElement(tasks: seq<Task>, events: seq<CalendarEvent>, el: Json): (p: Parsed)
    ensures p.Dropped? <==> el.JObject? && "title" !in el.fields
    ensures p.Kept? <==>
      el.JObject? && ReadField(el.fields, "title").Present? &&
      !ReadField(el.fields, "reason").Malformed? && !ReadField(el.fields, "type").Malformed?
  {
    if !el.JObject? then Failed
    else match ReadField(el.fields, "title")
      case Absent => Dropped
      case Malformed => Failed
      case Present(title) =>
        var reason := ReadField(el.fields, "reason");
        var kind := ReadField(el.fields, "type");
        if reason.Malformed? || kind.Malformed? then Failed
        else
          var typeStr := if kind.Present? then kind.content else "task";
          Kept(FocusItem(
            title,
            if reason.Present? then reason.content else "",
            if Lower(typeStr) == "event" then EventFocus else TaskFocus,
            TaskTitled(tasks, title),
            EventTitled(events, title)))
  }

  /**
   * The item built from an element: its title; its reason, "" when absent;
   * the event type exactly when the type, lower-cased, is "event" (an
   * absent type means "task"); and the first task and event with that title,
   * ignoring case.
   */
  lemma ParseElementItem(tasks: seq<Task>, events: seq<CalendarEvent>, el: Json)
    requires ParseElement(tasks, events, el).Kept?
    ensures var item := ParseElement(tasks, events, el).item;
      var reason := ReadField(el.fields, "reason");
      var kind := ReadField(el.fields, "type");
      ReadField(el.fields, "title") == Present(item.title) &&
      (reason.Absent? ==> item.reason == "") &&
      (reason.Present? ==> item.reason == reason.content) &&
      (item.focusType == EventFocus <==> kind.Present? && Lower(kind.content) == "event") &&
      item.task == TaskTitled(tasks, item.title) &&
      item.event == EventTitled(events, item.title)
  {
    assert Lower("task")[0] == 't';
  }

  /** `mapNotNull` over the elements; `None` when some element throws. */
  function ParseElements(tasks: seq<Task>, events: seq<CalendarEvent>, els: seq<Json>): (r: Option<seq<FocusItem>>)
    ensures r.Some? ==> |r.value| <= |els|
  {
    if els == [] then Some([])
    else match ParseElement(tasks, events, els[0])
      case Failed => None
      case Dropped => ParseElements(tasks, events, els[1..])
      case Kept(item) =>
        match ParseElements(tasks, events, els[1..])
        case None => None
        case Some(rest) => Some([item] + rest)
  }

  /** `parseFocus`: `root` is the parsed reply, `None` when the text is not JSON. */
  function ParseFocus(tasks: seq<Task>, events: seq<CalendarEvent>, root: Option<Json>): (r: seq<FocusItem>)
    ensures root.None? || !root.value.JArray? ==> r == []
    ensures root.Some? && root.value.JArray? ==> |r| <= |root.value.elements|
  {
    if root.None? || !root.value.JArray? then []
    else match ParseElements(tasks, events, root.value.elements)
      case None => []
      case Some(items) => items
  }

  predicate HasTitle(el: Json) { el.JObject? && "title" in el.fields }

  lemma {:induction false} ParseElementsFail(tasks: seq<Task>, events: seq<CalendarEvent>, els: seq<Json>, i: int)
    requires 0 <= i < |els| && ParseElement(tasks, events, els[i]).Failed?
    ensures ParseElements(tasks, events, els) == None
  {
    if i > 0 { ParseElementsFail(tasks, events, els[1..], i - 1); }
  }

  /** A reply that is not JSON, not an array, or has an element that throws gives no items. */
  lemma ParseFocusEmptyOnFailure(tasks: seq<Task>, events: seq<CalendarEvent>, root: Option<Json>, i: int)
    requires root.None? || !root.value.JArray? ||
             (0 <= i < |root.value.elements| && ParseElement(tasks, events, root.value.elements[i]).Failed?)
    ensures ParseFocus(tasks, events, root) == []
  {
    if root.Some? && root.value.JArray? { ParseElementsFail(tasks, events, root.value.elements, i); }
  }

  lemma {:induction false} ParseElementsKept(tasks: seq<Task>, events: seq<CalendarEvent>, els: seq<Json>)
    requires forall i :: 0 <= i < |els| ==> !ParseElement(tasks, events, els[i]).Failed?
    ensures ParseElements(tasks, events, els).Some?
    ensures |ParseElements(tasks, events, els).value| == |Filter(els, HasTitle)|
    ensures forall i :: 0 <= i < |Filter(els, HasTitle)| ==>
      ParseElement(tasks, events, Filter(els, HasTitle)[i]).Kept? &&
      ParseElements(tasks, events, els).value[i] == ParseElement(tasks, events, Filter(els, HasTitle)[i]).item
  {
    if els != [] {
      var rest := els[1..];
      ParseElementsKept(tasks, events, rest);
      var restTitled := Filter(rest, HasTitle);
      var items := ParseElements(tasks, events, rest).value;
      var p := ParseElement(tasks, events, els[0]);
      assert !p.Failed?;
      if HasTitle(els[0]) {
        assert p.Kept?;
        assert Filter(els, HasTitle) == [els[0]] + restTitled;
        assert ParseElements(tasks, events, els) == Some([p.item] + items);
        KeptItemsCons(tasks, events, els[0], restTitled, p.item, items);
      } else {
        assert p.Dropped?;
        assert Filter(els, HasTitle) == restTitled;
        assert ParseElements(tasks, events, els) == Some(items);
      }
    }
  }

  /** One kept element in front of the items of the rest. */
  lemma KeptItemsCons(tasks: seq<Task>, events: seq<CalendarEvent>, el: Json, titled: seq<Json>,
                      item: FocusItem, items: seq<FocusItem>)
    requires ParseElement(tasks, events, el) == Kept(item)
    requires |items| == |titled|
    requires forall i :: 0 <= i < |titled| ==>
      ParseElement(tasks, events, titled[i]).Kept? && items[i] == ParseElement(tasks, events, titled[i]).item
    ensures forall i :: 0 <= i < |[el] + titled| ==>
      ParseElement(tasks, events, ([el] + titled)[i]).Kept? &&
      ([item] + items)[i] == ParseElement(tasks, events, ([el] + titled)[i]).item
  {
    forall i | 0 <= i < |[el] + titled|
      ensures ParseElement(tasks, events, ([el] + titled)[i]).Kept? &&
              ([item] + items)[i] == ParseElement(tasks, events, ([el] + titled)[i]).item
    {
      if i > 0 { assert ([el] + titled)[i] == titled[i - 1] && ([item] + items)[i] == items[i - 1]; }
    }
  }

  /**
   * When every element of the array is an object whose fields read without
   * throwing, the items are those of the elements that have a title, in order.
   */
  lemma ParseFocusKeepsTitled(tasks: seq<Task>, events: seq<CalendarEvent>, els: seq<Json>)
    requires forall i :: 0 <= i < |els| ==> !ParseElement(tasks, events, els[i]).Failed?
    ensures var items := ParseFocus(tasks, events, Some(JArray(els)));
      var titled := Filter(els, HasTitle);
      |items| == |titled| &&
      forall i :: 0 <= i < |titled| ==>
        ParseElement(tasks, events, titled[i]).Kept? && items[i] == ParseElement(tasks, events, titled[i]).item
  {
    ParseElementsKept(tasks, events, els);
  }

  // ---------------------------------------------------------------------
  // heuristicFocus
  // ---------------------------------------------------------------------

  function HasDueDate(t: Task): bool { t.dueDate > 0 }
  function DueKey(t: Task): Key { IntKey(t.dueDate) }
  function StartKey(e: CalendarEvent): Key { IntKey(e.start) }

  function TaskFocusItem(t: Task): FocusItem { FocusItem(t.title, DUE_SOON, TaskFocus, Some(t), None) }
  function EventFocusItem(e: CalendarEvent): FocusItem { FocusItem(e.title, UPCOMING_EVENT, EventFocus, None, Some(e)) }

  /** The (at most two) tasks with a due date, soonest first. */
  function UrgentTasks(tasks: seq<Task>): (r: seq<Task>)
    ensures |r| <= MAX_URGENT_TASKS
  {
    Take(SortBy(Filter(tasks, HasDueDate), DueKey), MAX_URGENT_TASKS)
  }

  function StartsFrom(now: int): CalendarEvent -> bool
  {
    (e: CalendarEvent) => e.start >= now
  }

  /** The first of the events starting at or after `now`, sorted by start. */
  function NextEvent(events: seq<CalendarEvent>, now: int): (r: Option<CalendarEvent>)
  {
    var starting := SortBy(Filter(events, StartsFrom(now)), StartKey);
    if starting == [] then None else Some(starting[0])
  }

  /** `heuristicFocus`: the next event, if any, then the urgent tasks, at most three items. */
  function HeuristicFocus(tasks: seq<Task>, events: seq<CalendarEvent>, now: int): (r: seq<FocusItem>)
    ensures |r| <= MAX_FOCUS
  {
    var urgent := UrgentTasks(tasks);
    var urgentItems := seq(|urgent|, i requires 0 <= i < |urgent| => TaskFocusItem(urgent[i]));
    var next := match NextEvent(events, now) case Some(e) => [EventFocusItem(e)] case None => [];
    Take(next + urgentItems, MAX_FOCUS)
  }

  /** An element outside a sorted list's prefix has a key no smaller than the prefix's. */
  lemma OutsidePrefixIsLater<T>(sorted: seq<T>, n: nat, x: T, key: T -> Key)
    requires SortedBy(sorted, key) && n <= |sorted|
    requires x in sorted && x !in sorted[..n]
    ensures forall i :: 0 <= i < n ==> KeyLeq(key(sorted[i]), key(x))
  {
    var m :| 0 <= m < |sorted| && sorted[m] == x;
    assert m >= n;
  }

  /** The urgent tasks are the (up to) two soonest-due tasks with a due date, in due order. */
  lemma UrgentTasksSoonest(tasks: seq<Task>)
    ensures |UrgentTasks(tasks)| ==
      (if |Filter(tasks, HasDueDate)| < MAX_URGENT_TASKS then |Filter(tasks, HasDueDate)| else MAX_URGENT_TASKS)
    ensures forall i :: 0 <= i < |UrgentTasks(tasks)| ==>
      UrgentTasks(tasks)[i] in tasks && UrgentTasks(tasks)[i].dueDate > 0
    ensures forall i, j :: 0 <= i < j < |UrgentTasks(tasks)| ==>
      UrgentTasks(tasks)[i].dueDate <= UrgentTasks(tasks)[j].dueDate
    ensures forall j :: 0 <= j < |tasks| && tasks[j].dueDate > 0 && tasks[j] !in UrgentTasks(tasks) ==>
      forall i :: 0 <= i < |UrgentTasks(tasks)| ==> UrgentTasks(tasks)[i].dueDate <= tasks[j].dueDate
    ensures forall d :: d > 0 ==> WithKey(UrgentTasks(tasks), DueKey, IntKey(d)) <= WithKey(tasks, DueKey, IntKey(d))
  {
    var due := Filter(tasks, HasDueDate);
    var sorted := SortBy(due, DueKey);
    var u := UrgentTasks(tasks);
    SortByPermutation(due, DueKey);
    SortBySorted(due, DueKey);
    SortByMembership(due, DueKey);
    assert u == sorted[..|u|];
    forall i | 0 <= i < |u| ensures u[i] in tasks && u[i].dueDate > 0 {
      assert u[i] == sorted[i];
    }
    forall i, j | 0 <= i < j < |u| ensures u[i].dueDate <= u[j].dueDate {
      assert KeyLeq(DueKey(sorted[i]), DueKey(sorted[j]));
    }
    forall j | 0 <= j < |tasks| && tasks[j].dueDate > 0 && tasks[j] !in u
      ensures forall i :: 0 <= i < |u| ==> u[i].dueDate <= tasks[j].dueDate
    {
      assert tasks[j] in due;
      OutsidePrefixIsLater(sorted, |u|, tasks[j], DueKey);
    }
    forall d | d > 0 ensures WithKey(u, DueKey, IntKey(d)) <= WithKey(tasks, DueKey, IntKey(d)) {
      WithKeyPrefix(sorted, |u|, DueKey, IntKey(d));
      SortByStable(due, DueKey, IntKey(d));
      WithKeyFilter(tasks, HasDueDate, DueKey, IntKey(d));
    }
  }

  /** The next event is the earliest-starting event that starts at or after `now`. */
  lemma NextEventEarliest(events: seq<CalendarEvent>, now: int)
    ensures NextEvent(events, now).None? <==> forall j :: 0 <= j < |events| ==> events[j].start < now
    ensures NextEvent(events, now).Some? ==>
      NextEvent(events, now).value in events && NextEvent(events, now).value.start >= now
    ensures NextEvent(events, now).Some? ==>
      forall j :: 0 <= j < |events| && events[j].start >= now ==> NextEvent(events, now).value.start <= events[j].start
    ensures NextEvent(events, now).Some? ==>
      exists i :: 0 <= i < |events| && events[i] == NextEvent(events, now).value &&
                  (forall j :: 0 <= j < i ==> events[j].start != events[i].start)
  {
    var starting := Filter(events, StartsFrom(now));
    SortByPermutation(starting, StartKey);
    if NextEvent(events, now).Some? {
      NextEventMinimal(events, now);
      NextEventFirstOfItsStart(events, now);
    }
  }

  /** A next event is an input event that starts at or after `now`, no later than any other such event. */
  lemma NextEventMinimal(events: seq<CalendarEvent>, now: int)
    requires NextEvent(events, now).Some?
    ensures NextEvent(events, now).value in events && NextEvent(events, now).value.start >= now
    ensures forall j :: 0 <= j < |events| && events[j].start >= now ==> NextEvent(events, now).value.start <= events[j].start
  {
    var starting := Filter(events, StartsFrom(now));
    var sorted := SortBy(starting, StartKey);
    SortBySorted(starting, StartKey);
    SortByMembership(starting, StartKey);
    forall j | 0 <= j < |events| && events[j].start >= now ensures sorted[0].start <= events[j].start {
      assert events[j] in starting;
      var m :| 0 <= m < |sorted| && sorted[m] == events[j];
      if m > 0 { assert KeyLeq(StartKey(sorted[0]), StartKey(sorted[m])); }
    }
  }

  /** Among events with the same start, `sortedBy` then `first()` picks the earliest in input order. */
  lemma NextEventFirstOfItsStart(events: seq<CalendarEvent>, now: int)
    requires NextEvent(events, now).Some?
    ensures exists i :: 0 <= i < |events| && events[i] == NextEvent(events, now).value &&
                        (forall j :: 0 <= j < i ==> events[j].start != events[i].start)
  {
    var starting := Filter(events, StartsFrom(now));
    var sorted := SortBy(starting, StartKey);
    var v := sorted[0];
    var k := StartKey(v);
    SortByMembership(starting, StartKey);
    assert v in starting;
    assert forall x :: StartKey(x) == k ==> StartsFrom(now)(x);
    WithKeyHead(sorted, StartKey);
    SortByStable(starting, StartKey, k);
    WithKeyFilter(events, StartsFrom(now), StartKey, k);
    assert WithKey(events, StartKey, k)[0] == v;
    FirstWithKey(events, StartKey, k);
    var i :| 0 <= i < |events| && events[i] == v && StartKey(events[i]) == k &&
             (forall j :: 0 <= j < i ==> StartKey(events[j]) != k);
    assert forall j :: 0 <= j < i ==> events[j].start != events[i].start;
  }

  /**
   * The heuristic ranking: at most one event, and if so in first place,
   * then the urgent tasks in their order.
   */
  lemma HeuristicFocusShape(tasks: seq<Task>, events: seq<CalendarEvent>, now: int)
    ensures |HeuristicFocus(tasks, events, now)| <= MAX_FOCUS
    ensures |HeuristicFocus(tasks, events, now)| ==
      (if NextEvent(events, now).Some? then 1 else 0) + |UrgentTasks(tasks)|
    ensures NextEvent(events, now).Some? ==>
      HeuristicFocus(tasks, events, now)[0] == EventFocusItem(NextEvent(events, now).value)
    ensures var k := if NextEvent(events, now).Some? then 1 else 0;
      forall i :: k <= i < |HeuristicFocus(tasks, events, now)| ==>
        HeuristicFocus(tasks, events, now)[i] == TaskFocusItem(UrgentTasks(tasks)[i - k])
    ensures forall i :: 0 <= i < |HeuristicFocus(tasks, events, now)| ==>
      (HeuristicFocus(tasks, events, now)[i].focusType == EventFocus <==> i == 0 && NextEvent(events, now).Some?)
  {
    var u := UrgentTasks(tasks);
    var urgentItems := seq(|u|, i requires 0 <= i < |u| => TaskFocusItem(u[i]));
    var next := match NextEvent(events, now) case Some(e) => [EventFocusItem(e)] case None => [];
    var all := next + urgentItems;
    assert |u| <= MAX_URGENT_TASKS;
    assert HeuristicFocus(tasks, events, now) == all;
  }

  // ---------------------------------------------------------------------
  // timeHint, flow and nudge
  // ---------------------------------------------------------------------

  /** Whole hours until `start`, when it starts within the next two hours. */
  function HintHours(start: int, now: int): (h: Option<int>)
    ensures h.Some? <==> 1 <= start - now <= HINT_WINDOW_MS
    ensures h.Some? ==> 0 <= h.value <= 2 && h.value * HOUR_MS <= start - now < (h.value + 1) * HOUR_MS
  {
    var delta := start - now;
    if 1 <= delta <= HINT_WINDOW_MS then Some(delta / HOUR_MS) else None
  }

  /** `timeHint`: "Starts in <h>h" for an event starting within two hours. */
  function TimeHint(start: int, now: int): (r: Option<string>)
    ensures r.Some? <==> HintHours(start, now).Some?
    ensures r.Some? ==> r.value == "Starts in " + NatToString(HintHours(start, now).value) + "h"
  {
    match HintHours(start, now)
    case Some(h) => Some("Starts in " + IntToString(h) + "h")
    case None => None
  }

  function EventFlowItem(e: CalendarEvent, now: int): FlowItem
  {
    FlowItem(e.start, e.title, EventFocus, None, Some(e), TimeHint(e.start, now))
  }

  function TaskFlowItem(t: Task): FlowItem
  {
    FlowItem(t.dueDate, t.title, TaskFocus, Some(t), None, None)
  }

  function EventFlowItems(events: seq<CalendarEvent>, now: int): (r: seq<FlowItem>)
    ensures |r| == |events|
    ensures forall i :: 0 <= i < |r| ==> r[i] == EventFlowItem(events[i], now)
  {
    if events == [] then [] else [EventFlowItem(events[0], now)] + EventFlowItems(events[1..], now)
  }

  function TaskFlowItems(tasks: seq<Task>): (r: seq<FlowItem>)
    ensures |r| == |tasks|
    ensures forall i :: 0 <= i < |r| ==> r[i] == TaskFlowItem(tasks[i])
  {
    if tasks == [] then [] else [TaskFlowItem(tasks[0])] + TaskFlowItems(tasks[1..])
  }

  function TimeKey(f: FlowItem): Key { IntKey(f.time) }

  /** The flow: the events' and the tasks' items together, sorted by time. */
  function Flow(openTasks: seq<Task>, upcoming: seq<CalendarEvent>, now: int): (r: seq<FlowItem>)
    ensures |r| == |openTasks| + |upcoming|
  {
    SortByPermutation(EventFlowItems(upcoming, now) + TaskFlowItems(openTasks), TimeKey);
    SortBy(EventFlowItems(upcoming, now) + TaskFlowItems(openTasks), TimeKey)
  }

  /** `events.none { hour in 13..17 }`. */
  function NoAfternoonEvent(events: seq<CalendarEvent>, hourOf: int -> int): (b: bool)
    ensures b <==> forall i :: 0 <= i < |events| ==> !(13 <= hourOf(events[i].start) <= 17)
  {
    if events == [] then true
    else !(13 <= hourOf(events[0].start) <= 17) && NoAfternoonEvent(events[1..], hourOf)
  }

  /** `tasks.any { priority >= 2 && !completed }`. */
  function AnyImportantTask(tasks: seq<Task>): (b: bool)
    ensures b <==> exists i :: 0 <= i < |tasks| && tasks[i].priority >= 2 && !tasks[i].isCompleted
  {
    if tasks == [] then false
    else (tasks[0].priority >= 2 && !tasks[0].isCompleted) || AnyImportantTask(tasks[1..])
  }

  /** `generateOptionalNudge`: suggest deep work when the afternoon is free and a task matters. */
  function Nudge(tasks: seq<Task>, events: seq<CalendarEvent>, hourOf: int -> int): (r: Option<string>)
    ensures r.Some? <==>
      (forall i :: 0 <= i < |events| ==> !(13 <= hourOf(events[i].start) <= 17)) &&
      (exists i :: 0 <= i < |tasks| && tasks[i].priority >= 2 && !tasks[i].isCompleted)
    ensures r.Some? ==> r.value == NUDGE
  {
    if NoAfternoonEvent(events, hourOf) && AnyImportantTask(tasks) then Some(NUDGE) else None
  }

  // ---------------------------------------------------------------------
  // invoke
  // ---------------------------------------------------------------------

  /** The focus list before the final `take(3)`: the model's ranking, or the heuristic. */
  function FocusItems(open: seq<Task>, upcoming: seq<CalendarEvent>, now: int,
                      reply: NetworkResult<string>, parse: string -> Option<Json>): (r: seq<FocusItem>)
    ensures |r| <= MAX_FOCUS
    ensures !reply.Success? ==> r == HeuristicFocus(open, upcoming, now)
  {
    match reply
    case Success(text) =>
      var ranked := Take(ParseFocus(open, upcoming, parse(text)), MAX_FOCUS);
      if ranked == [] then HeuristicFocus(open, upcoming, now) else ranked
    case _ => HeuristicFocus(open, upcoming, now)
  }

  /**
   * `invoke()`: `tasks` and `events` are what the repositories return,
   * `reply` is the local model's answer to the ranking prompt, `parse` is
   * the JSON parser and `hourOf` gives an instant's local hour.
   */
  function GetSmartDashboardItems(tasks: seq<Task>, events: seq<CalendarEvent>, now: int,
                                  reply: NetworkResult<string>, parse: string -> Option<Json>,
                                  hourOf: int -> int): (d: SmartDashboardData)
    ensures |d.topFocus| <= MAX_FOCUS
  {
    var open := OpenTasks(tasks);
    var upcoming := UpcomingEvents(events, now);
    SmartDashboardData(
      Take(FocusItems(open, upcoming, now, reply, parse), MAX_FOCUS),
      Flow(open, upcoming, now),
      Nudge(open, upcoming, hourOf))
  }

  /**
   * The heuristic is used exactly when the model call did not succeed or
   * its reply yields no items; otherwise the first three parsed items are shown.
   */
  lemma FallbackRule(tasks: seq<Task>, events: seq<CalendarEvent>, now: int,
                     reply: NetworkResult<string>, parse: string -> Option<Json>, hourOf: int -> int)
    ensures var open := OpenTasks(tasks);
      var upcoming := UpcomingEvents(events, now);
      var d := GetSmartDashboardItems(tasks, events, now, reply, parse, hourOf);
      var parsed := if reply.Success? then ParseFocus(open, upcoming, parse(reply.data)) else [];
      (parsed == [] ==> d.topFocus == HeuristicFocus(open, upcoming, now)) &&
      (parsed != [] ==> d.topFocus == Take(parsed, MAX_FOCUS) && d.topFocus != [])
  {
    var open := OpenTasks(tasks);
    var upcoming := UpcomingEvents(events, now);
    HeuristicFocusShape(open, upcoming, now);
  }

  lemma {:induction false} TaskFlowItemsCount(s: seq<Task>, t: Task)
    ensures multiset(TaskFlowItems(s))[TaskFlowItem(t)] == multiset(s)[t]
  {
    if s != [] {
      assert TaskFlowItems(s) == [TaskFlowItem(s[0])] + TaskFlowItems(s[1..]);
      assert s == [s[0]] + s[1..];
      assert multiset(TaskFlowItems(s)) == multiset([TaskFlowItem(s[0])]) + multiset(TaskFlowItems(s[1..]));
      assert multiset(s) == multiset([s[0]]) + multiset(s[1..]);
      TaskFlowItemsCount(s[1..], t);
    }
  }

  lemma {:induction false} EventFlowItemsCount(s: seq<CalendarEvent>, now: int, e: CalendarEvent)
    ensures multiset(EventFlowItems(s, now))[EventFlowItem(e, now)] == multiset(s)[e]
  {
    if s != [] {
      assert EventFlowItems(s, now) == [EventFlowItem(s[0], now)] + EventFlowItems(s[1..], now);
      assert s == [s[0]] + s[1..];
      assert multiset(EventFlowItems(s, now)) ==
             multiset([EventFlowItem(s[0], now)]) + multiset(EventFlowItems(s[1..], now));
      assert multiset(s) == multiset([s[0]]) + multiset(s[1..]);
      EventFlowItemsCount(s[1..], now, e);
    }
  }

  lemma NoTaskItemAmongEvents(s: seq<CalendarEvent>, now: int, t: Task)
    ensures multiset(EventFlowItems(s, now))[TaskFlowItem(t)] == 0
  {
    assert TaskFlowItem(t) !in EventFlowItems(s, now);
  }

  lemma NoEventItemAmongTasks(s: seq<Task>, now: int, e: CalendarEvent)
    ensures multiset(TaskFlowItems(s))[EventFlowItem(e, now)] == 0
  {
    assert EventFlowItem(e, now) !in TaskFlowItems(s);
  }

  /** The flow is sorted by time and has one item per open task and per event not yet ended. */
  lemma FlowSorted(tasks: seq<Task>, events: seq<CalendarEvent>, now: int,
                   reply: NetworkResult<string>, parse: string -> Option<Json>, hourOf: int -> int)
    ensures SortedBy(GetSmartDashboardItems(tasks, events, now, reply, parse, hourOf).flow, TimeKey)
    ensures |GetSmartDashboardItems(tasks, events, now, reply, parse, hourOf).flow| ==
            |OpenTasks(tasks)| + |UpcomingEvents(events, now)|
    ensures forall k :: WithKey(GetSmartDashboardItems(tasks, events, now, reply, parse, hourOf).flow, TimeKey, k) ==
                        WithKey(EventFlowItems(UpcomingEvents(events, now), now), TimeKey, k) +
                        WithKey(TaskFlowItems(OpenTasks(tasks)), TimeKey, k)
  {
    var eventItems := EventFlowItems(UpcomingEvents(events, now), now);
    var taskItems := TaskFlowItems(OpenTasks(tasks));
    var items := eventItems + taskItems;
    SortBySorted(items, TimeKey);
    SortByPermutation(items, TimeKey);
    forall k ensures WithKey(SortBy(items, TimeKey), TimeKey, k) == WithKey(eventItems, TimeKey, k) + WithKey(taskItems, TimeKey, k) {
      SortByStable(items, TimeKey, k);
      WithKeyAppend(eventItems, taskItems, TimeKey, k);
    }
  }

  /**
   * A task appears in the flow as often as it occurs among the tasks when it
   * is open, and not at all when completed; likewise an event that has not
   * ended, and an event that has.
   */
  lemma FlowCounts(tasks: seq<Task>, events: seq<CalendarEvent>, now: int,
                   reply: NetworkResult<string>, parse: string -> Option<Json>, hourOf: int -> int,
                   t: Task, e: CalendarEvent)
    ensures multiset(GetSmartDashboardItems(tasks, events, now, reply, parse, hourOf).flow)[TaskFlowItem(t)] ==
            (if t.isCompleted then 0 else multiset(tasks)[t])
    ensures multiset(GetSmartDashboardItems(tasks, events, now, reply, parse, hourOf).flow)[EventFlowItem(e, now)] ==
            (if e.end >= now then multiset(events)[e] else 0)
  {
    var open := OpenTasks(tasks);
    var upcoming := UpcomingEvents(events, now);
    var items := EventFlowItems(upcoming, now) + TaskFlowItems(open);
    SortByPermutation(items, TimeKey);
    TaskFlowItemsCount(open, t);
    NoTaskItemAmongEvents(upcoming, now, t);
    FilterCount(tasks, IsOpen, t);
    EventFlowItemsCount(upcoming, now, e);
    NoEventItemAmongTasks(open, now, e);
    FilterCount(events, (x: CalendarEvent) => x.end >= now, e);
  }

  /** Every flow item stands for an open task or for an event that has not ended. */
  lemma FlowOrigin(tasks: seq<Task>, events: seq<CalendarEvent>, now: int,
                   reply: NetworkResult<string>, parse: string -> Option<Json>, hourOf: int -> int)
    ensures var flow := GetSmartDashboardItems(tasks, events, now, reply, parse, hourOf).flow;
      forall i :: 0 <= i < |flow| ==>
        (exists j :: 0 <= j < |tasks| && !tasks[j].isCompleted && flow[i] == TaskFlowItem(tasks[j])) ||
        (exists j :: 0 <= j < |events| && events[j].end >= now && flow[i] == EventFlowItem(events[j], now))
  {
    var items := EventFlowItems(UpcomingEvents(events, now), now) + TaskFlowItems(OpenTasks(tasks));
    var flow := SortBy(items, TimeKey);
    assert GetSmartDashboardItems(tasks, events, now, reply, parse, hourOf).flow == flow;
    SortByMembership(items, TimeKey);
    forall i | 0 <= i < |flow|
      ensures (exists j :: 0 <= j < |tasks| && !tasks[j].isCompleted && flow[i] == TaskFlowItem(tasks[j])) ||
              (exists j :: 0 <= j < |events| && events[j].end >= now && flow[i] == EventFlowItem(events[j], now))
    {
      FlowItemOrigin(tasks, events, now, flow[i]);
    }
  }

  /** An item before sorting comes from an open task or from an event that has not ended. */
  lemma FlowItemOrigin(tasks: seq<Task>, events: seq<CalendarEvent>, now: int, x: FlowItem)
    requires x in EventFlowItems(UpcomingEvents(events, now), now) + TaskFlowItems(OpenTasks(tasks))
    ensures (exists j :: 0 <= j < |tasks| && !tasks[j].isCompleted && x == TaskFlowItem(tasks[j])) ||
            (exists j :: 0 <= j < |events| && events[j].end >= now && x == EventFlowItem(events[j], now))
  {
    var open := OpenTasks(tasks);
    var upcoming := UpcomingEvents(events, now);
    var items := EventFlowItems(upcoming, now) + TaskFlowItems(open);
    var m :| 0 <= m < |items| && items[m] == x;
    if m < |upcoming| {
      var j :| 0 <= j < |events| && events[j] == upcoming[m];
      assert x == EventFlowItem(events[j], now);
    } else {
      var j :| 0 <= j < |tasks| && tasks[j] == open[m - |upcoming|];
      assert x == TaskFlowItem(tasks[j]);
    }
  }
}
