/**
 * The task list page: the client-side sort of the fetched tasks, the search
 * filter over the sorted list, the list updates after completing or deleting
 * a task, the sort and page controls, and the colours of the priority and
 * status cells.
 */
module TaskList {
  import opened Js
  import opened Seqs
  import opened Text

  /** A task as the list receives it. `dueDate` stands for the time value of `new Date(dueDate)`. */
  datatype Task = Task(id: string, taskId: int, title: string, description: string, dueDate: int,
                       priority: string, status: string)

  datatype SortConfig = SortConfig(key: string, direction: string)

  const InitialSort: SortConfig := SortConfig("taskId", "asc")

  datatype Pagination = Pagination(page: nat, limit: nat, totalPages: nat, totalTasks: nat)

  const InitialPagination: Pagination := Pagination(1, 10, 1, 0)

  /** The query parameters of `GET /api/tasks`. */
  datatype TaskQuery = TaskQuery(page: nat, limit: nat, sortBy: string, sortOrder: string, search: string)

  /** The body of a successful `GET /api/tasks`. */
  datatype TasksResponse = TasksResponse(tasks: seq<Task>, totalPages: nat, totalTasks: nat)

  // ---------------------------------------------------------------- the comparator

  /** `task[key]` for the text fields; `undefined` for any other key. */
  function Field(t: Task, key: string): Option<string>
  {
    if key == "_id" then Some(t.id)
    else if key == "title" then Some(t.title)
    else if key == "description" then Some(t.description)
    else if key == "priority" then Some(t.priority)
    else if key == "status" then Some(t.status)
    else None
  }

  /** `a < b` on two strings: code point by code point, a proper prefix first. */
  predicate LexLess(a: string, b: string)
    decreases |a|
  {
    if a == [] then b != []
    else if b == [] then false
    else if a[0] != b[0] then a[0] < b[0]
    else LexLess(a[1..], b[1..])
  }

  /** `a < b` where either may be `undefined`, which compares false with everything. */
  predicate Less(a: Option<string>, b: Option<string>)
  {
    a.Some? && b.Some? && LexLess(a.value, b.value)
  }

  lemma {:induction false} LexLessAsymmetric(a: string, b: string)
    ensures !(LexLess(a, b) && LexLess(b, a))
    decreases |a|
  {
    if a != [] && b != [] && a[0] == b[0] {
      LexLessAsymmetric(a[1..], b[1..]);
    }
  }

  lemma {:induction false} LexLessTotal(a: string, b: string)
    ensures a == b || LexLess(a, b) || LexLess(b, a)
    decreases |a|
  {
    if a != [] && b != [] && a[0] == b[0] {
      LexLessTotal(a[1..], b[1..]);
      if a[1..] == b[1..] {
        assert a == [a[0]] + a[1..] && b == [b[0]] + b[1..];
      }
    }
  }

  lemma {:induction false} LexLessTransitive(a: string, b: string, c: string)
    requires LexLess(a, b) && LexLess(b, c)
    ensures LexLess(a, c)
    decreases |a|
  {
    if a != [] && a[0] == b[0] && b[0] == c[0] {
      LexLessTransitive(a[1..], b[1..], c[1..]);
    }
  }

  /** The comparator of `[...tasks].sort(...)` for the current sort configuration. */
  function Compare(c: SortConfig, a: Task, b: Task): int
  {
    var asc := c.direction == "asc";
    if c.key == "taskId" then (if asc then a.taskId - b.taskId else b.taskId - a.taskId)
    else if c.key == "dueDate" then (if asc then a.dueDate - b.dueDate else b.dueDate - a.dueDate)
    else if Less(Field(a, c.key), Field(b, c.key)) then (if asc then -1 else 1)
    else if Less(Field(b, c.key), Field(a, c.key)) then (if asc then 1 else -1)
    else 0
  }

  /** `a` may come before `b`. */
  predicate Before(c: SortConfig, a: Task, b: Task)
  {
    Compare(c, a, b) <= 0
  }

  /** Swapping the arguments negates the comparison. */
  lemma CompareAntisymmetric(c: SortConfig, a: Task, b: Task)
    ensures Compare(c, b, a) == -Compare(c, a, b)
  {
    if Field(a, c.key).Some? && Field(b, c.key).Some? {
      LexLessAsymmetric(Field(a, c.key).value, Field(b, c.key).value);
    }
  }

  /** Sorting descending orders the tasks exactly as sorting ascending with the arguments swapped. */
  lemma DescendingReversesAscending(key: string, a: Task, b: Task)
    ensures Compare(SortConfig(key, "desc"), a, b) == Compare(SortConfig(key, "asc"), b, a)
  {
    if Field(a, key).Some? && Field(b, key).Some? {
      LexLessAsymmetric(Field(a, key).value, Field(b, key).value);
    }
  }

  /** Ties in text order are equal text. */
  lemma NotLessEither(x: Option<string>, y: Option<string>)
    requires x.Some? && y.Some? && !Less(x, y) && !Less(y, x)
    ensures x == y
  {
    LexLessTotal(x.value, y.value);
  }

  lemma BeforeTransitive(c: SortConfig, a: Task, b: Task, d: Task)
    requires Before(c, a, b) && Before(c, b, d)
    ensures Before(c, a, d)
  {
    if c.key != "taskId" && c.key != "dueDate" && Field(a, c.key).Some? {
      var x, y, z := Field(a, c.key).value, Field(b, c.key).value, Field(d, c.key).value;
      LexLessTotal(x, y);
      LexLessTotal(y, z);
      LexLessAsymmetric(x, z);
      if LexLess(x, y) && LexLess(y, z) {
        LexLessTransitive(x, y, z);
      }
      if LexLess(y, x) && LexLess(z, y) {
        LexLessTransitive(z, y, x);
      }
    }
  }

  // ---------------------------------------------------------------- the sort

  /** `Array.prototype.sort`, as a stable insertion sort: `x` goes before the first element it
      compares strictly below. */
  function Insert(c: SortConfig, x: Task, s: seq<Task>): seq<Task>
  {
    if s == [] then [x]
    else if Compare(c, x, s[0]) < 0 then [x] + s
    else [s[0]] + Insert(c, x, s[1..])
  }

  function SortTasks(c: SortConfig, s: seq<Task>): seq<Task>
  {
    if s == [] then [] else Insert(c, s[|s| - 1], SortTasks(c, s[..|s| - 1]))
  }

  predicate Sorted(c: SortConfig, s: seq<Task>)
  {
    forall i, j :: 0 <= i < j < |s| ==> Before(c, s[i], s[j])
  }

  lemma {:induction false} InsertPermutes(c: SortConfig, x: Task, s: seq<Task>)
    ensures multiset(Insert(c, x, s)) == multiset(s) + multiset{x}
  {
    if s != [] && Compare(c, x, s[0]) >= 0 {
      InsertPermutes(c, x, s[1..]);
      assert s == [s[0]] + s[1..];
    }
  }

  lemma {:induction false} InsertSorted(c: SortConfig, x: Task, s: seq<Task>)
    requires Sorted(c, s)
    ensures Sorted(c, Insert(c, x, s))
  {
    if s == [] {
    } else if Compare(c, x, s[0]) < 0 {
      var r := [x] + s;
      forall j | 1 <= j < |r|
        ensures Before(c, x, r[j])
      {
        if j > 1 {
          BeforeTransitive(c, x, s[0], s[j - 1]);
        }
      }
    } else {
      CompareAntisymmetric(c, x, s[0]);
      assert Sorted(c, s[1..]);
      InsertSorted(c, x, s[1..]);
      InsertPermutes(c, x, s[1..]);
      var rest := Insert(c, x, s[1..]);
      forall j | 0 <= j < |rest|
        ensures Before(c, s[0], rest[j])
      {
        assert rest[j] in multiset(rest);
        if rest[j] != x {
          assert rest[j] in multiset(s[1..]);
          var k :| 0 <= k < |s[1..]| && s[1..][k] == rest[j];
          assert s[k + 1] == rest[j];
        }
      }
    }
  }

  /** `[...tasks].sort(compare)` is a sorted permutation of `tasks`. */
  lemma {:induction false} SortTasksFacts(c: SortConfig, s: seq<Task>)
    ensures multiset(SortTasks(c, s)) == multiset(s)
    ensures Sorted(c, SortTasks(c, s))
    ensures |SortTasks(c, s)| == |s|
  {
    if s != [] {
      var init := s[..|s| - 1];
      SortTasksFacts(c, init);
      InsertPermutes(c, s[|s| - 1], SortTasks(c, init));
      InsertSorted(c, s[|s| - 1], SortTasks(c, init));
      assert s == init + [s[|s| - 1]];
    }
  }

  /** `handleSort(key)`: descending exactly when the same key is clicked while ascending. */
  function NextSort(c: SortConfig, key: string): (r: SortConfig)
    ensures r.key == key
    ensures r.direction == "desc" <==> c.key == key && c.direction == "asc"
    ensures r.direction != "desc" ==> r.direction == "asc"
  {
    SortConfig(key, if c.key == key && c.direction == "asc" then "desc" else "asc")
  }

  /** Clicking the same column twice from ascending comes back to ascending. */
  lemma SortToggleRoundTrip(key: string)
    ensures NextSort(NextSort(SortConfig(key, "asc"), key), key) == SortConfig(key, "asc")
  {
  }

  // ---------------------------------------------------------------- the search filter

  /** The filter as written: the lower-cased title or description contains the query as typed. */
  predicate MatchesAsWritten(query: string, t: Task)
  {
    Contains(ToLower(t.title), query) || Contains(ToLower(t.description), query)
  }

  /** A string with no upper-case letter contains only strings with no upper-case letter. */
  lemma ContainedHasNoUpper(s: string, sub: string, i: nat)
    requires forall k :: 0 <= k < |s| ==> !IsAsciiUpper(s[k])
    requires Contains(s, sub) && i < |sub|
    ensures !IsAsciiUpper(sub[i])
  {
    ContainsAt(s, sub);
    var k :| 0 <= k <= |s| - |sub| && IsPrefix(sub, s[k..]);
    assert sub[i] == s[k..][i] == s[k + i];
  }

  /** As written, a query with an upper-case letter matches no task at all. */
  lemma UpperCaseQueryMatchesNothing(query: string, i: nat, t: Task)
    requires i < |query| && IsAsciiUpper(query[i])
    ensures !MatchesAsWritten(query, t)
  {
    if Contains(ToLower(t.title), query) {
      ContainedHasNoUpper(ToLower(t.title), query, i);
    }
    if Contains(ToLower(t.description), query) {
      ContainedHasNoUpper(ToLower(t.description), query, i);
    }
  }

  /** Searching for "A" does not find the task titled "A". */
  lemma SearchMissesExactTitle(t: Task)
    requires t.title == "A"
    ensures !MatchesAsWritten("A", t) && Matches("A", t)
  {
    UpperCaseQueryMatchesNothing("A", 0, t);
    assert ToLower("A") == "a";
    assert IsPrefix("a", ToLower(t.title));
  }

  /** The filter as intended: the query is lower-cased as well, so the search ignores case. */
  predicate Matches(query: string, t: Task)
  {
    var q := ToLower(query);
    Contains(ToLower(t.title), q) || Contains(ToLower(t.description), q)
  }

  /** The search ignores the case of the query. */
  lemma MatchesIgnoresCase(query: string, t: Task)
    ensures Matches(query, t) == Matches(ToLower(query), t)
  {
    ToLowerIdempotent(query);
  }

  /** A task whose title or description contains the query verbatim is always found. */
  lemma VerbatimIsFound(query: string, t: Task)
    requires Contains(t.title, query) || Contains(t.description, query)
    ensures Matches(query, t)
  {
    if Contains(t.title, query) {
      ContainsToLower(t.title, query);
    } else {
      ContainsToLower(t.description, query);
    }
  }

  /** For a query without upper-case letters the correction changes nothing. */
  lemma LowerQueryAgreesWithAsWritten(query: string, t: Task)
    requires forall i :: 0 <= i < |query| ==> !IsAsciiUpper(query[i])
    ensures Matches(query, t) == MatchesAsWritten(query, t)
  {
    ToLowerOfLower(query);
  }

  /** An empty search shows every task. */
  lemma EmptyQueryMatchesAll(t: Task)
    ensures Matches("", t)
  {
    assert IsPrefix("", ToLower(t.title));
  }

  function MatchesQuery(query: string): Task -> bool
  {
    t => Matches(query, t)
  }

  function MatchesQueryAsWritten(query: string): Task -> bool
  {
    t => MatchesAsWritten(query, t)
  }

  /** `filteredTasks` as intended: the sorted tasks that match the query, ignoring its case. */
  function FilteredTasks(c: SortConfig, query: string, tasks: seq<Task>): seq<Task>
  {
    Filter(SortTasks(c, tasks), MatchesQuery(query))
  }

  /** `filteredTasks` as written: the sorted tasks whose lower-cased title or description contains
      the query as typed. */
  function FilteredTasksAsWritten(c: SortConfig, query: string, tasks: seq<Task>): seq<Task>
  {
    Filter(SortTasks(c, tasks), MatchesQueryAsWritten(query))
  }

  /** Filtering the sorted tasks by any test shows only tasks that pass, every task that passes,
      and keeps them in sorted order. */
  lemma SortedFilterFacts(c: SortConfig, tasks: seq<Task>, p: Task -> bool)
    ensures forall i :: 0 <= i < |Filter(SortTasks(c, tasks), p)| ==>
      Filter(SortTasks(c, tasks), p)[i] in tasks && p(Filter(SortTasks(c, tasks), p)[i])
    ensures forall t :: t in tasks && p(t) ==> t in Filter(SortTasks(c, tasks), p)
    ensures Sorted(c, Filter(SortTasks(c, tasks), p))
  {
    var sorted := SortTasks(c, tasks);
    SortTasksFacts(c, tasks);
    FilterMembers(sorted, p);
    forall t | t in tasks && p(t)
      ensures t in Filter(sorted, p)
    {
      assert t in multiset(sorted);
      var k :| 0 <= k < |sorted| && sorted[k] == t;
    }
    forall i | 0 <= i < |Filter(sorted, p)|
      ensures Filter(sorted, p)[i] in tasks
    {
      assert Filter(sorted, p)[i] in multiset(sorted);
    }
    FilterKeepsSorted(c, sorted, p);
  }

  /** The rows shown by the corrected search are exactly the matching tasks, in sorted order. */
  lemma FilteredTasksFacts(c: SortConfig, query: string, tasks: seq<Task>)
    ensures forall i :: 0 <= i < |FilteredTasks(c, query, tasks)| ==>
      FilteredTasks(c, query, tasks)[i] in tasks && Matches(query, FilteredTasks(c, query, tasks)[i])
    ensures forall t :: t in tasks && Matches(query, t) ==> t in FilteredTasks(c, query, tasks)
    ensures Sorted(c, FilteredTasks(c, query, tasks))
  {
    SortedFilterFacts(c, tasks, MatchesQuery(query));
  }

  /** The rows shown as written are exactly the tasks whose lower-cased title or description
      contains the query as typed, in sorted order. */
  lemma FilteredTasksAsWrittenFacts(c: SortConfig, query: string, tasks: seq<Task>)
    ensures forall i :: 0 <= i < |FilteredTasksAsWritten(c, query, tasks)| ==>
      FilteredTasksAsWritten(c, query, tasks)[i] in tasks && MatchesAsWritten(query, FilteredTasksAsWritten(c, query, tasks)[i])
    ensures forall t :: t in tasks && MatchesAsWritten(query, t) ==> t in FilteredTasksAsWritten(c, query, tasks)
    ensures Sorted(c, FilteredTasksAsWritten(c, query, tasks))
  {
    SortedFilterFacts(c, tasks, MatchesQueryAsWritten(query));
  }

  /** For a query without upper-case letters the corrected search shows exactly the rows the
      search as written shows. */
  lemma FilteredTasksAgree(c: SortConfig, query: string, tasks: seq<Task>)
    requires forall i :: 0 <= i < |query| ==> !IsAsciiUpper(query[i])
    ensures FilteredTasks(c, query, tasks) == FilteredTasksAsWritten(c, query, tasks)
  {
    var sorted := SortTasks(c, tasks);
    forall i | 0 <= i < |sorted|
      ensures MatchesQuery(query)(sorted[i]) == MatchesQueryAsWritten(query)(sorted[i])
    {
      LowerQueryAgreesWithAsWritten(query, sorted[i]);
    }
    FilterCongruent(sorted, MatchesQuery(query), MatchesQueryAsWritten(query));
  }

  lemma {:induction false} FilterKeepsSorted(c: SortConfig, s: seq<Task>, p: Task -> bool)
    requires Sorted(c, s)
    ensures Sorted(c, Filter(s, p))
  {
    if s != [] {
      assert Sorted(c, s[1..]);
      FilterKeepsSorted(c, s[1..], p);
      FilterMembers(s[1..], p);
      var rest := Filter(s[1..], p);
      forall j | 0 <= j < |rest|
        ensures Before(c, s[0], rest[j])
      {
        var k :| 0 <= k < |s[1..]| && s[1..][k] == rest[j];
        assert s[k + 1] == rest[j];
      }
    }
  }

  // ---------------------------------------------------------------- list updates

  /** `prevTasks.map(task => task._id === id ? { ...task, status: "Completed" } : task)`. */
  function MarkCompleted(tasks: seq<Task>, id: string): (r: seq<Task>)
    ensures |r| == |tasks|
    ensures forall i :: 0 <= i < |tasks| ==>
      r[i] == if tasks[i].id == id then tasks[i].(status := "Completed") else tasks[i]
  {
    Map(tasks, (t: Task) => if t.id == id then t.(status := "Completed") else t)
  }

  /** `prevTasks.filter(task => task._id !== id)`. */
  function RemoveTask(tasks: seq<Task>, id: string): seq<Task>
  {
    Filter(tasks, (t: Task) => t.id != id)
  }

  /** Deleting removes every task with that id and keeps every other task, in order: the tasks
      kept from any prefix come before those kept from the rest. */
  lemma RemoveTaskFacts(tasks: seq<Task>, id: string)
    ensures forall i :: 0 <= i < |RemoveTask(tasks, id)| ==> RemoveTask(tasks, id)[i].id != id && RemoveTask(tasks, id)[i] in tasks
    ensures forall i :: 0 <= i < |tasks| && tasks[i].id != id ==> tasks[i] in RemoveTask(tasks, id)
    ensures |RemoveTask(tasks, id)| <= |tasks|
    ensures (forall i :: 0 <= i < |tasks| ==> tasks[i].id != id) ==> RemoveTask(tasks, id) == tasks
    ensures forall k :: 0 <= k <= |tasks| ==> RemoveTask(tasks, id) == RemoveTask(tasks[..k], id) + RemoveTask(tasks[k..], id)
  {
    FilterMembers(tasks, (t: Task) => t.id != id);
    FilterIdentity(tasks, (t: Task) => t.id != id);
    forall k | 0 <= k <= |tasks|
      ensures RemoveTask(tasks, id) == RemoveTask(tasks[..k], id) + RemoveTask(tasks[k..], id)
    {
      assert tasks == tasks[..k] + tasks[k..];
      FilterConcat(tasks[..k], tasks[k..], (t: Task) => t.id != id);
    }
  }

  // ---------------------------------------------------------------- colours

  function PriorityColor(priority: string): string
  {
    var p := ToLower(priority);
    if p == "high" then "error.main"
    else if p == "medium" then "warning.main"
    else if p == "low" then "success.main"
    else "text.primary"
  }

  function StatusColor(status: string): string
  {
    var s := ToLower(status);
    if s == "pending" then "text.secondary"
    else if s == "in progress" then "info.main"
    else if s == "completed" then "success.main"
    else "text.primary"
  }

  /** Both colour maps ignore case. */
  lemma ColorsIgnoreCase(a: string, b: string)
    requires ToLower(a) == ToLower(b)
    ensures PriorityColor(a) == PriorityColor(b) && StatusColor(a) == StatusColor(b)
  {
  }

  /** The four priority colours, whatever the case of the text. */
  lemma PriorityColorExamples()
    ensures PriorityColor("HIGH") == "error.main" && PriorityColor("Medium") == "warning.main"
    ensures PriorityColor("low") == "success.main" && PriorityColor("urgent") == "text.primary"
  {
    assert ToLower("HIGH") == "high" && ToLower("Medium") == "medium";
    assert ToLower("low") == "low" && ToLower("urgent") == "urgent";
  }

  /** The four status colours, whatever the case of the text. */
  lemma StatusColorExamples()
    ensures StatusColor("PENDING") == "text.secondary" && StatusColor("In Progress") == "info.main"
    ensures StatusColor("Completed") == "success.main" && StatusColor("on-going") == "text.primary"
  {
    assert ToLower("PENDING") == "pending" && ToLower("In Progress") == "in progress";
    assert ToLower("Completed") == "completed" && ToLower("on-going") == "on-going";
  }

  /** The complete button of a row is shown unless the status reads "completed" in any case. */
  predicate ShowsCompleteButton(t: Task)
  {
    ToLower(t.status) != "completed"
  }

  /** A task marked completed loses its complete button and shows the completed colour. */
  lemma MarkedTaskHasNoButton(tasks: seq<Task>, id: string, i: nat)
    requires i < |tasks| && tasks[i].id == id
    ensures !ShowsCompleteButton(MarkCompleted(tasks, id)[i])
    ensures StatusColor(MarkCompleted(tasks, id)[i].status) == "success.main"
  {
    assert ToLower("Completed") == "completed";
  }

  // ---------------------------------------------------------------- the page

  class TaskListPage {
    var tasks: seq<Task>
    var searchQuery: string
    var sortConfig: SortConfig
    var pagination: Pagination
    var loading: bool

    constructor ()
      ensures tasks == [] && searchQuery == "" && sortConfig == InitialSort
      ensures pagination == InitialPagination && loading
      ensures Query() == TaskQuery(1, 10, "taskId", "asc", "")
    {
      tasks := [];
      searchQuery := "";
      sortConfig := InitialSort;
      pagination := InitialPagination;
      loading := true;
    }

    /** The parameters the fetch effect sends for the current state. */
    function Query(): TaskQuery
      reads this
    {
      TaskQuery(pagination.page, pagination.limit, sortConfig.key, sortConfig.direction, searchQuery)
    }

    /** The fetch effect starting. */
    method FetchStarted()
      modifies this
      ensures loading
      ensures tasks == old(tasks) && searchQuery == old(searchQuery) && sortConfig == old(sortConfig) && pagination == old(pagination)
    {
      loading := true;
    }

    /** The fetch effect settling: `response` is `None` when the request failed, which keeps the
        old tasks and totals. */
    method FetchSettled(response: Option<TasksResponse>)
      modifies this
      ensures !loading
      ensures response.Some? ==> tasks == response.value.tasks
      ensures response.Some? ==> pagination == old(pagination).(totalPages := response.value.totalPages, totalTasks := response.value.totalTasks)
      ensures response.None? ==> tasks == old(tasks) && pagination == old(pagination)
      ensures searchQuery == old(searchQuery) && sortConfig == old(sortConfig)
      ensures Query() == old(Query())
    {
      if response.Some? {
        tasks := response.value.tasks;
        pagination := pagination.(totalPages := response.value.totalPages, totalTasks := response.value.totalTasks);
      }
      loading := false;
    }

    /** `sortedTasks`: a sorted copy; `tasks` itself is never reordered. */
    function SortedTasks(): seq<Task>
      reads this
    {
      SortTasks(sortConfig, tasks)
    }

    /** The rows the table shows. */
    function Shown(): seq<Task>
      reads this
    {
      FilteredTasks(sortConfig, searchQuery, tasks)
    }

    method HandlePageChange(value: nat)
      modifies this
      ensures pagination == old(pagination).(page := value)
      ensures Query() == old(Query()).(page := value)
      ensures tasks == old(tasks) && searchQuery == old(searchQuery) && sortConfig == old(sortConfig) && loading == old(loading)
    {
      pagination := pagination.(page := value);
    }

    method HandleSearch(value: string)
      modifies this
      ensures searchQuery == value && pagination == old(pagination).(page := 1)
      ensures Query() == old(Query()).(search := value, page := 1)
      ensures tasks == old(tasks) && sortConfig == old(sortConfig) && loading == old(loading)
    {
      searchQuery := value;
      pagination := pagination.(page := 1);
    }

    method HandleSort(key: string)
      modifies this
      ensures sortConfig == NextSort(old(sortConfig), key) && pagination == old(pagination).(page := 1)
      ensures Query().sortBy == key && Query().page == 1
      ensures Query().search == old(Query()).search && Query().limit == old(Query()).limit
      ensures Query().sortOrder == "desc" <==> old(Query()).sortBy == key && old(Query()).sortOrder == "asc"
      ensures tasks == old(tasks) && searchQuery == old(searchQuery) && loading == old(loading)
    {
      var direction := if sortConfig.key == key && sortConfig.direction == "asc" then "desc" else "asc";
      sortConfig := SortConfig(key, direction);
      pagination := pagination.(page := 1);
    }

    /** `markAsCompleted(id)`; `patched` says whether the PATCH request succeeded. */
    method MarkAsCompleted(id: string, patched: bool)
      modifies this
      ensures tasks == if patched then MarkCompleted(old(tasks), id) else old(tasks)
      ensures searchQuery == old(searchQuery) && sortConfig == old(sortConfig) && pagination == old(pagination) && loading == old(loading)
    {
      if patched {
        tasks := MarkCompleted(tasks, id);
      }
    }

    /** `deleteTask(id)`; `deleted` says whether the DELETE request succeeded. */
    method DeleteTask(id: string, deleted: bool)
      modifies this
      ensures tasks == if deleted then RemoveTask(old(tasks), id) else old(tasks)
      ensures searchQuery == old(searchQuery) && sortConfig == old(sortConfig) && pagination == old(pagination) && loading == old(loading)
    {
      if deleted {
        tasks := RemoveTask(tasks, id);
      }
    }
  }
}
