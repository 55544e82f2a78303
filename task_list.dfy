/** The task list page: its token check, paginated loading (reset or append),
    filter and search changes, replace-by-id after an edit and remove-by-id
    after a delete. Every backend call is a gateway outcome given as an oracle. */
module TaskList {
  import opened Browser
  import opened Text
  import Api
  import TaskFilters

  datatype Task = Task(id: int, owner: string, title: string)

  /** The body of a task-list response: an array of tasks, or anything else. */
  datatype TaskData = TaskArray(tasks: seq<Task>) | NotArray

  /** The query parameters of `GET /tasks/tasks/`. */
  datatype Query = Query(page: int, search: string, filter: TaskFilters.Filter)

  const LoginRoute: string := "/login"
  const InitialFilter: TaskFilters.Filter := map["category" := "", "priority" := "", "state" := ""]

  /** The parameters `fetchTasks(reset)` sends: page 1 on a reset, the current
      page otherwise; the search trimmed; the filter keys merged in. */
  function QueryFor(reset: bool, page: int, search: string, filter: TaskFilters.Filter): (q: Query)
    ensures reset ==> q.page == 1
    ensures !reset ==> q.page == page
    ensures q.filter == filter && |q.search| <= |search|
    ensures q.search == [] || (!IsJsSpace(q.search[0]) && !IsJsSpace(q.search[|q.search| - 1]))
  {
    TrimmedEnds(search);
    Query(if reset then 1 else page, Trim(search), filter)
  }

  /** The search box keeps the raw input; only the query trims it, and a raw
      value with surrounding spaces reaches the query without them. */
  lemma SearchTrimmedOnlyInQuery(c: TaskFilters.Controls, input: string, page: int)
    ensures var q := QueryFor(true, page, TaskFilters.OnSearchInput(c, input).search, c.filter);
      q.search == Trim(input) && q.page == 1 && q.filter == c.filter
    ensures TaskFilters.OnSearchInput(c, " work ").search == " work "
    ensures QueryFor(false, page, " work ", c.filter).search == "work"
  {
    assert IsJsSpace(' ');
    assert !IsJsSpace('w') && !IsJsSpace('k');
    assert TrimStart(" work ") == "work ";
    assert TrimEnd("work ") == "work";
  }

  // ---------------------------------------------------------------------------
  // Pagination

  /** The pagination part of the page state. */
  datatype Pages = Pages(tasks: seq<Task>, page: int, hasMore: bool)

  /** The state after a 200 response carrying an array. */
  function Loaded(p: Pages, reset: bool, data: seq<Task>): (r: Pages)
    ensures reset ==> r.tasks == data
    ensures !reset ==> |r.tasks| == |p.tasks| + |data| && r.tasks[..|p.tasks|] == p.tasks
    ensures r.tasks[|r.tasks| - |data|..] == data
    ensures r.page == (if reset then 1 else p.page) + 1
    ensures r.hasMore <==> data != []
  {
    if reset then Pages(data, 2, |data| > 0)
    else Pages(p.tasks + data, p.page + 1, |data| > 0)
  }

  /** The state after `fetchTasks(reset)` got `outcome`: only a 200 whose body
      is an array changes it. */
  function AfterFetch(p: Pages, reset: bool, outcome: Api.Outcome<TaskData>): (r: Pages)
    ensures !(outcome.Fulfilled? && outcome.response.status == 200 && outcome.response.data.TaskArray?) ==> r == p
  {
    if outcome.Fulfilled? && outcome.response.status == 200 && outcome.response.data.TaskArray? then
      Loaded(p, reset, outcome.response.data.tasks)
    else p
  }

  /** The rejection the page answers with `sessionExpired` and a redirect. */
  predicate IsUnauthorized<D>(outcome: Api.Outcome<D>)
    ensures IsUnauthorized(outcome) <==>
      && outcome.Rejected? && !outcome.error.NoRefreshToken?
      && outcome.error.reply.Answered? && outcome.error.reply.response.status == 401
  {
    outcome.Rejected? && Api.ErrorResponse(outcome.error).Some?
    && Api.ErrorResponse(outcome.error).value.status == 401
  }

  function Flatten(pages: seq<seq<Task>>): seq<Task>
  {
    if pages == [] then [] else Flatten(pages[..|pages| - 1]) + pages[|pages| - 1]
  }

  /** A reset load of `pages[0]` followed by one appending load per later page. */
  function LoadAll(p: Pages, pages: seq<seq<Task>>): Pages
    requires pages != []
  {
    if |pages| == 1 then Loaded(p, true, pages[0])
    else Loaded(LoadAll(p, pages[..|pages| - 1]), false, pages[|pages| - 1])
  }

  /** Infinite scroll: after a reset and any number of appending loads, the
      list is the pages' tasks in order, `page` is one past the number of pages
      loaded (the next page to ask for), and `hasMore` says whether the last
      page was non-empty. Nothing loaded before the reset survives. */
  lemma {:induction false} InfiniteScroll(p: Pages, pages: seq<seq<Task>>)
    requires pages != []
    ensures var r := LoadAll(p, pages);
      r.tasks == Flatten(pages) && r.page == |pages| + 1 && r.hasMore == (|pages[|pages| - 1]| > 0)
  {
    if |pages| == 1 {
      assert Flatten(pages) == Flatten(pages[..0]) + pages[0];
      assert pages[..0] == [];
    } else {
      InfiniteScroll(p, pages[..|pages| - 1]);
    }
  }

  // ---------------------------------------------------------------------------
  // Replace-by-id and remove-by-id

  /** `tasks.map(task => task.id === id ? updated : task)`. */
  function ReplaceById(tasks: seq<Task>, id: int, updated: Task): (r: seq<Task>)
    ensures |r| == |tasks|
    ensures forall i :: 0 <= i < |tasks| ==> r[i] == if tasks[i].id == id then updated else tasks[i]
  {
    if tasks == [] then []
    else ReplaceById(tasks[..|tasks| - 1], id, updated)
         + [if tasks[|tasks| - 1].id == id then updated else tasks[|tasks| - 1]]
  }

  /** `tasks.filter(task => task.id !== id)`. */
  function RemoveById(tasks: seq<Task>, id: int): (r: seq<Task>)
    ensures |r| <= |tasks|
  {
    if tasks == [] then []
    else RemoveById(tasks[..|tasks| - 1], id)
         + (if tasks[|tasks| - 1].id == id then [] else [tasks[|tasks| - 1]])
  }

  /** Removal drops exactly the tasks with that id: a task survives iff it
      was in the list and has another id. */
  lemma {:induction false} RemoveByIdMembers(tasks: seq<Task>, id: int, t: Task)
    ensures t in RemoveById(tasks, id) <==> t in tasks && t.id != id
  {
    if tasks != [] {
      var init, last := tasks[..|tasks| - 1], tasks[|tasks| - 1];
      RemoveByIdMembers(init, id, t);
      assert tasks == init + [last];
    }
  }

  /** Removal keeps the rest in order: it distributes over concatenation. */
  lemma {:induction false} RemoveByIdKeepsOrder(a: seq<Task>, b: seq<Task>, id: int)
    ensures RemoveById(a + b, id) == RemoveById(a, id) + RemoveById(b, id)
  {
    if b == [] {
      assert a + b == a;
    } else {
      var last := b[|b| - 1];
      assert (a + b)[..|a + b| - 1] == a + b[..|b| - 1];
      RemoveByIdKeepsOrder(a, b[..|b| - 1], id);
    }
  }

  /** A list without that id is left as it is, so deleting twice is deleting once. */
  lemma {:induction false} RemoveByIdAbsent(tasks: seq<Task>, id: int)
    requires forall i :: 0 <= i < |tasks| ==> tasks[i].id != id
    ensures RemoveById(tasks, id) == tasks
  {
    if tasks != [] {
      var init, last := tasks[..|tasks| - 1], tasks[|tasks| - 1];
      assert forall i :: 0 <= i < |init| ==> init[i] == tasks[i];
      RemoveByIdAbsent(init, id);
      assert RemoveById(tasks, id) == init + [last];
      assert init + [last] == tasks;
    }
  }

  /** Replacing introduces no task of another id: every task in the result
      whose id differs was already in the list. */
  lemma ReplaceByIdKeepsOthers(tasks: seq<Task>, id: int, updated: Task)
    requires updated.id == id
    ensures forall t :: t in ReplaceById(tasks, id, updated) && t.id != id ==> t in tasks
  {
    var r := ReplaceById(tasks, id, updated);
    forall t | t in r && t.id != id
      ensures t in tasks
    {
      var i :| 0 <= i < |r| && r[i] == t;
      assert tasks[i] == t;
    }
  }

  /** Deleting an id after replacing it is deleting it from the original list. */
  lemma {:induction false} RemoveAfterReplace(tasks: seq<Task>, id: int, updated: Task)
    requires updated.id == id
    ensures RemoveById(ReplaceById(tasks, id, updated), id) == RemoveById(tasks, id)
  {
    if tasks != [] {
      var init := tasks[..|tasks| - 1];
      var last := tasks[|tasks| - 1];
      var r := ReplaceById(tasks, id, updated);
      var x := if last.id == id then updated else last;
      assert r == ReplaceById(init, id, updated) + [x];
      assert r[..|r| - 1] == ReplaceById(init, id, updated);
      RemoveAfterReplace(init, id, updated);
    }
  }

  // ---------------------------------------------------------------------------
  // The page component

  class TaskListView {
    var tasks: seq<Task>
    var page: int
    var hasMore: bool
    var filter: TaskFilters.Filter
    var search: string
    var isLoading: bool
    var editTask: Option<Task>
    var showEditModal: bool

    constructor ()
      ensures tasks == [] && page == 1 && hasMore && filter == InitialFilter && search == ""
      ensures !isLoading && editTask == None && !showEditModal
    {
      tasks, page, hasMore := [], 1, true;
      filter, search := InitialFilter, "";
      isLoading, editTask, showEditModal := false, None, false;
    }

    function Pagination(): Pages
      reads this
    {
      Pages(tasks, page, hasMore)
    }

    /** `checkToken`: with no (or an empty) access token, dispatch
        `sessionExpired`, navigate to the login page and report false. */
    method CheckToken(store: Storage, win: Window) returns (valid: bool, nav: Option<string>)
      modifies win
      ensures valid == Truthy(Lookup(store.items, AccessToken))
      ensures win.dispatched == old(win.dispatched) + (if valid then [] else [SessionExpired])
      ensures win.listeners == old(win.listeners)
      ensures nav == if valid then None else Some(LoginRoute)
    {
      var token := store.GetItem(AccessToken);
      if !(token.Some? && token.value != "") {
        win.DispatchEvent(SessionExpired);
        return false, Some(LoginRoute);
      }
      return true, None;
    }

    /** `fetchTasks(reset)`; `answer` is what the gateway settles the request
        with. With no token no request is sent; otherwise the
        query is sent, a 200 array response resets or extends the list, a 401
        rejection dispatches `sessionExpired` and redirects, and any other
        answer leaves the list as it is. Loading is off on every path. */
    method FetchTasks(store: Storage, win: Window, reset: bool, answer: Api.Outcome<TaskData>)
      returns (sent: Option<Query>, nav: Option<string>)
      modifies this, win
      ensures !isLoading
      ensures filter == old(filter) && search == old(search)
      ensures editTask == old(editTask) && showEditModal == old(showEditModal)
      ensures win.listeners == old(win.listeners)
      ensures sent == if Truthy(Lookup(store.items, AccessToken))
                      then Some(QueryFor(reset, old(page), old(search), old(filter))) else None
      ensures sent.None? ==>
        Pagination() == old(Pagination()) && nav == Some(LoginRoute)
        && win.dispatched == old(win.dispatched) + [SessionExpired]
      ensures sent.Some? ==>
        && Pagination() == AfterFetch(old(Pagination()), reset, answer)
        && win.dispatched == old(win.dispatched) + (if IsUnauthorized(answer) then [SessionExpired] else [])
        && nav == (if IsUnauthorized(answer) then Some(LoginRoute) else None)
    {
      isLoading := true;
      var query := QueryFor(reset, page, search, filter);
      var valid;
      valid, nav := CheckToken(store, win);
      if !valid {
        isLoading := false;
        return None, nav;
      }
      sent := Some(query);
      // A 200 array response resets or extends the list (see `Loaded`).
      var next := AfterFetch(Pagination(), reset, answer);
      tasks, page, hasMore := next.tasks, next.page, next.hasMore;
      if IsUnauthorized(answer) {
        win.DispatchEvent(SessionExpired);
        nav := Some(LoginRoute);
      }
      isLoading := false;
    }

    /** `handleFilterChange`: the list's own copy of the filter updater. It
        reports whether a new filter object was set, which is what makes the
        page reload from page 1. */
    method HandleFilterChange(name: string, value: string) returns (reload: bool)
      modifies this
      ensures filter == TaskFilters.Apply(old(filter), TaskFilters.FilterUpdate(old(filter), name, value))
      ensures reload <==> !(name in old(filter) && old(filter)[name] == value)
      ensures Pagination() == old(Pagination()) && search == old(search) && isLoading == old(isLoading)
      ensures editTask == old(editTask) && showEditModal == old(showEditModal)
    {
      var u := TaskFilters.FilterUpdate(filter, name, value);
      filter := TaskFilters.Apply(filter, u);
      reload := u.Replace?;
    }

    /** `handleUpdate`: after the token check, put the task being edited; on
        success replace every task with its id by the response and close the
        editor; a 401 dispatches `sessionExpired` and redirects. With no task
        being edited the request is never built (the handler's own error). */
    method HandleUpdate(store: Storage, win: Window, put: Task -> Api.Outcome<Task>)
      returns (sent: Option<Task>, nav: Option<string>)
      modifies this, win
      ensures win.listeners == old(win.listeners)
      ensures page == old(page) && hasMore == old(hasMore) && filter == old(filter)
      ensures search == old(search) && isLoading == old(isLoading)
      ensures var valid := Truthy(Lookup(store.items, AccessToken));
        sent == (if valid then old(editTask) else None)
        && (!valid ==> tasks == old(tasks) && editTask == old(editTask) && showEditModal == old(showEditModal)
                       && nav == Some(LoginRoute) && win.dispatched == old(win.dispatched) + [SessionExpired])
      ensures sent.Some? && put(sent.value).Fulfilled? ==>
        tasks == ReplaceById(old(tasks), sent.value.id, put(sent.value).response.data)
        && editTask == None && !showEditModal && nav == None && win.dispatched == old(win.dispatched)
      ensures sent.Some? && put(sent.value).Rejected? ==>
        tasks == old(tasks) && editTask == old(editTask) && showEditModal == old(showEditModal)
        && win.dispatched == old(win.dispatched) + (if IsUnauthorized(put(sent.value)) then [SessionExpired] else [])
        && nav == (if IsUnauthorized(put(sent.value)) then Some(LoginRoute) else None)
      ensures Truthy(Lookup(store.items, AccessToken)) && old(editTask).None? ==>
        tasks == old(tasks) && editTask == None && showEditModal == old(showEditModal)
        && nav == None && win.dispatched == old(win.dispatched)
    {
      var valid;
      valid, nav := CheckToken(store, win);
      if !valid {
        return None, nav;
      }
      if editTask.None? {
        return None, None;
      }
      var edited := editTask.value;
      sent := Some(edited);
      var outcome := put(edited);
      match outcome
      case Fulfilled(response) =>
        tasks := ReplaceById(tasks, edited.id, response.data);
        showEditModal := false;
        editTask := None;
      case Rejected(error) =>
        var answer := Api.ErrorResponse(error);
        if answer.Some? && answer.value.status == 401 {
          win.DispatchEvent(SessionExpired);
          nav := Some(LoginRoute);
        }
    }

    /** `handleDelete(id)`: after the token check and the user's confirmation,
        delete; a 204 removes every task with that id, any other success leaves
        the list as it is, and a 401 dispatches `sessionExpired` and redirects. */
    method HandleDelete(store: Storage, win: Window, id: int, confirmed: bool, delete: int -> Api.Outcome<()>)
      returns (requested: bool, nav: Option<string>)
      modifies this, win
      ensures win.listeners == old(win.listeners)
      ensures page == old(page) && hasMore == old(hasMore) && filter == old(filter) && search == old(search)
      ensures isLoading == old(isLoading) && editTask == old(editTask) && showEditModal == old(showEditModal)
      ensures var valid := Truthy(Lookup(store.items, AccessToken));
        requested == (valid && confirmed)
        && (!valid ==> nav == Some(LoginRoute) && win.dispatched == old(win.dispatched) + [SessionExpired])
        && (valid && !confirmed ==> nav == None && win.dispatched == old(win.dispatched))
      ensures !requested ==> tasks == old(tasks)
      ensures requested ==>
        var outcome := delete(id);
        && tasks == (if outcome.Fulfilled? && outcome.response.status == 204 then RemoveById(old(tasks), id)
                     else old(tasks))
        && win.dispatched == old(win.dispatched) + (if IsUnauthorized(outcome) then [SessionExpired] else [])
        && nav == (if IsUnauthorized(outcome) then Some(LoginRoute) else None)
    {
      var valid;
      valid, nav := CheckToken(store, win);
      if !valid {
        return false, nav;
      }
      if !confirmed {
        return false, None;
      }
      requested := true;
      var outcome := delete(id);
      match outcome
      case Fulfilled(response) =>
        if response.status == 204 {
          tasks := RemoveById(tasks, id);
        }
      case Rejected(error) =>
        var answer := Api.ErrorResponse(error);
        if answer.Some? && answer.value.status == 401 {
          win.DispatchEvent(SessionExpired);
          nav := Some(LoginRoute);
        }
    }
  }
}
