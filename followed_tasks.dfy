/** The followed-tasks page: the fetched tasks grouped by owner into a
    dictionary, and one expand flag per owner. */
module FollowedTasks {
  import opened Browser
  import Api
  import opened TaskList

  const FetchError: string := "Error fetching followed tasks."

  /** The tasks of one owner, in response order. */
  function OfOwner(tasks: seq<Task>, o: string): (r: seq<Task>)
    ensures |r| <= |tasks|
  {
    if tasks == [] then []
    else OfOwner(tasks[..|tasks| - 1], o)
         + (if tasks[|tasks| - 1].owner == o then [tasks[|tasks| - 1]] else [])
  }

  /** The owners appearing in a response. */
  function Owners(tasks: seq<Task>): set<string>
  {
    set t | t in tasks :: t.owner
  }

  /** The owners in order of first appearance (the dictionary's insertion order). */
  function DistinctOwners(tasks: seq<Task>): seq<string>
  {
    if tasks == [] then []
    else
      var init, o := tasks[..|tasks| - 1], tasks[|tasks| - 1].owner;
      if o in DistinctOwners(init) then DistinctOwners(init) else DistinctOwners(init) + [o]
  }

  predicate Distinct(ks: seq<string>)
  {
    forall i, j :: 0 <= i < j < |ks| ==> ks[i] != ks[j]
  }

  /** The total size of the groups named by `ks`. */
  function SizeSum(tasks: seq<Task>, ks: seq<string>): nat
  {
    if ks == [] then 0 else SizeSum(tasks, ks[..|ks| - 1]) + |OfOwner(tasks, ks[|ks| - 1])|
  }

  /** The dictionary the `reduce` builds, step by step: the owner's entry is
      created on its first task and each task is pushed onto it. */
  function Grouped(tasks: seq<Task>): (r: map<string, seq<Task>>)
    ensures forall o :: o in r ==> 0 < |r[o]| <= |tasks|
  {
    if tasks == [] then map[]
    else
      var g, t := Grouped(tasks[..|tasks| - 1]), tasks[|tasks| - 1];
      g[t.owner := (if t.owner in g then g[t.owner] else []) + [t]]
  }

  /** The dictionary has one entry per owner of the response, and no other. */
  lemma {:induction false} GroupedKeys(tasks: seq<Task>)
    ensures Grouped(tasks).Keys == Owners(tasks)
  {
    if tasks != [] {
      var init, t := tasks[..|tasks| - 1], tasks[|tasks| - 1];
      GroupedKeys(init);
      assert tasks == init + [t];
      assert Owners(tasks) == Owners(init) + {t.owner};
    }
  }

  /** Each entry is exactly its owner's tasks, in response order. */
  lemma {:induction false} GroupedEntries(tasks: seq<Task>, o: string)
    ensures o in Grouped(tasks) ==> Grouped(tasks)[o] == OfOwner(tasks, o)
  {
    if tasks != [] {
      var init, t := tasks[..|tasks| - 1], tasks[|tasks| - 1];
      GroupedEntries(init, o);
      if o == t.owner && o !in Grouped(init) {
        GroupedKeys(init);
        OwnerOfGroup(init, o);
      }
    }
  }

  /** Every owner of the response has at least its first task in its group. */
  lemma GroupsNotEmpty(tasks: seq<Task>, o: string)
    requires o in Owners(tasks)
    ensures OfOwner(tasks, o) != []
  {
    var t :| t in tasks && t.owner == o;
    OfOwnerMembers(tasks, o, t);
  }

  /** Against the reference definitions: the dictionary has one entry per
      owner of the response and nothing else, each entry is exactly that
      owner's tasks in response order, and no entry is empty. */
  lemma GroupedByOwner(tasks: seq<Task>)
    ensures Grouped(tasks).Keys == Owners(tasks)
    ensures forall o :: o in Grouped(tasks) ==> Grouped(tasks)[o] == OfOwner(tasks, o) && Grouped(tasks)[o] != []
  {
    GroupedKeys(tasks);
    forall o | o in Grouped(tasks)
      ensures Grouped(tasks)[o] == OfOwner(tasks, o) && Grouped(tasks)[o] != []
    {
      GroupedEntries(tasks, o);
      GroupsNotEmpty(tasks, o);
    }
  }

  /** The `reduce` over the response, run in place on an accumulator. */
  method GroupByOwner(tasks: seq<Task>) returns (groups: map<string, seq<Task>>)
    ensures groups == Grouped(tasks)
    ensures groups.Keys == Owners(tasks)
    ensures forall o :: o in groups ==> groups[o] == OfOwner(tasks, o) && groups[o] != []
  {
    groups := map[];
    var i := 0;
    while i < |tasks|
      invariant 0 <= i <= |tasks|
      invariant groups == Grouped(tasks[..i])
    {
      var task := tasks[i];
      assert tasks[..i + 1][..i] == tasks[..i];
      if task.owner !in groups {
        groups := groups[task.owner := []];
      }
      groups := groups[task.owner := groups[task.owner] + [task]];
      i := i + 1;
    }
    assert tasks[..i] == tasks;
    GroupedByOwner(tasks);
  }

  /** Grouping keeps the response order: the group of a concatenation is the
      concatenation of the groups. */
  lemma {:induction false} OfOwnerConcat(a: seq<Task>, b: seq<Task>, o: string)
    ensures OfOwner(a + b, o) == OfOwner(a, o) + OfOwner(b, o)
  {
    if b == [] {
      assert a + b == a;
    } else {
      assert (a + b)[..|a + b| - 1] == a + b[..|b| - 1];
      OfOwnerConcat(a, b[..|b| - 1], o);
    }
  }

  /** A task is in the group of `o` exactly when it is in the response and `o`
      owns it: every task lands in its owner's group and only there. */
  lemma {:induction false} OfOwnerMembers(tasks: seq<Task>, o: string, t: Task)
    ensures t in OfOwner(tasks, o) <==> t in tasks && t.owner == o
  {
    if tasks != [] {
      var init := tasks[..|tasks| - 1];
      OfOwnerMembers(init, o, t);
      assert tasks == init + [tasks[|tasks| - 1]];
    }
  }

  /** Only an owner of the response has a non-empty group. */
  lemma OwnerOfGroup(tasks: seq<Task>, o: string)
    ensures OfOwner(tasks, o) != [] ==> o in Owners(tasks)
  {
    var r := OfOwner(tasks, o);
    if r != [] {
      OfOwnerMembers(tasks, o, r[0]);
    }
  }

  /** The first-appearance order names every owner exactly once. */
  lemma {:induction false} DistinctOwnersSpec(tasks: seq<Task>)
    ensures Distinct(DistinctOwners(tasks))
    ensures forall o :: o in DistinctOwners(tasks) <==> o in Owners(tasks)
  {
    if tasks != [] {
      var init := tasks[..|tasks| - 1];
      DistinctOwnersSpec(init);
      assert tasks == init + [tasks[|tasks| - 1]];
      assert Owners(tasks) == Owners(init) + {tasks[|tasks| - 1].owner};
    }
  }

  /** One more task adds one to the total exactly when its owner is named. */
  lemma {:induction false} SizeSumSnoc(tasks: seq<Task>, t: Task, ks: seq<string>)
    requires Distinct(ks)
    ensures SizeSum(tasks + [t], ks) == SizeSum(tasks, ks) + (if t.owner in ks then 1 else 0)
  {
    if ks != [] {
      var init, k := ks[..|ks| - 1], ks[|ks| - 1];
      SizeSumSnoc(tasks, t, init);
      assert (tasks + [t])[..|tasks + [t]| - 1] == tasks;
      assert t.owner in ks <==> t.owner in init || t.owner == k;
      assert t.owner == k ==> t.owner !in init;
    }
  }

  /** The group sizes add up to the response length: no task is lost or counted twice. */
  lemma {:induction false} GroupSizesSum(tasks: seq<Task>)
    ensures SizeSum(tasks, DistinctOwners(tasks)) == |tasks|
  {
    if tasks != [] {
      var init, t := tasks[..|tasks| - 1], tasks[|tasks| - 1];
      var ks := DistinctOwners(init);
      GroupSizesSum(init);
      DistinctOwnersSpec(init);
      assert tasks == init + [t];
      SizeSumSnoc(init, t, ks);
      if t.owner !in ks {
        assert SizeSum(tasks, ks + [t.owner]) == SizeSum(tasks, ks) + |OfOwner(tasks, t.owner)| by {
          assert (ks + [t.owner])[..|ks|] == ks;
        }
        OwnerOfGroup(init, t.owner);
      }
    }
  }

  /** An owner's flag: `expandedOwners[owner]`, undefined read as false. */
  predicate Expanded(expanded: map<string, bool>, o: string)
  {
    o in expanded && expanded[o]
  }

  /** `toggleOwnerTasks(o)`: negates `o`'s flag and leaves every other owner's. */
  function Toggle(expanded: map<string, bool>, o: string): (r: map<string, bool>)
    ensures o in r && Expanded(r, o) == !Expanded(expanded, o)
    ensures forall k :: k != o ==> (k in r <==> k in expanded) && Expanded(r, k) == Expanded(expanded, k)
  {
    expanded[o := !Expanded(expanded, o)]
  }

  /** Two clicks on the same owner restore every flag as it was read. */
  lemma ToggleTwice(expanded: map<string, bool>, o: string, k: string)
    ensures Expanded(Toggle(Toggle(expanded, o), o), k) == Expanded(expanded, k)
  {
  }

  class FollowedTasksView {
    var tasksByOwner: map<string, seq<Task>>
    var expandedOwners: map<string, bool>
    var error: Option<string>

    constructor ()
      ensures tasksByOwner == map[] && expandedOwners == map[] && error == None
    {
      tasksByOwner, expandedOwners, error := map[], map[], None;
    }

    /** `fetchFollowedTasks`, given what the gateway settles the request with:
        a resolved array is grouped; a rejection, or a body that is not an
        array (`reduce` throws), sets the error message instead. */
    method FetchFollowedTasks(answer: Api.Outcome<TaskData>)
      modifies this
      ensures expandedOwners == old(expandedOwners)
      ensures answer.Fulfilled? && answer.response.data.TaskArray? ==>
        var tasks := answer.response.data.tasks;
        && tasksByOwner.Keys == Owners(tasks)
        && (forall o :: o in tasksByOwner ==> tasksByOwner[o] == OfOwner(tasks, o))
        && error == old(error)
      ensures !(answer.Fulfilled? && answer.response.data.TaskArray?) ==>
        tasksByOwner == old(tasksByOwner) && error == Some(FetchError)
    {
      if answer.Fulfilled? && answer.response.data.TaskArray? {
        tasksByOwner := GroupByOwner(answer.response.data.tasks);
      } else {
        error := Some(FetchError);
      }
    }

    method ToggleOwnerTasks(o: string)
      modifies this
      ensures expandedOwners == Toggle(old(expandedOwners), o)
      ensures tasksByOwner == old(tasksByOwner) && error == old(error)
    {
      expandedOwners := Toggle(expandedOwners, o);
    }
  }
}
