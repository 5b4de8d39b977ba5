/** The task list the agent keeps for itself, and the tool that changes it. */
module Tasks {
  import opened Common

  datatype Status = Todo | Doing | Done | Cancelled

  datatype Task = Task(id: string, title: string, status: Status)

  datatype NewTask = NewTask(id: string, title: string, status: Option<Status>)

  datatype Patch = Patch(id: string, title: Option<string>, status: Option<Status>)

  /** A parsed call. An absent list is an empty one. */
  datatype ManageArgs = Create(tasks: seq<NewTask>) | Update(updates: seq<Patch>)

  predicate HasActiveTasks(tasks: seq<Task>) {
    exists i :: 0 <= i < |tasks| && (tasks[i].status == Todo || tasks[i].status == Doing)
  }

  function Or<T>(given: Option<T>, otherwise: T): T {
    if given.Some? then given.value else otherwise
  }

  // --------------------------------------------------------- specification

  function Created(t: NewTask): Task {
    Task(t.id, t.title, Or(t.status, Todo))
  }

  /** The last patch for an id is the one that counts. */
  function LastFor(updates: seq<Patch>, id: string): Option<Patch> {
    if updates == [] then None
    else if updates[|updates| - 1].id == id then Some(updates[|updates| - 1])
    else LastFor(updates[..|updates| - 1], id)
  }

  function Patched(task: Task, updates: seq<Patch>): Task {
    var patch := LastFor(updates, task.id);
    if patch.None? then task
    else Task(task.id, Or(patch.value.title, task.title), Or(patch.value.status, task.status))
  }

  predicate HasId(tasks: seq<Task>, id: string) {
    exists i :: 0 <= i < |tasks| && tasks[i].id == id
  }

  predicate Appends(current: seq<Task>, patch: Patch) {
    !HasId(current, patch.id) && patch.title.Some? && |patch.title.value| > 0
  }

  /** Patches with a new id and a title become tasks, each of them. */
  function Appended(current: seq<Task>, updates: seq<Patch>): seq<Task> {
    if updates == [] then []
    else
      var last := updates[|updates| - 1];
      Appended(current, updates[..|updates| - 1])
      + if Appends(current, last) then [Task(last.id, last.title.value, Or(last.status, Todo))] else []
  }

  function PatchedAll(current: seq<Task>, updates: seq<Patch>): seq<Task> {
    seq(|current|, i requires 0 <= i < |current| => Patched(current[i], updates))
  }

  function Apply(current: seq<Task>, args: ManageArgs): seq<Task> {
    match args
    case Create(tasks) => seq(|tasks|, i requires 0 <= i < |tasks| => Created(tasks[i]))
    case Update(updates) => PatchedAll(current, updates) + Appended(current, updates)
  }

  // ------------------------------------------------------------ the program

  method ApplyManageTasks(current: seq<Task>, args: ManageArgs) returns (next: seq<Task>)
    ensures next == Apply(current, args)
  {
    next := [];
    if args.Create? {
      for i := 0 to |args.tasks|
        invariant next == Apply(current, args)[..i]
      {
        next := next + [Created(args.tasks[i])];
      }
      return;
    }
    var updates := args.updates;
    if |updates| == 0 {
      return current;
    }
    var existingIds: set<string> := {};
    for i := 0 to |current|
      invariant forall id :: id in existingIds <==> HasId(current[..i], id)
    {
      existingIds := existingIds + {current[i].id};
    }
    assert current[..|current|] == current;
    var byId: map<string, Patch> := map[];
    for i := 0 to |updates|
      invariant forall id :: LastFor(updates[..i], id) == if id in byId then Some(byId[id]) else None
    {
      assert updates[..i + 1][..i] == updates[..i];
      byId := byId[updates[i].id := updates[i]];
    }
    assert updates[..|updates|] == updates;
    for i := 0 to |current|
      invariant next == PatchedAll(current, updates)[..i]
    {
      var task := current[i];
      if task.id in byId {
        var patch := byId[task.id];
        next := next + [Task(task.id, Or(patch.title, task.title), Or(patch.status, task.status))];
      } else {
        next := next + [task];
      }
    }
    for i := 0 to |updates|
      invariant next == PatchedAll(current, updates) + Appended(current, updates[..i])
    {
      assert updates[..i + 1][..i] == updates[..i];
      var patch := updates[i];
      if patch.id in existingIds || patch.title.None? || |patch.title.value| == 0 {
        continue;
      }
      next := next + [Task(patch.id, patch.title.value, Or(patch.status, Todo))];
    }
  }

  /** The note a call that changes nothing is answered with. */
  datatype NoOp = NotFound(id: string) | Already(id: string, status: Status)
  datatype Note = ListMatches | NoUpdates | Unchanged(noOps: seq<NoOp>)

  function FirstWith(tasks: seq<Task>, id: string): Option<Task> {
    if tasks == [] then None
    else if tasks[0].id == id then Some(tasks[0])
    else FirstWith(tasks[1..], id)
  }

  /** What one patch on its own would do: change the list, or why not. */
  function Judge(current: seq<Task>, patch: Patch): Option<NoOp> {
    var existing := FirstWith(current, patch.id);
    if existing.None? then
      if patch.title.Some? && |patch.title.value| > 0 then None else Some(NotFound(patch.id))
    else if Or(patch.title, existing.value.title) == existing.value.title
            && Or(patch.status, existing.value.status) == existing.value.status then
      Some(Already(patch.id, existing.value.status))
    else None
  }

  method DescribeManageTasksNoOp(current: seq<Task>, args: ManageArgs) returns (note: Option<Note>)
    ensures args.Create? ==> note == if Apply(current, args) == current then Some(ListMatches) else None
    ensures args.Update? && args.updates == [] ==> note == Some(NoUpdates)
    ensures args.Update? && args.updates != [] ==>
      if exists i :: 0 <= i < |args.updates| && Judge(current, args.updates[i]).None? then note == None
      else
        && note.Some? && note.value.Unchanged? && |note.value.noOps| == |args.updates|
        && forall i :: 0 <= i < |args.updates| ==> Judge(current, args.updates[i]) == Some(note.value.noOps[i])
  {
    if args.Create? {
      var next := ApplyManageTasks(current, args);
      return if next == current then Some(ListMatches) else None;
    }
    var updates := args.updates;
    if |updates| == 0 {
      return Some(NoUpdates);
    }
    var noOps := [];
    var changed := false;
    for i := 0 to |updates|
      invariant changed <==> exists k :: 0 <= k < i && Judge(current, updates[k]).None?
      invariant !changed ==> |noOps| == i
      invariant !changed ==> forall k :: 0 <= k < i ==> Judge(current, updates[k]) == Some(noOps[k])
    {
      var judged := Judge(current, updates[i]);
      if judged.None? {
        changed := true;
      } else {
        noOps := noOps + [judged.value];
      }
    }
    return if changed then None else Some(Unchanged(noOps));
  }

  /** The tool's own copy of the list. */
  class Runner {
    var tasks: seq<Task>

    constructor ()
      ensures tasks == []
    {
      tasks := [];
    }

    /** None stands for the ordinary "Tasks updated." answer. */
    method Run(args: ManageArgs) returns (note: Option<Note>)
      modifies this
      ensures tasks == Apply(old(tasks), args)
      ensures DistinctIds(old(tasks)) && (args.Update? ==> NoOverrule(args.updates)) ==>
                (note.Some? <==> tasks == old(tasks))
    {
      note := DescribeManageTasksNoOp(tasks, args);
      if args.Update? {
        NoteIsReliableExactlyWithoutOverruling(args.updates);
      }
      tasks := ApplyManageTasks(tasks, args);
    }
  }

  // ------------------------------------------------------------- properties

  predicate DistinctIds(tasks: seq<Task>) {
    forall i, j :: 0 <= i < j < |tasks| ==> tasks[i].id != tasks[j].id
  }

  predicate DistinctUpdates(args: ManageArgs) {
    args.Update? ==> DistinctPatches(args.updates)
  }

  predicate DistinctPatches(updates: seq<Patch>) {
    forall i, j :: 0 <= i < j < |updates| ==> updates[i].id != updates[j].id
  }

  /** Whether the call is answered with a no-op note. */
  predicate Noted(current: seq<Task>, args: ManageArgs) {
    match args
    case Create(_) => Apply(current, args) == current
    case Update(updates) => forall i :: 0 <= i < |updates| ==> Judge(current, updates[i]).Some?
  }

  lemma {:induction false} FirstWithFinds(tasks: seq<Task>, id: string)
    ensures FirstWith(tasks, id).None? <==> !HasId(tasks, id)
    ensures FirstWith(tasks, id).Some? ==> FirstWith(tasks, id).value in tasks && FirstWith(tasks, id).value.id == id
  {
    if tasks != [] && tasks[0].id != id {
      FirstWithFinds(tasks[1..], id);
      if HasId(tasks, id) {
        var i :| 0 <= i < |tasks| && tasks[i].id == id;
        assert tasks[1..][i - 1].id == id;
      }
    }
  }

  lemma {:induction false} LastForFinds(updates: seq<Patch>, id: string)
    ensures LastFor(updates, id).None? <==> forall i :: 0 <= i < |updates| ==> updates[i].id != id
    ensures LastFor(updates, id).Some? ==> exists i ::
      && 0 <= i < |updates|
      && updates[i] == LastFor(updates, id).value
      && updates[i].id == id
      && forall j :: i < j < |updates| ==> updates[j].id != id
  {
    if updates != [] && updates[|updates| - 1].id != id {
      var front := updates[..|updates| - 1];
      LastForFinds(front, id);
      assert forall i :: 0 <= i < |front| ==> front[i] == updates[i];
      if LastFor(front, id).Some? {
        var i :| 0 <= i < |front| && front[i] == LastFor(front, id).value && front[i].id == id
                 && forall j :: i < j < |front| ==> front[j].id != id;
        assert updates[i] == LastFor(updates, id).value;
      }
    }
  }

  lemma {:induction false} NothingAppended(current: seq<Task>, updates: seq<Patch>)
    ensures Appended(current, updates) == [] <==> forall i :: 0 <= i < |updates| ==> !Appends(current, updates[i])
  {
    if updates != [] {
      var front := updates[..|updates| - 1];
      NothingAppended(current, front);
      assert forall i :: 0 <= i < |front| ==> front[i] == updates[i];
    }
  }

  /** A noted call changes nothing, whatever the updates repeat. */
  lemma NotedIsUnchanged(current: seq<Task>, args: ManageArgs)
    requires DistinctIds(current) && Noted(current, args)
    ensures Apply(current, args) == current
  {
    if args.Update? {
      var updates := args.updates;
      forall i | 0 <= i < |current|
        ensures Patched(current[i], updates) == current[i]
      {
        LastForFinds(updates, current[i].id);
        FirstWithFinds(current, current[i].id);
      }
      forall k | 0 <= k < |updates|
        ensures !Appends(current, updates[k])
      {
        FirstWithFinds(current, updates[k].id);
      }
      NothingAppended(current, updates);
    }
  }

  // ------------------------------------- when the note can be relied on

  /** Whatever a patch sets, the last patch of its id sets to the same. */
  predicate NoOverrule(updates: seq<Patch>) {
    forall i, j :: 0 <= i <= j < |updates| && IsLast(updates, j) && updates[i].id == updates[j].id
      ==> Agrees(updates[i], updates[j])
  }

  predicate Agrees(patch: Patch, last: Patch) {
    && (patch.title.Some? ==> last.title == patch.title)
    && (patch.status.Some? ==> last.status == patch.status)
  }

  predicate IsLast(updates: seq<Patch>, j: nat)
    requires j < |updates|
  {
    forall k :: j < k < |updates| ==> updates[k].id != updates[j].id
  }

  lemma LastForIsLast(updates: seq<Patch>, id: string) returns (j: nat)
    requires LastFor(updates, id).Some?
    ensures j < |updates| && updates[j] == LastFor(updates, id).value && updates[j].id == id && IsLast(updates, j)
    ensures forall i :: 0 <= i < |updates| && updates[i].id == id ==> i <= j
  {
    LastForFinds(updates, id);
    j :| 0 <= j < |updates| && updates[j] == LastFor(updates, id).value && updates[j].id == id
         && forall k :: j < k < |updates| ==> updates[k].id != id;
  }

  /** Without overruling, a call that leaves an equal list is noted. */
  lemma UnchangedIsNotedWithoutOverruling(current: seq<Task>, updates: seq<Patch>)
    requires DistinctIds(current) && NoOverrule(updates) && Apply(current, Update(updates)) == current
    ensures Noted(current, Update(updates))
  {
    assert |PatchedAll(current, updates)| == |current|;
    NothingAppended(current, updates);
    forall k | 0 <= k < |updates|
      ensures Judge(current, updates[k]).Some?
    {
      var id := updates[k].id;
      FirstWithFinds(current, id);
      if HasId(current, id) {
        var i :| 0 <= i < |current| && current[i].id == id;
        LastForFinds(updates, id);
        var j := LastForIsLast(updates, id);
        assert Agrees(updates[k], updates[j]);
        assert Apply(current, Update(updates))[i] == Patched(current[i], updates);
      }
    }
  }

  function Ids(updates: seq<Patch>): seq<string> {
    seq(|updates|, i requires 0 <= i < |updates| => updates[i].id)
  }

  /** The list that the updates leave alone: one task for each id, as its last
      patch wants it; what that patch leaves open is `title` and `status`. */
  function Settled(updates: seq<Patch>, title: string, status: Status): seq<Task> {
    var ids := Distinct(Ids(updates));
    seq(|ids|, k requires 0 <= k < |ids| => SettledTask(updates, ids[k], title, status))
  }

  function SettledTask(updates: seq<Patch>, id: string, title: string, status: Status): Task {
    var last := LastFor(updates, id);
    if last.None? then Task(id, title, status) else Task(id, Or(last.value.title, title), Or(last.value.status, status))
  }

  lemma SettledTaskIsLeftAlone(updates: seq<Patch>, id: string, title: string, status: Status)
    ensures var task := SettledTask(updates, id, title, status); task.id == id && Patched(task, updates) == task
  {
  }

  lemma SettledHas(updates: seq<Patch>, title: string, status: Status, u: nat)
    requires u < |updates| && DistinctIds(Settled(updates, title, status))
    ensures var current := Settled(updates, title, status);
      && HasId(current, updates[u].id)
      && FirstWith(current, updates[u].id) == Some(SettledTask(updates, updates[u].id, title, status))
  {
    var current, ids := Settled(updates, title, status), Distinct(Ids(updates));
    DistinctKeepsElements(Ids(updates));
    assert Ids(updates)[u] == updates[u].id;
    assert updates[u].id in Ids(updates) && updates[u].id in ids;
    var k :| 0 <= k < |ids| && ids[k] == updates[u].id;
    assert current[k] == SettledTask(updates, updates[u].id, title, status);
    FirstWithFinds(current, updates[u].id);
  }

  lemma SettledIsLeftAlone(updates: seq<Patch>, title: string, status: Status)
    ensures var current := Settled(updates, title, status);
            DistinctIds(current) && Apply(current, Update(updates)) == current
  {
    var current, ids := Settled(updates, title, status), Distinct(Ids(updates));
    DistinctKeepsElements(Ids(updates));
    forall i | 0 <= i < |current|
      ensures current[i].id == ids[i] && Patched(current[i], updates) == current[i]
    {
      SettledTaskIsLeftAlone(updates, ids[i], title, status);
    }
    forall u | 0 <= u < |updates|
      ensures !Appends(current, updates[u])
    {
      SettledHas(updates, title, status, u);
    }
    NothingAppended(current, updates);
  }

  function OtherStatus(status: Option<Status>): Status {
    if status == Some(Todo) then Done else Todo
  }

  /** With overruling there is a list on which the note is missing. */
  lemma OverrulingMisreports(updates: seq<Patch>)
    requires !NoOverrule(updates)
    ensures exists current :: DistinctIds(current) && Apply(current, Update(updates)) == current
                              && !Noted(current, Update(updates))
  {
    var i, j :| 0 <= i <= j < |updates| && IsLast(updates, j) && updates[i].id == updates[j].id
                && !Agrees(updates[i], updates[j]);
    var title := Or(updates[i].title, "") + "!";
    var status := OtherStatus(updates[i].status);
    var current := Settled(updates, title, status);
    SettledIsLeftAlone(updates, title, status);
    SettledHas(updates, title, status, i);
    LastForFinds(updates, updates[i].id);
    var last := LastForIsLast(updates, updates[i].id);
    assert last == j;
    assert title != Or(updates[i].title, "");
    assert Judge(current, updates[i]).None?;
  }

  /** The note can be relied on, on every list with distinct ids, exactly when
      no patch of the call overrules an earlier one. */
  lemma NoteIsReliableExactlyWithoutOverruling(updates: seq<Patch>)
    ensures NoOverrule(updates)
       <==> forall current :: DistinctIds(current) ==>
              (Noted(current, Update(updates)) <==> Apply(current, Update(updates)) == current)
  {
    if NoOverrule(updates) {
      forall current | DistinctIds(current)
        ensures Noted(current, Update(updates)) <==> Apply(current, Update(updates)) == current
      {
        if Noted(current, Update(updates)) {
          NotedIsUnchanged(current, Update(updates));
        } else if Apply(current, Update(updates)) == current {
          UnchangedIsNotedWithoutOverruling(current, updates);
        }
      }
    } else {
      OverrulingMisreports(updates);
    }
  }

  /** With distinct ids in the list and in the updates, a call is answered with
      a no-op note exactly when it leaves an equal list. */
  lemma NoteSaysUnchanged(current: seq<Task>, args: ManageArgs)
    requires DistinctIds(current) && DistinctUpdates(args)
    ensures Noted(current, args) <==> Apply(current, args) == current
  {
    if args.Update? {
      assert NoOverrule(args.updates);
      NoteIsReliableExactlyWithoutOverruling(args.updates);
    }
  }

  /** The shortest such call: the first patch would change the task, the last
      one restores it, and no note is given for an equal list. */
  lemma RepeatedUpdateMisreports()
    ensures var current := [Task("t", "write", Todo)];
      var args := Update([Patch("t", None, Some(Done)), Patch("t", None, Some(Todo))]);
      Apply(current, args) == current && !Noted(current, args)
  {
    var current := [Task("t", "write", Todo)];
    var updates := [Patch("t", None, Some(Done)), Patch("t", None, Some(Todo))];
    assert updates[|updates| - 1].id == "t";
    assert HasId(current, "t") by {
      assert current[0].id == "t";
    }
    NothingAppended(current, updates);
    assert Apply(current, Update(updates)) == current;
    assert Judge(current, updates[0]).None?;
  }

  lemma {:induction false} AppendedAreNew(current: seq<Task>, updates: seq<Patch>)
    ensures forall k :: 0 <= k < |Appended(current, updates)| ==>
      && !HasId(current, Appended(current, updates)[k].id)
      && exists u :: 0 <= u < |updates| && updates[u].id == Appended(current, updates)[k].id
    ensures DistinctPatches(updates) ==> DistinctIds(Appended(current, updates))
  {
    if updates != [] {
      var front := updates[..|updates| - 1];
      var last := updates[|updates| - 1];
      AppendedAreNew(current, front);
      assert forall i :: 0 <= i < |front| ==> front[i] == updates[i];
      var earlier := Appended(current, front);
      forall k | 0 <= k < |Appended(current, updates)|
        ensures !HasId(current, Appended(current, updates)[k].id)
        ensures exists u :: 0 <= u < |updates| && updates[u].id == Appended(current, updates)[k].id
      {
        if k < |earlier| {
          assert Appended(current, updates)[k] == earlier[k];
          var u :| 0 <= u < |front| && front[u].id == earlier[k].id;
          assert updates[u].id == earlier[k].id;
        } else {
          assert updates[|updates| - 1].id == Appended(current, updates)[k].id;
        }
      }
    }
  }

  /** An update keeps every existing task in its place under its id, leaves the
      tasks it does not name as they are, puts new ones behind them, and keeps
      ids distinct. */
  lemma UpdateKeepsOrder(current: seq<Task>, updates: seq<Patch>)
    ensures var next := Apply(current, Update(updates));
      && |next| >= |current|
      && (forall i :: 0 <= i < |current| ==> next[i].id == current[i].id)
      && (forall i :: 0 <= i < |current| && (forall u :: 0 <= u < |updates| ==> updates[u].id != current[i].id)
                      ==> next[i] == current[i])
      && (forall i :: |current| <= i < |next| ==> !HasId(current, next[i].id))
      && (DistinctIds(current) && DistinctPatches(updates) ==> DistinctIds(next))
  {
    var next := Apply(current, Update(updates));
    AppendedAreNew(current, updates);
    forall i | 0 <= i < |current| && forall u :: 0 <= u < |updates| ==> updates[u].id != current[i].id
      ensures next[i] == current[i]
    {
      LastForFinds(updates, current[i].id);
    }
    forall i | |current| <= i < |next|
      ensures !HasId(current, next[i].id)
    {
      assert next[i] == Appended(current, updates)[i - |current|];
    }
    if DistinctIds(current) && DistinctPatches(updates) {
      forall i, j | 0 <= i < j < |next|
        ensures next[i].id != next[j].id
      {
        if j >= |current| {
          assert next[j] == Appended(current, updates)[j - |current|];
          if i >= |current| {
            assert next[i] == Appended(current, updates)[i - |current|];
          }
        }
      }
    }
  }

  // ------------------------------------------- when ids stay distinct

  /** No two patches that would each append a task share an id. */
  predicate AppendsOnce(current: seq<Task>, updates: seq<Patch>) {
    forall i, j :: 0 <= i < j < |updates| && Appends(current, updates[i]) && Appends(current, updates[j])
      ==> updates[i].id != updates[j].id
  }

  /** Some patch appends a task under this id. */
  predicate AppendsId(current: seq<Task>, updates: seq<Patch>, id: string) {
    exists u :: 0 <= u < |updates| && Appends(current, updates[u]) && updates[u].id == id
  }

  lemma AppendsIdSplits(current: seq<Task>, updates: seq<Patch>, id: string)
    requires updates != []
    ensures var front, last := updates[..|updates| - 1], updates[|updates| - 1];
      AppendsId(current, updates, id) <==> AppendsId(current, front, id) || (Appends(current, last) && last.id == id)
  {
    var front := updates[..|updates| - 1];
    if AppendsId(current, updates, id) {
      var u :| 0 <= u < |updates| && Appends(current, updates[u]) && updates[u].id == id;
      assert u < |front| ==> front[u] == updates[u];
    }
    if AppendsId(current, front, id) {
      var u :| 0 <= u < |front| && Appends(current, front[u]) && front[u].id == id;
      assert updates[u] == front[u];
    }
  }

  lemma {:induction false} AppendedIdsAreOfAppending(current: seq<Task>, updates: seq<Patch>, id: string)
    ensures HasId(Appended(current, updates), id) <==> AppendsId(current, updates, id)
  {
    if updates != [] {
      var front, last := updates[..|updates| - 1], updates[|updates| - 1];
      AppendedIdsAreOfAppending(current, front, id);
      AppendsIdSplits(current, updates, id);
      var earlier, all := Appended(current, front), Appended(current, updates);
      if HasId(earlier, id) {
        var k :| 0 <= k < |earlier| && earlier[k].id == id;
        assert all[k].id == id;
      }
      if Appends(current, last) {
        assert all[|all| - 1].id == last.id;
      }
    }
  }

  lemma {:induction false} AppendedIsDistinct(current: seq<Task>, updates: seq<Patch>)
    ensures DistinctIds(Appended(current, updates)) <==> AppendsOnce(current, updates)
  {
    if updates != [] {
      var front, last := updates[..|updates| - 1], updates[|updates| - 1];
      AppendedIsDistinct(current, front);
      AppendedIdsAreOfAppending(current, front, last.id);
      AppendsOnceSplits(current, updates);
      var earlier := Appended(current, front);
      if Appends(current, last) {
        var added := Task(last.id, last.title.value, Or(last.status, Todo));
        assert Appended(current, updates) == earlier + [added];
        DistinctIdsSplit(earlier, added);
      } else {
        assert Appended(current, updates) == earlier;
      }
    }
  }

  lemma AppendsOnceSplits(current: seq<Task>, updates: seq<Patch>)
    requires updates != []
    ensures var front, last := updates[..|updates| - 1], updates[|updates| - 1];
      AppendsOnce(current, updates)
      <==> AppendsOnce(current, front) && (Appends(current, last) ==> !AppendsId(current, front, last.id))
  {
    var front := updates[..|updates| - 1];
    assert forall i :: 0 <= i < |front| ==> front[i] == updates[i];
  }

  lemma DistinctIdsSplit(tasks: seq<Task>, added: Task)
    ensures DistinctIds(tasks + [added]) <==> DistinctIds(tasks) && !HasId(tasks, added.id)
  {
    var more := tasks + [added];
    assert forall i :: 0 <= i < |tasks| ==> more[i] == tasks[i];
    assert more[|tasks|] == added;
  }

  /** An update of a list with distinct ids keeps them distinct exactly when no
      two of its patches append the same new id. */
  lemma IdsStayDistinctExactlyWhenAppendedOnce(current: seq<Task>, updates: seq<Patch>)
    requires DistinctIds(current)
    ensures DistinctIds(Apply(current, Update(updates))) <==> AppendsOnce(current, updates)
  {
    AppendedIsDistinct(current, updates);
    AppendedAreNew(current, updates);
    var kept, added := PatchedAll(current, updates), Appended(current, updates);
    assert forall i :: 0 <= i < |kept| ==> kept[i].id == current[i].id;
    var next := kept + added;
    if DistinctIds(added) {
      forall i, j | 0 <= i < j < |next|
        ensures next[i].id != next[j].id
      {
        if i < |kept| && |kept| <= j {
          assert !HasId(current, added[j - |kept|].id);
        }
      }
    }
    forall i, j | 0 <= i < j < |added| && DistinctIds(next)
      ensures added[i].id != added[j].id
    {
      assert next[|kept| + i] == added[i] && next[|kept| + j] == added[j];
    }
  }

  /** The shortest call that breaks them. */
  lemma RepeatedNewIdIsAppendedTwice()
    ensures var patch := Patch("t", Some("write"), None);
      Apply([], Update([patch, patch])) == [Task("t", "write", Todo), Task("t", "write", Todo)]
  {
    var patch := Patch("t", Some("write"), None);
    assert [patch, patch][..1] == [patch];
    assert Appended([], [patch]) == [Task("t", "write", Todo)] by {
      assert [patch][..0] == [];
    }
  }

  // ------------------------------------------------- what a call leaves

  /** A new list holds the tasks given, each to do unless it says otherwise. */
  lemma CreateSets(current: seq<Task>, tasks: seq<NewTask>)
    ensures var next := Apply(current, Create(tasks));
      && |next| == |tasks|
      && forall i :: 0 <= i < |tasks| ==>
           && next[i].id == tasks[i].id && next[i].title == tasks[i].title
           && (tasks[i].status.Some? ==> next[i].status == tasks[i].status.value)
           && (tasks[i].status.None? ==> next[i].status == Todo)
  {
  }

  /** The last patch of a task's id sets what it gives and leaves the rest; a task
      without a patch stays. */
  lemma LastPatchSets(current: seq<Task>, updates: seq<Patch>, i: nat)
    requires i < |current|
    ensures var next := Apply(current, Update(updates));
      && i < |next|
      && ((forall k :: 0 <= k < |updates| ==> updates[k].id != current[i].id) ==> next[i] == current[i])
      && forall j :: 0 <= j < |updates| && updates[j].id == current[i].id
                     && (forall k :: j < k < |updates| ==> updates[k].id != current[i].id) ==>
           next[i] == Task(current[i].id,
                           if updates[j].title.Some? then updates[j].title.value else current[i].title,
                           if updates[j].status.Some? then updates[j].status.value else current[i].status)
  {
    LastForFinds(updates, current[i].id);
    if LastFor(updates, current[i].id).Some? {
      var k := LastForIsLast(updates, current[i].id);
    }
  }

  function TaskOf(patch: Patch): Task
    requires patch.title.Some?
  {
    Task(patch.id, patch.title.value, if patch.status.Some? then patch.status.value else Todo)
  }

  /** A patch makes a task when its id is new to the list and it has a title. */
  predicate Makes(current: seq<Task>, patch: Patch) {
    && (forall i :: 0 <= i < |current| ==> current[i].id != patch.id)
    && patch.title.Some? && patch.title.value != ""
  }

  ghost predicate AreTasksOf(tasks: seq<Task>, patches: seq<Patch>) {
    |tasks| == |patches| && forall i :: 0 <= i < |tasks| ==> patches[i].title.Some? && tasks[i] == TaskOf(patches[i])
  }

  lemma OneMoreTask(current: seq<Task>, updates: seq<Patch>)
    requires updates != []
    ensures var last := updates[|updates| - 1];
      Appended(current, updates)
      == Appended(current, updates[..|updates| - 1]) + if Makes(current, last) then [TaskOf(last)] else []
  {
  }

  lemma NewTasksAreAppended(current: seq<Task>, updates: seq<Patch>)
    ensures Apply(current, Update(updates))[|current|..] == Appended(current, updates)
  {
  }

  lemma {:induction false} AppendedAreMade(current: seq<Task>, updates: seq<Patch>) returns (made: seq<Patch>)
    ensures Picks(updates, made, (p: Patch) => Makes(current, p)) && AreTasksOf(Appended(current, updates), made)
  {
    hide Picks, Makes;
    if updates == [] {
      made := [];
      PicksNothing((p: Patch) => Makes(current, p));
    } else {
      var front, last := updates[..|updates| - 1], updates[|updates| - 1];
      var earlier := AppendedAreMade(current, front);
      PicksOneLast(front, earlier, last, (p: Patch) => Makes(current, p));
      assert front + [last] == updates;
      OneMoreTask(current, updates);
      made := earlier + if Makes(current, last) then [last] else [];
    }
  }

  /** Behind the list come the tasks that patches make, in the order of the patches. */
  lemma NewTasksFollow(current: seq<Task>, updates: seq<Patch>)
    ensures exists made :: Picks(updates, made, (p: Patch) => Makes(current, p))
                           && AreTasksOf(Apply(current, Update(updates))[|current|..], made)
  {
    NewTasksAreAppended(current, updates);
    var made := AppendedAreMade(current, updates);
  }
}
