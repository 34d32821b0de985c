/** The reconciler: matches each desired task to the remote snapshots,
    resolves its assignee, decides between creating and updating a page,
    archives the remote ids that are no longer desired, and plans the whole
    run as the sequence of requests the script issues. */
module Reconciler {
  import opened JsValues
  import opened PropertyMapper
  import opened Snapshots
  import opened PatchBuilder

  /** A request to the remote store. */
  datatype Request =
    | Create(props: Properties)                  // pages.create
    | Update(pageId: string, props: Properties)  // pages.update of a desired task
    | Archive(pageId: string, props: Properties) // pages.update setting the done flag

  /** `Array.prototype.find` by index: the first position whose element satisfies `p`. */
  function FindFirst<T>(s: seq<T>, p: T -> bool): (r: Option<nat>)
    ensures r.Some? ==> r.value < |s| && p(s[r.value])
    ensures r.Some? ==> forall j :: 0 <= j < r.value ==> !p(s[j])
    ensures r.None? <==> forall j :: 0 <= j < |s| ==> !p(s[j])
  {
    if s == [] then None
    else if p(s[0]) then Some(0)
    else
      match FindFirst(s[1..], p)
      case None => None
      case Some(k) => Some(k + 1)
  }

  /** `i` is the first snapshot whose id is `id`. */
  predicate IsFirst(current: seq<Snapshot>, id: string, i: int)
  {
    0 <= i < |current| && current[i].id == id && forall j :: 0 <= j < i ==> current[j].id != id
  }

  /** `i` is the first user whose display name is `name`. */
  predicate IsFirstUser(users: seq<User>, name: Option<string>, i: int)
  {
    0 <= i < |users| && Some(users[i].fio) == name && forall j :: 0 <= j < i ==> Some(users[j].fio) != name
  }

  /** `currentTasks.find(task => task.id === id)`. */
  function FindSnapshot(current: seq<Snapshot>, id: string): (r: Option<nat>)
    ensures r.Some? ==> IsFirst(current, id, r.value)
    ensures r.None? <==> forall j :: 0 <= j < |current| ==> current[j].id != id
  {
    FindFirst(current, (s: Snapshot) => s.id == id)
  }

  /** `users.find(user => user.fio === item.user)`; an absent name matches no one. */
  function FindUser(users: seq<User>, name: Option<string>): (r: Option<nat>)
    ensures r.Some? ==> IsFirstUser(users, name, r.value)
    ensures r.None? <==> forall j :: 0 <= j < |users| ==> Some(users[j].fio) != name
  {
    FindFirst(users, (u: User) => Some(u.fio) == name)
  }

  /** The task after `item.userID = user.id` for the first user named
      `item.user`; without such a user the task is unchanged. */
  function ResolveUser(item: Task, users: seq<User>): Task
  {
    match FindUser(users, item.user)
    case None => item
    case Some(i) => item.(userId := Some(users[i].id))
  }

  /** Resolution changes nothing but the user id; it takes the id of the
      first user with the task's display name and keeps the task's own id
      when no user has that name. */
  lemma ResolveUserSpec(item: Task, users: seq<User>)
    ensures ResolveUser(item, users).(userId := item.userId) == item
    ensures forall i :: IsFirstUser(users, item.user, i) ==> ResolveUser(item, users).userId == Some(users[i].id)
    ensures (forall j :: 0 <= j < |users| ==> Some(users[j].fio) != item.user) ==> ResolveUser(item, users) == item
  {
  }

  /** The request `resolveTask` issues for one desired task: a create when
      no snapshot has its id, else an update of the first such snapshot's
      page, or nothing when that page id is empty. When building the
      properties throws, the error is caught and nothing is issued. */
  function Decide(item: Task, current: seq<Snapshot>, users: seq<User>, normalize: Arg -> string): Option<Request>
  {
    var task := ResolveUser(item, users);
    match FindSnapshot(current, item.id)
    case None =>
      (match Build(task, true, NoSnapshot, normalize)
       case Thrown => None
       case Props(p) => Some(Create(p)))
    case Some(i) =>
      if current[i].pageId == "" then None
      else
        match Build(task, false, current[i], normalize)
        case Thrown => None
        case Props(p) => Some(Update(current[i].pageId, p))
  }

  /** A desired task is created exactly when no snapshot has its id and its
      description can be mapped, with the properties of a new page for the
      task with its user resolved. */
  lemma DecideCreate(item: Task, current: seq<Snapshot>, users: seq<User>, normalize: Arg -> string)
    ensures (var r := Decide(item, current, users, normalize); r.Some? && r.value.Create?) <==>
            (forall j :: 0 <= j < |current| ==> current[j].id != item.id) && !Throws(item, normalize)
    ensures (forall j :: 0 <= j < |current| ==> current[j].id != item.id) && !Throws(item, normalize) ==>
            Decide(item, current, users, normalize) == Some(Create(Patch(ResolveUser(item, users), true, NoSnapshot, normalize)))
  {
    ResolveUserSpec(item, users);
  }

  /** A desired task with a same-id snapshot updates the page of the first
      such snapshot against that snapshot, or issues nothing when its page
      id is empty or its description cannot be mapped; it is never created
      or archived. */
  lemma DecideUpdate(item: Task, current: seq<Snapshot>, users: seq<User>, normalize: Arg -> string, i: int)
    requires IsFirst(current, item.id, i)
    ensures current[i].pageId == "" ==> Decide(item, current, users, normalize) == None
    ensures current[i].pageId != "" && Throws(item, normalize) ==> Decide(item, current, users, normalize) == None
    ensures current[i].pageId != "" && !Throws(item, normalize) ==>
            Decide(item, current, users, normalize) ==
            Some(Update(current[i].pageId, Patch(ResolveUser(item, users), false, current[i], normalize)))
  {
    ResolveUserSpec(item, users);
    var k := FindSnapshot(current, item.id);
    assert k.Some? && k.value == i;
  }

  /** A task whose description is `null` or a boolean issues no request at
      all: `createProperties` throws and `resolveTask` catches the error. */
  lemma DecideThrows(item: Task, current: seq<Snapshot>, users: seq<User>, normalize: Arg -> string)
    requires item.description.Null? || item.description.Flag?
    ensures Decide(item, current, users, normalize) == None
  {
    ResolveUserSpec(item, users);
    TableValues(ResolveUser(item, users), normalize);
  }

  /** The properties of an archive request: `Выполнено` set to `true`. */
  function DoneProperties(normalize: Arg -> string): (p: Properties)
    ensures p == map[Done := Checkbox(Flag(true))]
  {
    map[Done := PropertyByType(CheckboxKind, Flag(true), normalize).prop]
  }

  /** `archiveTask(completedTask, currentTasks)`: archives the first snapshot
      with the id, whatever its page id, and issues nothing without one. */
  function ArchiveTask(id: string, current: seq<Snapshot>, normalize: Arg -> string): Option<Request>
  {
    match FindSnapshot(current, id)
    case None => None
    case Some(i) => Some(Archive(current[i].pageId, DoneProperties(normalize)))
  }

  /** An archive targets the first snapshot with the id, with exactly the
      done flag as its properties, and nothing is issued when no snapshot
      has the id. */
  lemma ArchiveTaskSpec(id: string, current: seq<Snapshot>, normalize: Arg -> string)
    ensures ArchiveTask(id, current, normalize).None? <==> forall j :: 0 <= j < |current| ==> current[j].id != id
    ensures forall i :: IsFirst(current, id, i) ==>
              ArchiveTask(id, current, normalize) == Some(Archive(current[i].pageId, map[Done := Checkbox(Flag(true))]))
  {
  }

  /** `s.map(f)`: `f` of each element, position by position. */
  function MapSeq<T, U>(s: seq<T>, f: T -> U): (r: seq<U>)
    ensures |r| == |s|
    ensures forall i :: 0 <= i < |s| ==> r[i] == f(s[i])
  {
    seq(|s|, i requires 0 <= i < |s| => f(s[i]))
  }

  /** `currentTasks.map(task => task.id)`. */
  function SnapshotIds(current: seq<Snapshot>): seq<string>
  {
    MapSeq(current, (s: Snapshot) => s.id)
  }

  /** `tasks.map(task => task.id)`. */
  function TaskIds(tasks: seq<Task>): seq<string>
  {
    MapSeq(tasks, (t: Task) => t.id)
  }

  /** `ids.filter(x => !keep.includes(x))`: every occurrence of an id outside
      `keep`, as often as it occurs, and none of the others. */
  function Absent(ids: seq<string>, keep: seq<string>): (r: seq<string>)
    ensures forall x :: x in r <==> x in ids && x !in keep
  {
    if ids == [] then []
    else
      var rest := Absent(ids[1..], keep);
      if ids[0] in keep then rest else [ids[0]] + rest
  }

  /** Duplicates survive the filter: an id outside `keep` occurs in the result
      as often as among the ids. */
  lemma {:induction false} AbsentCount(ids: seq<string>, keep: seq<string>, x: string)
    ensures multiset(Absent(ids, keep))[x] == if x in keep then 0 else multiset(ids)[x]
  {
    if ids != [] {
      assert ids == [ids[0]] + ids[1..];
      AbsentCount(ids[1..], keep, x);
    }
  }

  /** The filter keeps the order of the ids: it distributes over concatenation. */
  lemma {:induction false} AbsentAppend(a: seq<string>, b: seq<string>, keep: seq<string>)
    ensures Absent(a + b, keep) == Absent(a, keep) + Absent(b, keep)
  {
    if a == [] {
      assert a + b == b;
    } else {
      assert (a + b)[0] == a[0];
      assert (a + b)[1..] == a[1..] + b;
      AbsentAppend(a[1..], b, keep);
    }
  }

  /** `completedTasks`: the ids of the snapshots that no desired task has. */
  function CompletedIds(current: seq<Snapshot>, tasks: seq<Task>): seq<string>
  {
    Absent(SnapshotIds(current), TaskIds(tasks))
  }

  /** An id is completed exactly when some snapshot has it and no desired
      task does. */
  lemma CompletedSpec(current: seq<Snapshot>, tasks: seq<Task>, x: string)
    ensures x in CompletedIds(current, tasks) <==>
            (exists i :: 0 <= i < |current| && current[i].id == x) &&
            (forall k :: 0 <= k < |tasks| ==> tasks[k].id != x)
  {
    var ids := SnapshotIds(current);
    if x in ids {
      var i :| 0 <= i < |ids| && ids[i] == x;
      assert current[i].id == x;
    }
    if exists i :: 0 <= i < |current| && current[i].id == x {
      var i :| 0 <= i < |current| && current[i].id == x;
      assert ids[i] == x;
    }
    if x in TaskIds(tasks) {
      var k :| 0 <= k < |tasks| && TaskIds(tasks)[k] == x;
      assert tasks[k].id == x;
    }
  }

  /** The plan of a run: one decision per desired task, in order, then one
      archive attempt per completed id, in order. */
  function Plan(tasks: seq<Task>, current: seq<Snapshot>, users: seq<User>, normalize: Arg -> string)
    : seq<Option<Request>>
  {
    Decisions(tasks, current, users, normalize) + Archives(CompletedIds(current, tasks), current, normalize)
  }

  /** The decision for each desired task. */
  function Decisions(tasks: seq<Task>, current: seq<Snapshot>, users: seq<User>, normalize: Arg -> string)
    : seq<Option<Request>>
  {
    seq(|tasks|, i requires 0 <= i < |tasks| => Decide(tasks[i], current, users, normalize))
  }

  /** The archive attempt for each completed id. */
  function Archives(done: seq<string>, current: seq<Snapshot>, normalize: Arg -> string): seq<Option<Request>>
  {
    seq(|done|, j requires 0 <= j < |done| => ArchiveTask(done[j], current, normalize))
  }

  /** The plan holds exactly one decision per desired task, at the task's
      position, followed by exactly one archive attempt per completed id. */
  lemma PlanShape(tasks: seq<Task>, current: seq<Snapshot>, users: seq<User>, normalize: Arg -> string)
    ensures var plan, done := Plan(tasks, current, users, normalize), CompletedIds(current, tasks);
      && |plan| == |tasks| + |done|
      && (forall i :: 0 <= i < |tasks| ==> plan[i] == Decide(tasks[i], current, users, normalize))
      && (forall j :: 0 <= j < |done| ==> plan[|tasks| + j] == ArchiveTask(done[j], current, normalize))
  {
  }

  /** The decisions are creates and updates only, and every completed id is
      archived: it comes from a snapshot, so an archive request is issued
      for each of them. */
  lemma PlanKinds(tasks: seq<Task>, current: seq<Snapshot>, users: seq<User>, normalize: Arg -> string)
    ensures var plan := Plan(tasks, current, users, normalize);
      forall i :: 0 <= i < |tasks| ==> plan[i].None? || plan[i].value.Create? || plan[i].value.Update?
    ensures var plan := Plan(tasks, current, users, normalize);
      forall k :: |tasks| <= k < |plan| ==> plan[k].Some? && plan[k].value.Archive?
  {
    PlanShape(tasks, current, users, normalize);
    var plan, done := Plan(tasks, current, users, normalize), CompletedIds(current, tasks);
    forall k | |tasks| <= k < |plan|
      ensures plan[k].Some? && plan[k].value.Archive?
    {
      var id := done[k - |tasks|];
      assert plan[|tasks| + (k - |tasks|)] == ArchiveTask(id, current, normalize);
      CompletedSpec(current, tasks, id);
      ArchiveTaskSpec(id, current, normalize);
    }
  }

  /** Remote ids are not assumed unique: an id carried by two snapshots and
      by no desired task is completed at least twice (and, by
      `ArchiveTaskSpec`, each attempt targets the first such snapshot). */
  lemma DuplicateRemoteIds(current: seq<Snapshot>, tasks: seq<Task>, i: int, j: int)
    requires 0 <= i < j < |current| && current[i].id == current[j].id
    requires forall k :: 0 <= k < |tasks| ==> tasks[k].id != current[i].id
    ensures multiset(CompletedIds(current, tasks))[current[i].id] >= 2
  {
    var x, ids, keep := current[i].id, SnapshotIds(current), TaskIds(tasks);
    assert x !in keep;
    assert ids == ids[..j] + ids[j..];
    assert ids[..j][i] == x;
    assert ids[j..][0] == x;
    assert multiset(ids)[x] == multiset(ids[..j])[x] + multiset(ids[j..])[x];
    AbsentCount(ids, keep, x);
  }

  /** The task of the first scenario below. */
  const NewTask := Task("T1", Text("x"), Text("http://a"), None, None, None, None, None, None, None)

  /** Its properties as a new page: title, description and link. */
  lemma NewTaskPatch(normalize: Arg -> string)
    ensures Patch(NewTask, true, NoSnapshot, normalize)
         == map[Id := Title(Text("T1")), Description := RichText("x"), Link := Url(Text("http://a"))]
  {
    var p := Patch(NewTask, true, NoSnapshot, normalize);
    var expected := map[Id := Title(Text("T1")), Description := RichText("x"), Link := Url(Text("http://a"))];
    forall key ensures (key in p <==> key in expected) && (key in p ==> p[key] == expected[key]) {
      PatchEntry(key, NewTask, true, NoSnapshot, normalize);
    }
  }

  /** A desired task with a description and a link and no remote snapshot
      yields one create carrying its title, description and link. */
  lemma NewTaskScenario(normalize: Arg -> string)
    ensures Plan([NewTask], [], [], normalize)
         == [Some(Create(map[Id := Title(Text("T1")), Description := RichText("x"), Link := Url(Text("http://a"))]))]
  {
    assert ResolveUser(NewTask, []) == NewTask;
    NewTaskPatch(normalize);
    assert SnapshotIds([]) == [];
    assert CompletedIds([], [NewTask]) == [];
  }

  /** The task and the snapshot of the second scenario below. */
  const ChangedTask := Task("T1", Missing, Missing, None, None, Some("M2"), None, None, None, None)
  const OldSnapshot := Snapshot("p1", "T1", None, None, Some("M1"), None, None, None, None)

  /** Its properties as an update: the new milestone, and the title and the
      (empty) description, which the builder always writes. */
  lemma ChangedMilestonePatch(normalize: Arg -> string)
    ensures Patch(ChangedTask, false, OldSnapshot, normalize)
         == map[Id := Title(Text("T1")), Description := RichText(""), Milestone := Select("M2")]
  {
    var p := Patch(ChangedTask, false, OldSnapshot, normalize);
    var expected := map[Id := Title(Text("T1")), Description := RichText(""), Milestone := Select("M2")];
    forall key ensures (key in p <==> key in expected) && (key in p ==> p[key] == expected[key]) {
      PatchEntry(key, ChangedTask, false, OldSnapshot, normalize);
    }
  }

  /** A desired task whose milestone changed yields one update of its page. */
  lemma ChangedMilestoneScenario(normalize: Arg -> string)
    ensures Plan([ChangedTask], [OldSnapshot], [], normalize)
         == [Some(Update("p1", map[Id := Title(Text("T1")), Description := RichText(""), Milestone := Select("M2")]))]
  {
    assert ResolveUser(ChangedTask, []) == ChangedTask;
    assert IsFirst([OldSnapshot], "T1", 0);
    DecideUpdate(ChangedTask, [OldSnapshot], [], normalize, 0);
    ChangedMilestonePatch(normalize);
    assert SnapshotIds([OldSnapshot]) == ["T1"];
    assert TaskIds([ChangedTask]) == ["T1"];
    assert Absent(["T1"], ["T1"]) == Absent([], ["T1"]);
    assert CompletedIds([OldSnapshot], [ChangedTask]) == [];
  }

  /** The task of the third scenario below: its description is `null`. */
  const NullDescriptionTask := Task("T2", Null, Text("http://b"), None, None, None, None, None, None, None)

  /** A desired task with a `null` description on an empty remote database
      issues no request: the mapper's TypeError is caught by `resolveTask`. */
  lemma NullDescriptionScenario(normalize: Arg -> string)
    ensures Plan([NullDescriptionTask], [], [], normalize) == [None]
  {
    DecideThrows(NullDescriptionTask, [], [], normalize);
    assert SnapshotIds([]) == [];
    assert CompletedIds([], [NullDescriptionTask]) == [];
  }

  /** A new page whose link is `null` is sent with `url: null`, not with `''`. */
  lemma NullLinkScenario(item: Task, normalize: Arg -> string)
    requires item.link.Null? && !Throws(item, normalize)
    ensures Build(item, true, NoSnapshot, normalize) == Props(Patch(item, true, NoSnapshot, normalize))
    ensures Link in Patch(item, true, NoSnapshot, normalize)
    ensures Patch(item, true, NoSnapshot, normalize)[Link] == Url(Null)
  {
    PatchEntry(Link, item, true, NoSnapshot, normalize);
    TableValues(item, normalize);
  }

  /** What calling `addTask` or `updateTask` does: it returns a request (or
      `undefined`), or it throws the error of `createProperties`. */
  datatype Outcome = Returned(request: Option<Request>) | Threw

  /** `addTask(item)`: `createProperties` runs before the `try`, so its
      error reaches the caller. */
  method AddTask(item: Task, normalize: Arg -> string) returns (outcome: Outcome)
    ensures Throws(item, normalize) ==> outcome == Threw
    ensures !Throws(item, normalize) ==> outcome == Returned(Some(Create(Patch(item, true, NoSnapshot, normalize))))
  {
    var properties := CreateProperties(item, true, NoSnapshot, normalize);
    match properties
    case Thrown => outcome := Threw;
    case Props(p) => outcome := Returned(Some(Create(p)));
  }

  /** `updateTask(item, currentTask)`: nothing is issued for an empty page
      id; otherwise the error of `createProperties` reaches the caller. */
  method UpdateTask(item: Task, current: Snapshot, normalize: Arg -> string) returns (outcome: Outcome)
    ensures current.pageId == "" ==> outcome == Returned(None)
    ensures current.pageId != "" && Throws(item, normalize) ==> outcome == Threw
    ensures current.pageId != "" && !Throws(item, normalize) ==>
            outcome == Returned(Some(Update(current.pageId, Patch(item, false, current, normalize))))
  {
    outcome := Returned(None);
    var pageId := current.pageId;
    if pageId != "" {
      var properties := CreateProperties(item, false, current, normalize);
      match properties
      case Thrown => outcome := Threw;
      case Props(p) => outcome := Returned(Some(Update(pageId, p)));
    }
  }

  /** `resolveTask(item, currentTasks, users)`, which assigns the resolved
      user id to `item` before deciding and turns an error into `undefined`. */
  method ResolveTask(item: Task, current: seq<Snapshot>, users: seq<User>, normalize: Arg -> string)
    returns (request: Option<Request>)
    ensures request == Decide(item, current, users, normalize)
  {
    var currentTask := FindSnapshot(current, item.id);
    var user := FindUser(users, item.user);
    var task := item;
    if user.Some? {
      task := task.(userId := Some(users[user.value].id));
    }
    var outcome;
    if currentTask.None? {
      outcome := AddTask(task, normalize);
    } else {
      outcome := UpdateTask(task, current[currentTask.value], normalize);
    }
    match outcome
    case Threw => request := None;
    case Returned(r) => request := r;
  }

  /** `tasks.forEach(item => promises.push(resolveTask(item, currentTasks, users)))`. */
  method ResolveAll(tasks: seq<Task>, current: seq<Snapshot>, users: seq<User>, normalize: Arg -> string)
    returns (requests: seq<Option<Request>>)
    ensures requests == Decisions(tasks, current, users, normalize)
  {
    requests := [];
    var i := 0;
    while i < |tasks|
      invariant 0 <= i <= |tasks|
      invariant |requests| == i
      invariant forall k :: 0 <= k < i ==> requests[k] == Decide(tasks[k], current, users, normalize)
    {
      var request := ResolveTask(tasks[i], current, users, normalize);
      requests := requests + [request];
      i := i + 1;
    }
  }

  /** `completedTasks.forEach(item => promises.push(archiveTask(item, currentTasks)))`. */
  method ArchiveAll(done: seq<string>, current: seq<Snapshot>, normalize: Arg -> string)
    returns (requests: seq<Option<Request>>)
    ensures requests == Archives(done, current, normalize)
  {
    requests := [];
    var j := 0;
    while j < |done|
      invariant 0 <= j <= |done|
      invariant |requests| == j
      invariant forall k :: 0 <= k < j ==> requests[k] == ArchiveTask(done[k], current, normalize)
    {
      requests := requests + [ArchiveTask(done[j], current, normalize)];
      j := j + 1;
    }
  }

  /** The top level of the script: with a non-empty desired list and a fetch
      whose every page flattens, it pushes one request per desired task and
      then one per completed id; otherwise it issues nothing. */
  method Sync(tasks: seq<Task>, pages: seq<Page>, users: seq<User>, normalize: Arg -> string)
    returns (plan: seq<Option<Request>>)
    ensures tasks == [] ==> plan == []
    ensures FlattenPages(pages).FlattenError? ==> plan == []
    ensures tasks != [] && FlattenPages(pages).Flat? ==>
            plan == Plan(tasks, FlattenPages(pages).value, users, normalize)
  {
    plan := [];
    if |tasks| == 0 {
      return;
    }
    var fetched := FlattenPages(pages);
    if fetched.FlattenError? {
      return;
    }
    var current := fetched.value;
    var done := CompletedIds(current, tasks);
    var decisions := ResolveAll(tasks, current, users, normalize);
    var archives := ArchiveAll(done, current, normalize);
    plan := decisions + archives;
  }
}
