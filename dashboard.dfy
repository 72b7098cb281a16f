/** The dashboard page (app/dashboard/page.tsx): loading the snapshot of
    projects and tasks, creating a project, and the statistics and per-project
    progress it shows. Every remote call is an outcome passed in. */
module Dashboard {
  import opened Wrappers
  import opened JsString
  import opened Seqs
  import opened Domain

  /** The `data` of a resolved response: a JSON array, an object whose list
      field (`projects` or `tasks`) may be missing, or `null`. */
  datatype Body<T> = ListBody(items: seq<T>) | RecordBody(field: Option<seq<T>>) | NullBody

  /** A remote read that resolved with a body, or rejected. */
  datatype Reply<T> = Ok(body: Body<T>) | Failed

  /** `Array.isArray(data) ? data : (data.field || [])`, for a body that is
      not `null`. */
  function ListIn<T>(b: Body<T>): seq<T> {
    match b
    case ListBody(items) => items
    case RecordBody(Some(items)) => items
    case RecordBody(None) => []
    case NullBody => []
  }

  /** Reading the list field of a `null` body throws a TypeError. */
  predicate Throws<T>(r: Reply<T>) {
    r.Ok? && r.body.NullBody?
  }

  /** The tasks of one per-project response; a rejected fetch was replaced by
      `{ data: [] }`. */
  function TasksIn(r: Reply<Task>): seq<Task> {
    if r.Failed? then [] else ListIn(r.body)
  }

  /** An array body is read as itself, an object body as its list field, and
      an object body without that field as no elements. */
  lemma ListInShapes<T>(items: seq<T>)
    ensures ListIn(ListBody(items)) == items
    ensures ListIn(RecordBody(Some(items))) == items
    ensures ListIn(Body<T>.RecordBody(None)) == []
  {
  }

  /** A rejected task fetch reads as no tasks; a resolved one as its body's
      list. */
  lemma TasksInShapes(b: Body<Task>)
    ensures TasksIn(Failed) == []
    ensures TasksIn(Ok(b)) == ListIn(b)
  {
  }

  /** `{ ...task, project_id: id }` for every task of `l`, in order. */
  function Stamp(l: seq<Task>, id: int): (r: seq<Task>)
    ensures |r| == |l|
    ensures forall j :: 0 <= j < |l| ==> r[j] == l[j].(projectId := Some(id))
  {
    seq(|l|, j requires 0 <= j < |l| => l[j].(projectId := Some(id)))
  }

  /** The stamped task list of each project, indexed like the projects. */
  function Blocks(ps: seq<Project>, rs: seq<Reply<Task>>): (b: seq<seq<Task>>)
    requires |ps| == |rs|
    ensures |b| == |ps|
    ensures forall i :: 0 <= i < |ps| ==> b[i] == Stamp(TasksIn(rs[i]), ps[i].id)
  {
    seq(|ps|, i requires 0 <= i < |ps| => Stamp(TasksIn(rs[i]), ps[i].id))
  }

  /** The merged task list: every project's tasks, stamped with its id, in
      project order and then response order. */
  function Merged(ps: seq<Project>, rs: seq<Reply<Task>>): seq<Task>
    requires |ps| == |rs|
  {
    Flatten(Blocks(ps, rs))
  }

  /** No response has a `null` body, so the merge loop runs to the end. */
  predicate AllReadable(rs: seq<Reply<Task>>) {
    forall i :: 0 <= i < |rs| ==> !Throws(rs[i])
  }

  /** The inner `forEach` of `fetchData`: pushes every task of one response,
      stamped with the project id, onto `allTasks`. */
  method PushStamped(allTasks: seq<Task>, tasksArray: seq<Task>, id: int) returns (r: seq<Task>)
    ensures r == allTasks + Stamp(tasksArray, id)
  {
    r := allTasks;
    var j := 0;
    while j < |tasksArray|
      invariant 0 <= j <= |tasksArray|
      invariant r == allTasks + Stamp(tasksArray[..j], id)
    {
      r := r + [tasksArray[j].(projectId := Some(id))];
      StampSnoc(tasksArray, j, id);
      j := j + 1;
    }
    assert tasksArray[..j] == tasksArray;
  }

  /** The nested `forEach` loops of `fetchData` that push every task of every
      response, stamped with its project's id, onto `allTasks`. `ok` is false
      when reading a `null` response body throws. */
  method MergeResponses(ps: seq<Project>, rs: seq<Reply<Task>>) returns (ok: bool, allTasks: seq<Task>)
    requires |ps| == |rs|
    ensures ok == AllReadable(rs)
    ensures ok ==> allTasks == Merged(ps, rs)
  {
    allTasks := [];
    var index := 0;
    while index < |rs|
      invariant 0 <= index <= |rs|
      invariant forall k :: 0 <= k < index ==> !Throws(rs[k])
      invariant allTasks == Flatten(Blocks(ps[..index], rs[..index]))
    {
      if Throws(rs[index]) {
        return false, allTasks;
      }
      var tasksArray := TasksIn(rs[index]);
      var id := ps[index].id;
      allTasks := PushStamped(allTasks, tasksArray, id);
      BlocksSnoc(ps, rs, index);
      FlattenSnoc(Blocks(ps[..index], rs[..index]), Stamp(tasksArray, id));
      index := index + 1;
    }
    assert ps[..index] == ps && rs[..index] == rs;
    ok := true;
  }

  lemma StampSnoc(l: seq<Task>, j: nat, id: int)
    requires j < |l|
    ensures Stamp(l[..j + 1], id) == Stamp(l[..j], id) + [l[j].(projectId := Some(id))]
  {
  }

  lemma BlocksSnoc(ps: seq<Project>, rs: seq<Reply<Task>>, i: nat)
    requires |ps| == |rs| && i < |ps|
    ensures Blocks(ps[..i + 1], rs[..i + 1]) == Blocks(ps[..i], rs[..i]) + [Stamp(TasksIn(rs[i]), ps[i].id)]
  {
  }

  /** The merged list holds exactly the stamped tasks: each comes from the
      response at some index `i`, carries the id of project `i` in place of any
      `project_id` it had, and keeps every other field. */
  lemma MergedMembers(ps: seq<Project>, rs: seq<Reply<Task>>, t: Task)
    requires |ps| == |rs|
    ensures t in Merged(ps, rs) <==>
      exists i, j :: 0 <= i < |ps| && 0 <= j < |TasksIn(rs[i])| &&
        t == TasksIn(rs[i])[j].(projectId := Some(ps[i].id))
  {
    var b := Blocks(ps, rs);
    InFlatten(b, t);
    if t in Merged(ps, rs) {
      var i :| 0 <= i < |b| && t in b[i];
      var j :| 0 <= j < |b[i]| && b[i][j] == t;
      assert t == TasksIn(rs[i])[j].(projectId := Some(ps[i].id));
    }
    if exists i, j :: 0 <= i < |ps| && 0 <= j < |TasksIn(rs[i])| &&
        t == TasksIn(rs[i])[j].(projectId := Some(ps[i].id)) {
      var i, j :| 0 <= i < |ps| && 0 <= j < |TasksIn(rs[i])| &&
        t == TasksIn(rs[i])[j].(projectId := Some(ps[i].id));
      assert t == b[i][j];
    }
  }

  /** Every merged task belongs to one of the loaded projects. */
  lemma MergedOwned(ps: seq<Project>, rs: seq<Reply<Task>>, t: Task)
    requires |ps| == |rs| && t in Merged(ps, rs)
    ensures exists i :: 0 <= i < |ps| && t.projectId == Some(ps[i].id)
  {
    MergedMembers(ps, rs, t);
  }

  /** The sum of the lengths of the per-project responses. */
  function ResponseTotal(rs: seq<Reply<Task>>): nat {
    if rs == [] then 0 else |TasksIn(rs[0])| + ResponseTotal(rs[1..])
  }

  /** The merged list is exactly as long as all responses together. */
  lemma {:induction false} MergedLength(ps: seq<Project>, rs: seq<Reply<Task>>)
    requires |ps| == |rs|
    ensures |Merged(ps, rs)| == ResponseTotal(rs)
  {
    if rs != [] {
      var b := Blocks(ps, rs);
      assert b[1..] == Blocks(ps[1..], rs[1..]);
      MergedLength(ps[1..], rs[1..]);
      assert |Flatten(b)| == TotalLength(b) == |b[0]| + TotalLength(b[1..]);
    }
  }

  /** The merge splits at any index: the tasks of the projects before it, then
      that project's, then those of the projects after it. */
  lemma MergedSplit(ps: seq<Project>, rs: seq<Reply<Task>>, i: nat)
    requires |ps| == |rs| && i < |ps|
    ensures Merged(ps, rs) ==
      Merged(ps[..i], rs[..i]) + Stamp(TasksIn(rs[i]), ps[i].id) + Merged(ps[i + 1..], rs[i + 1..])
  {
    var b := Blocks(ps, rs);
    assert b == Blocks(ps[..i], rs[..i]) + [b[i]] + Blocks(ps[i + 1..], rs[i + 1..]);
    FlattenAppend(Blocks(ps[..i], rs[..i]) + [b[i]], Blocks(ps[i + 1..], rs[i + 1..]));
    FlattenSnoc(Blocks(ps[..i], rs[..i]), b[i]);
  }

  /** A rejected task fetch does not abort the merge: that project contributes
      nothing and the tasks of all the other projects are still merged, in
      order. */
  lemma FailedFetchTolerated(ps: seq<Project>, rs: seq<Reply<Task>>, i: nat)
    requires |ps| == |rs| && i < |rs| && rs[i] == Failed
    ensures Merged(ps, rs) == Merged(ps[..i], rs[..i]) + Merged(ps[i + 1..], rs[i + 1..])
  {
    MergedSplit(ps, rs, i);
  }

  /** Two projects, the second of whose task fetch is rejected, the first
      readable: the load yields exactly the first project's tasks, stamped
      with its id. */
  lemma SecondFetchFails(p1: Project, p2: Project, r1: Reply<Task>)
    requires !Throws(r1)
    ensures AllReadable([r1, Failed])
    ensures Merged([p1, p2], [r1, Failed]) == Stamp(TasksIn(r1), p1.id)
  {
    var ps, rs := [p1, p2], [r1, Failed];
    MergedSplit(ps, rs, 0);
    assert Blocks(ps[1..], rs[1..]) == [[]];
    var none: seq<seq<Task>> := [[]];
    assert Flatten(none) == [] + Flatten(none[1..]);
  }

  predicate DistinctIds(ps: seq<Project>) {
    forall i, j :: 0 <= i < j < |ps| ==> ps[i].id != ps[j].id
  }

  /** The filter `t.project_id === project.id`. */
  function OwnedBy(id: int): Task -> bool {
    (t: Task) => t.projectId == Some(id)
  }

  /** With distinct project ids, the tasks a project card shows after a load
      are exactly that project's own response, stamped. */
  lemma ProjectTasksAfterLoad(ps: seq<Project>, rs: seq<Reply<Task>>, i: nat)
    requires |ps| == |rs| && i < |ps| && DistinctIds(ps)
    ensures Filter(Merged(ps, rs), OwnedBy(ps[i].id)) == Stamp(TasksIn(rs[i]), ps[i].id)
  {
    var b := Blocks(ps, rs);
    var p := OwnedBy(ps[i].id);
    FilterAll(b[i], p);
    forall j | 0 <= j < |b| && j != i ensures Filter(b[j], p) == [] {
      FilterNone(b[j], p);
    }
    FilterFlattenSingle(b, p, i);
  }

  /** The page's state that `fetchData` writes. */
  datatype Snapshot = Snapshot(projects: seq<Project>, tasks: seq<Task>, loading: bool)

  /** One outcome per project: `Promise.all` yields one response per element
      of the project list. */
  predicate RepliesFit(pr: Reply<Project>, rs: seq<Reply<Task>>) {
    pr.Ok? && !pr.body.NullBody? ==> |rs| == |ListIn(pr.body)|
  }

  /** The state after `fetchData`: without a token nothing happens; a rejected
      or `null` project response leaves projects and tasks as they were; the
      project list is stored before the tasks are fetched; tasks are replaced
      only when there is at least one project and the merge completes; in every
      case that passes the token check `loading` ends false. */
  function AfterFetch(s: Snapshot, user: Option<User>, pr: Reply<Project>, rs: seq<Reply<Task>>): (r: Snapshot)
    requires RepliesFit(pr, rs)
    ensures !TruthyOpt(TokenOf(user)) ==> r == s
    ensures TruthyOpt(TokenOf(user)) ==> !r.loading
    ensures TruthyOpt(TokenOf(user)) && (pr.Failed? || pr.body.NullBody?) ==>
      r.projects == s.projects && r.tasks == s.tasks
    ensures TruthyOpt(TokenOf(user)) && pr.Ok? && !pr.body.NullBody? ==>
      r.projects == ListIn(pr.body) &&
      (if |ListIn(pr.body)| > 0 && AllReadable(rs) then r.tasks == Merged(ListIn(pr.body), rs)
       else r.tasks == s.tasks)
    ensures r.projects == [] ==> r.tasks == s.tasks
  {
    if !TruthyOpt(TokenOf(user)) then s
    else if pr.Failed? || pr.body.NullBody? then s.(loading := false)
    else
      var ps := ListIn(pr.body);
      if |ps| > 0 && AllReadable(rs) then Snapshot(ps, Merged(ps, rs), false)
      else Snapshot(ps, s.tasks, false)
  }

  /** A load with a token, a readable project list and readable task
      responses replaces the whole snapshot. */
  lemma FullLoad(s: Snapshot, user: Option<User>, ps: seq<Project>, rs: seq<Reply<Task>>)
    requires TruthyOpt(TokenOf(user)) && |ps| == |rs| && |ps| > 0 && AllReadable(rs)
    ensures AfterFetch(s, user, Ok(ListBody(ps)), rs) == Snapshot(ps, Merged(ps, rs), false)
    ensures AfterFetch(s, user, Ok(RecordBody(Some(ps))), rs) == Snapshot(ps, Merged(ps, rs), false)
  {
  }

  /** An object body without a `projects` field reads as no projects, and the
      previous tasks stay. */
  lemma MissingProjectsField(s: Snapshot, user: Option<User>)
    requires TruthyOpt(TokenOf(user))
    ensures AfterFetch(s, user, Ok(RecordBody(None)), []) == Snapshot([], s.tasks, false)
  {
  }

  /** An empty project array loads no projects and keeps the previous tasks. */
  lemma EmptyProjectList(s: Snapshot, user: Option<User>)
    requires TruthyOpt(TokenOf(user))
    ensures AfterFetch(s, user, Ok(ListBody([])), []) == Snapshot([], s.tasks, false)
  {
  }

  /** When one task response has a `null` body, reading it throws: the new
      projects are already stored, but the previous tasks stay. */
  lemma NullTaskBody(s: Snapshot, user: Option<User>, ps: seq<Project>, rs: seq<Reply<Task>>, i: nat)
    requires TruthyOpt(TokenOf(user)) && |ps| == |rs| && i < |rs| && rs[i] == Ok(NullBody)
    ensures AfterFetch(s, user, Ok(ListBody(ps)), rs) == Snapshot(ps, s.tasks, false)
  {
    assert Throws(rs[i]);
  }

  /** The outcome of `handleCreateProject`. */
  datatype CreateResult =
    | Skipped                          // blank name: returns without a request
    | Rejected(sent: Option<string>)   // the promise rejects; `sent` is the name if the post was issued
    | Created(name: string)            // the post succeeded with this name

  /** What `useEffect` does when the session changes. */
  datatype Effect = Wait | RedirectHome | Load

  /** While the session is unresolved the page waits; once resolved it
      redirects when no one is signed in and loads otherwise. */
  function OnSessionChange(authLoading: bool, user: Option<User>): (e: Effect)
    ensures e == Wait <==> authLoading
    ensures e == RedirectHome <==> !authLoading && user.None?
    ensures e == Load <==> !authLoading && user.Some?
  {
    if authLoading then Wait else if user.None? then RedirectHome else Load
  }

  class DashboardPage {
    var projects: seq<Project>
    var tasks: seq<Task>
    var loading: bool
    var newProjectName: string

    /** The initial state: no projects, no tasks, loading. */
    constructor ()
      ensures projects == [] && tasks == [] && loading && newProjectName == ""
    {
      projects := [];
      tasks := [];
      loading := true;
      newProjectName := "";
    }

    function View(): Snapshot
      reads this
    {
      Snapshot(projects, tasks, loading)
    }

    /** `fetchData`. */
    method FetchData(user: Option<User>, projectReply: Reply<Project>, taskReplies: seq<Reply<Task>>)
      requires RepliesFit(projectReply, taskReplies)
      modifies this
      ensures View() == AfterFetch(old(View()), user, projectReply, taskReplies)
      ensures newProjectName == old(newProjectName)
    {
      if !TruthyOpt(TokenOf(user)) {
        return;
      }
      loading := true;
      if projectReply.Failed? || projectReply.body.NullBody? {
        loading := false;
        return;
      }
      var projectsArray := ListIn(projectReply.body);
      projects := projectsArray;
      if |projectsArray| > 0 {
        var ok, allTasks := MergeResponses(projectsArray, taskReplies);
        if ok {
          tasks := allTasks;
        }
      }
      loading := false;
    }

    /** `handleCreateProject`: a blank name issues no request and changes
        nothing; without a user reading `user.token` throws; a rejected post
        changes nothing; a successful post sends the name as typed, clears the
        input and reloads. */
    method CreateProject(user: Option<User>, postSucceeds: bool,
                         projectReply: Reply<Project>, taskReplies: seq<Reply<Task>>)
      returns (result: CreateResult)
      requires RepliesFit(projectReply, taskReplies)
      modifies this
      ensures AllSpace(old(newProjectName)) ==> result == Skipped && unchanged(this)
      ensures !AllSpace(old(newProjectName)) && user.None? ==> result == Rejected(None) && unchanged(this)
      ensures !AllSpace(old(newProjectName)) && user.Some? && !postSucceeds ==>
        result == Rejected(Some(old(newProjectName))) && unchanged(this)
      ensures !AllSpace(old(newProjectName)) && user.Some? && postSucceeds ==>
        result == Created(old(newProjectName)) && newProjectName == "" &&
        View() == AfterFetch(old(View()), user, projectReply, taskReplies)
    {
      if Trim(newProjectName) == "" {
        return Skipped;
      }
      if user.None? {
        return Rejected(None);
      }
      if !postSucceeds {
        return Rejected(Some(newProjectName));
      }
      result := Created(newProjectName);
      newProjectName := "";
      FetchData(user, projectReply, taskReplies);
    }
  }

  /** The three counters at the top of the page. */
  datatype Stats = Stats(totalProjects: nat, totalTasks: nat, completedTasks: nat)

  /** The counters: the completed count is the number of tasks whose status
      is 'Done'; together with the tasks that are not done it makes up all
      tasks, so it never exceeds the total. */
  function StatsOf(projects: seq<Project>, tasks: seq<Task>): (r: Stats)
    ensures r.totalProjects == |projects| && r.totalTasks == |tasks|
    ensures r.completedTasks + |Filter(tasks, IsPending)| == r.totalTasks
    ensures r.completedTasks <= r.totalTasks
  {
    FilterSplit(tasks, IsDone, IsPending);
    Stats(|projects|, |tasks|, |Filter(tasks, IsDone)|)
  }

  /** `total > 0 ? Math.round(done / total * 100) : 0`, with exact arithmetic
      and halves rounded up: the result is the integer nearest to
      100 * done / total. */
  function Percent(done: nat, total: nat): (r: nat)
    ensures total == 0 ==> r == 0
    ensures total > 0 ==> 2 * total * r <= 200 * done + total < 2 * total * (r + 1)
    ensures done <= total ==> r <= 100
  {
    if total > 0 then
      RoundingBounds(done, total);
      (200 * done + total) / (2 * total)
    else 0
  }

  /** The facts about the half-up quotient that `Percent` promises. */
  lemma RoundingBounds(done: nat, total: nat)
    requires total > 0
    ensures var r := (200 * done + total) / (2 * total);
      2 * total * r <= 200 * done + total < 2 * total * (r + 1) &&
      (done <= total ==> r <= 100)
  {
    var r := (200 * done + total) / (2 * total);
    DivBounds(200 * done + total, 2 * total);
    if done <= total {
      assert 2 * total * r < 2 * total * 101;
      MulLess(2 * total, r, 101);
    }
  }

  lemma DivBounds(a: nat, b: nat)
    requires b > 0
    ensures b * (a / b) <= a < b * (a / b + 1)
  {
  }

  lemma MulLess(k: nat, x: nat, y: nat)
    requires k > 0 && k * x < k * y
    ensures x < y
  {
  }

  /** The progress is 100 exactly when at most half a percent of the tasks is
      not done; in particular a project whose tasks are all done shows 100. */
  lemma HundredExactly(done: nat, total: nat)
    requires done <= total
    ensures Percent(done, total) == 100 <==> total > 0 && 200 * (total - done) <= total
    ensures total > 0 && done == total ==> Percent(done, total) == 100
  {
    if total > 0 {
      var r, k := Percent(done, total), 2 * total;
      assert k * r <= 200 * done + total < k * (r + 1);
      assert k * 100 == 200 * total && k * 101 == 202 * total;
      MulLess(k, r, 101);
      if 200 * (total - done) <= total {
        MulLess(k, 100, r + 1);
      } else {
        MulLess(k, r, 100);
      }
    }
  }

  /** 199 of 200 tasks done already shows 100. */
  lemma NearlyDoneShowsHundred()
    ensures Percent(199, 200) == 100
  {
    HundredExactly(199, 200);
  }

  /** The progress is 0 exactly when there are no tasks or less than half a
      percent of them are done. */
  lemma ZeroExactly(done: nat, total: nat)
    ensures Percent(done, total) == 0 <==> total == 0 || 200 * done < total
  {
    if total > 0 {
      var r, k := Percent(done, total), 2 * total;
      assert k * r <= 200 * done + total < k * (r + 1);
      if 200 * done < total {
        MulLess(k, r, 1);
      } else {
        MulLess(k, 1, r + 1);
      }
    }
  }

  /** One done out of three shows 33; one done out of two shows 50. */
  lemma PercentExamples()
    ensures Percent(1, 3) == 33 && Percent(1, 2) == 50 && Percent(2, 3) == 67
  {
  }

  /** What a project card shows: done count, task count and rounded progress. */
  datatype Card = Card(done: nat, total: nat, percent: nat)

  /** The card of `project`: its tasks are those whose `project_id` is its id,
      its done count is the number of 'Done' tasks among them, at most all of
      them are done, and the progress is their rounded percentage, between 0
      and 100. */
  function CardOf(tasks: seq<Task>, project: Project): (c: Card)
    ensures c.total == |Filter(tasks, OwnedBy(project.id))|
    ensures c.done == |Filter(Filter(tasks, OwnedBy(project.id)), IsDone)|
    ensures c.percent == Percent(c.done, c.total)
    ensures c.done <= c.total
    ensures c.percent <= 100
    ensures c.total == 0 ==> c.percent == 0
  {
    var projectTasks := Filter(tasks, OwnedBy(project.id));
    var done := |Filter(projectTasks, IsDone)|;
    Card(done, |projectTasks|, Percent(done, |projectTasks|))
  }

  /** Stamping a list keeps its statuses, so it keeps the number of done tasks. */
  lemma {:induction false} StampKeepsDone(l: seq<Task>, id: int)
    ensures |Filter(Stamp(l, id), IsDone)| == |Filter(l, IsDone)|
  {
    if l != [] {
      assert Stamp(l, id) == [Stamp(l, id)[0]] + Stamp(l[1..], id);
      FilterAppend([Stamp(l, id)[0]], Stamp(l[1..], id), IsDone);
      StampKeepsDone(l[1..], id);
    }
  }

  /** After a load with distinct project ids, a project's card counts exactly
      the tasks of its own response and the done ones among them. */
  lemma CardAfterLoad(ps: seq<Project>, rs: seq<Reply<Task>>, i: nat)
    requires |ps| == |rs| && i < |ps| && DistinctIds(ps)
    ensures CardOf(Merged(ps, rs), ps[i]).total == |TasksIn(rs[i])|
    ensures CardOf(Merged(ps, rs), ps[i]).done == |Filter(TasksIn(rs[i]), IsDone)|
    ensures CardOf(Merged(ps, rs), ps[i]).percent ==
      Percent(|Filter(TasksIn(rs[i]), IsDone)|, |TasksIn(rs[i])|)
  {
    ProjectTasksAfterLoad(ps, rs, i);
    StampKeepsDone(TasksIn(rs[i]), ps[i].id);
  }

  /** A card shows 100 exactly when it has tasks and at most half a percent of
      them are not done, and 0 exactly when it has no tasks or fewer than half
      a percent of them are done. */
  lemma CardExtremes(tasks: seq<Task>, project: Project)
    ensures var c := CardOf(tasks, project);
      (c.percent == 100 <==> c.total > 0 && 200 * (c.total - c.done) <= c.total) &&
      (c.percent == 0 <==> c.total == 0 || 200 * c.done < c.total)
  {
    var c := CardOf(tasks, project);
    HundredExactly(c.done, c.total);
    ZeroExactly(c.done, c.total);
  }
}
