/** Project analytics (Downloads/notes/backend/analytics_routes.py): task and commit counts, the
    lines an edit touched, each member's contribution, the weekly report and the activity
    timeline. */
module Analytics {
  import opened Common
  import opened Seqs
  import opened Strs
  import opened Store
  import Collaboration
  import Chat

  /** `timedelta(days=7)`, in the clock's seconds. */
  const WEEK: int := 604800

  // ---------------------------------------------------------------- what is counted

  function TaskOf(projectId: int): Row<Task> -> bool {
    (x: Row<Task>) => x.val.projectId == Some(projectId)
  }

  function WithStatus(status: string): Row<Task> -> bool {
    (x: Row<Task>) => x.val.status == status
  }

  /** A finished task assigned to this user. */
  function AssignedDone(userId: int): Row<Task> -> bool {
    (x: Row<Task>) => x.val.assigneeId == Some(userId) && x.val.status == DONE
  }

  /** A finished task owned by this user. */
  function OwnedDone(userId: int): Row<Task> -> bool {
    (x: Row<Task>) => x.val.ownerId == userId && x.val.status == DONE
  }

  function ActivityOf(projectId: int): Row<Activity> -> bool {
    (a: Row<Activity>) => a.val.projectId == projectId
  }

  function ByUser(userId: int): Row<Activity> -> bool {
    (a: Row<Activity>) => a.val.userId == userId
  }

  /** What the project totals count as a commit. */
  predicate IsCommit(a: Row<Activity>) {
    a.val.kind in ["file_create", "file_edit", "version_create"]
  }

  /** What a member's contribution counts as a commit (no snapshots). */
  predicate IsAuthorship(a: Row<Activity>) {
    a.val.kind in ["file_create", "file_edit"]
  }

  predicate IsFileEdit(a: Row<Activity>) {
    a.val.kind == "file_edit"
  }

  predicate IsChat(a: Row<Activity>) {
    a.val.kind == "chat_message"
  }

  /** A file creation or edit by this user. */
  function AuthoredBy(userId: int): Row<Activity> -> bool {
    (a: Row<Activity>) => a.val.userId == userId && IsAuthorship(a)
  }

  /** A chat message by this user. */
  function ChattedBy(userId: int): Row<Activity> -> bool {
    (a: Row<Activity>) => a.val.userId == userId && IsChat(a)
  }

  predicate HasContent(a: Row<Activity>) {
    "content" in a.val.data
  }

  /** No task has two statuses, so the three status counts never exceed the tasks. */
  lemma {:induction false} StatusCountsBounded(tasks: seq<Row<Task>>)
    ensures Count(tasks, WithStatus(TODO)) + Count(tasks, WithStatus(IN_PROGRESS)) + Count(tasks, WithStatus(DONE)) <= |tasks|
  {
    if tasks != [] {
      StatusCountsBounded(tasks[1..]);
    }
  }

  // ---------------------------------------------------------------- lines changed

  /** One edit's share of `total_lines_changed`: the pieces of its "content" split at line
      breaks, none without content; a number there cannot be split and the handler fails. */
  function EditLines(a: Row<Activity>): (r: Result<nat>)
    ensures !HasContent(a) ==> r == Ok(0)
    ensures HasContent(a) && a.val.data["content"].Str? ==> r == Ok(CountChar(a.val.data["content"].s, '\n') + 1)
    ensures HasContent(a) && a.val.data["content"].Num? ==> r == Error(INTERNAL_SERVER_ERROR, "Internal Server Error")
  {
    if !HasContent(a) then Ok(0)
    else match a.val.data["content"]
      case Str(s) => SplitCount(s, '\n'); Ok(|Split(s, '\n')|)
      case Num(_) => Error(INTERNAL_SERVER_ERROR, "Internal Server Error")
  }

  /** The sum over the edits, or the failure of the first edit that cannot be counted. */
  function LinesChanged(edits: seq<Row<Activity>>): (r: Result<nat>)
    ensures r.Error? <==> exists i :: 0 <= i < |edits| && EditLines(edits[i]).Error?
    ensures r.Error? ==> r == Error(INTERNAL_SERVER_ERROR, "Internal Server Error")
    ensures r.Ok? ==> r.value >= Count(edits, HasContent)
    ensures (forall i :: 0 <= i < |edits| ==> !HasContent(edits[i])) ==> r == Ok(0)
  {
    if edits == [] then Ok(0)
    else
      assert forall i :: 1 <= i < |edits| ==> edits[1..][i - 1] == edits[i];
      match EditLines(edits[0])
      case Error(s, d) => Error(s, d)
      case Ok(n) =>
        match LinesChanged(edits[1..])
        case Error(s, d) => Error(s, d)
        case Ok(m) => Ok(n + m)
  }

  /** The line total over one more edit adds that edit's lines, and fails when either part does. */
  lemma {:induction false} LinesChangedSnoc(edits: seq<Row<Activity>>, a: Row<Activity>)
    ensures LinesChanged(edits + [a]).Ok? <==> LinesChanged(edits).Ok? && EditLines(a).Ok?
    ensures LinesChanged(edits + [a]).Ok? ==>
      LinesChanged(edits + [a]).value == LinesChanged(edits).value + EditLines(a).value
  {
    var e := edits + [a];
    if edits == [] {
      assert e == [a] && e[1..] == [];
    } else {
      assert e[0] == edits[0] && e[1..] == edits[1..] + [a];
      LinesChangedSnoc(edits[1..], a);
    }
  }

  /** The only "file_edit" activities the handlers record are those of `update_project_file`,
      which hold a path and a key but no content: over them the line total is always 0. */
  lemma {:induction false} HandlerEditsCountNoLines(edits: seq<Row<Activity>>)
    requires forall i :: 0 <= i < |edits| ==> edits[i].val.data.Keys == {"file_path", "file_id"}
    ensures LinesChanged(edits) == Ok(0)
  {
    forall i | 0 <= i < |edits|
      ensures !HasContent(edits[i])
    {
      assert "content" !in {"file_path", "file_id"};
    }
  }

  // ---------------------------------------------------------------- contributions

  datatype Contribution = Contribution(commits: nat, tasksCompleted: nat, messages: nat)

  /** `member.user.email if member.user else "Unknown"`. */
  function EmailOf(users: seq<Row<User>>, userId: int): (r: string)
    ensures Lookup(users, userId).Some? ==> r == Lookup(users, userId).value.email
    ensures Lookup(users, userId).None? ==> r == "Unknown"
  {
    match Lookup(users, userId)
    case None => "Unknown"
    case Some(u) => u.email
  }

  /** One user's entry: their file commits and chat messages among the project's activities,
      and the project's finished tasks that `done` attributes to them. */
  function Tally(acts: seq<Row<Activity>>, tasks: seq<Row<Task>>, userId: int, done: Row<Task> -> bool): (r: Contribution)
    ensures r.commits == Count(acts, AuthoredBy(userId))
    ensures r.messages == Count(acts, ChattedBy(userId))
    ensures r.tasksCompleted == Count(tasks, done)
    ensures r.commits + r.messages <= Count(acts, ByUser(userId))
  {
    var mine := Filter(acts, ByUser(userId));
    CountDisjoint(mine, IsAuthorship, IsChat);
    FilterFilter(acts, ByUser(userId), IsAuthorship, AuthoredBy(userId));
    FilterFilter(acts, ByUser(userId), IsChat, ChattedBy(userId));
    Contribution(Count(mine, IsAuthorship), Count(tasks, done), Count(mine, IsChat))
  }

  function MemberTally(acts: seq<Row<Activity>>, tasks: seq<Row<Task>>, m: Member): Contribution {
    Tally(acts, tasks, m.userId, AssignedDone(m.userId))
  }

  /** The dictionary the loop over `project.members` builds: one key per member's email, a
      later member overwriting an earlier one with the same email. */
  function MemberEntries(users: seq<Row<User>>, acts: seq<Row<Activity>>, tasks: seq<Row<Task>>,
                         ms: seq<Row<Member>>): (r: map<string, Contribution>)
    ensures r.Keys == set i | 0 <= i < |ms| :: EmailOf(users, ms[i].val.userId)
  {
    if ms == [] then map[]
    else
      var m := ms[|ms| - 1].val;
      var earlier := MemberEntries(users, acts, tasks, ms[..|ms| - 1]);
      assert forall i :: 0 <= i < |ms| - 1 ==> ms[..|ms| - 1][i] == ms[i];
      earlier[EmailOf(users, m.userId) := MemberTally(acts, tasks, m)]
  }

  /** A member whose email no later member shares keeps their own entry. */
  lemma {:induction false} LastMemberWins(users: seq<Row<User>>, acts: seq<Row<Activity>>, tasks: seq<Row<Task>>,
                                          ms: seq<Row<Member>>, j: nat)
    requires j < |ms|
    requires forall l :: j < l < |ms| ==> EmailOf(users, ms[l].val.userId) != EmailOf(users, ms[j].val.userId)
    ensures MemberEntries(users, acts, tasks, ms)[EmailOf(users, ms[j].val.userId)] == MemberTally(acts, tasks, ms[j].val)
  {
    if j < |ms| - 1 {
      var front := ms[..|ms| - 1];
      assert front[j] == ms[j];
      assert forall l :: j < l < |front| ==> front[l] == ms[l];
      LastMemberWins(users, acts, tasks, front, j);
    }
  }

  /** No later member shares member `j`'s email. */
  predicate LastWithEmail(users: seq<Row<User>>, ms: seq<Row<Member>>, j: nat)
    requires j < |ms|
  {
    forall l :: j < l < |ms| ==> EmailOf(users, ms[l].val.userId) != EmailOf(users, ms[j].val.userId)
  }

  lemma MembersKeepEntries(users: seq<Row<User>>, acts: seq<Row<Activity>>, tasks: seq<Row<Task>>, ms: seq<Row<Member>>)
    ensures forall j :: 0 <= j < |ms| ==> EmailOf(users, ms[j].val.userId) in MemberEntries(users, acts, tasks, ms)
    ensures forall j :: 0 <= j < |ms| && LastWithEmail(users, ms, j) ==>
      MemberEntries(users, acts, tasks, ms)[EmailOf(users, ms[j].val.userId)] == MemberTally(acts, tasks, ms[j].val)
  {
    forall j | 0 <= j < |ms| && LastWithEmail(users, ms, j)
      ensures MemberEntries(users, acts, tasks, ms)[EmailOf(users, ms[j].val.userId)] == MemberTally(acts, tasks, ms[j].val)
    {
      LastMemberWins(users, acts, tasks, ms, j);
    }
  }

  /** `member_contributions`: the members' entries, then the owner's, written last. */
  function Contributions(t: Tables, project: Project, projectId: int): (r: map<string, Contribution>)
    ensures var acts, tasks := Filter(t.activities, ActivityOf(projectId)), Filter(t.tasks, TaskOf(projectId));
      var ms := Filter(t.members, Collaboration.MemberOf(projectId));
      forall j :: 0 <= j < |ms| && EmailOf(t.users, ms[j].val.userId) != EmailOf(t.users, project.ownerId) && LastWithEmail(t.users, ms, j) ==>
        EmailOf(t.users, ms[j].val.userId) in r && r[EmailOf(t.users, ms[j].val.userId)] == MemberTally(acts, tasks, ms[j].val)
  {
    var acts := Filter(t.activities, ActivityOf(projectId));
    var tasks := Filter(t.tasks, TaskOf(projectId));
    var ms := Filter(t.members, Collaboration.MemberOf(projectId));
    MembersKeepEntries(t.users, acts, tasks, ms);
    MemberEntries(t.users, acts, tasks, ms)[EmailOf(t.users, project.ownerId) := Tally(acts, tasks, project.ownerId, OwnedDone(project.ownerId))]
  }

  /** The keys are the members' emails and the owner's, and the owner's entry is the owner's
      tally even when a member shares the owner's email. */
  lemma ContributionsShape(t: Tables, project: Project, projectId: int)
    ensures var c := Contributions(t, project, projectId);
      var acts := Filter(t.activities, ActivityOf(projectId));
      var tasks := Filter(t.tasks, TaskOf(projectId));
      var ms := Filter(t.members, Collaboration.MemberOf(projectId));
      && c.Keys == (set i | 0 <= i < |ms| :: EmailOf(t.users, ms[i].val.userId)) + {EmailOf(t.users, project.ownerId)}
      && c[EmailOf(t.users, project.ownerId)] == Tally(acts, tasks, project.ownerId, OwnedDone(project.ownerId))
  {
  }

  /** The loop over the project's memberships. */
  method MemberLoop(users: seq<Row<User>>, acts: seq<Row<Activity>>, tasks: seq<Row<Task>>, ms: seq<Row<Member>>)
    returns (c: map<string, Contribution>)
    ensures c == MemberEntries(users, acts, tasks, ms)
  {
    c := map[];
    var i := 0;
    while i < |ms|
      invariant 0 <= i <= |ms|
      invariant c == MemberEntries(users, acts, tasks, ms[..i])
    {
      assert ms[..i + 1][..i] == ms[..i];
      c := c[EmailOf(users, ms[i].val.userId) := MemberTally(acts, tasks, ms[i].val)];
      i := i + 1;
    }
    assert ms[..|ms|] == ms;
  }

  /** The members' entries, then the owner's. */
  method MemberContributions(t: Tables, project: Project, projectId: int) returns (c: map<string, Contribution>)
    ensures c == Contributions(t, project, projectId)
  {
    var acts := Filter(t.activities, ActivityOf(projectId));
    var tasks := Filter(t.tasks, TaskOf(projectId));
    c := MemberLoop(t.users, acts, tasks, Filter(t.members, Collaboration.MemberOf(projectId)));
    c := c[EmailOf(t.users, project.ownerId) := Tally(acts, tasks, project.ownerId, OwnedDone(project.ownerId))];
  }

  /** Recording one more chat message of the project by this user raises their message count by
      one and leaves their commit count alone. */
  lemma TallyOneMore(acts: seq<Row<Activity>>, logged: Row<Activity>, projectId: int, tasks: seq<Row<Task>>, userId: int, done: Row<Task> -> bool)
    requires logged.val.projectId == projectId && logged.val.userId == userId && logged.val.kind == "chat_message"
    ensures var after := Filter(acts + [logged], ActivityOf(projectId));
      var before := Filter(acts, ActivityOf(projectId));
      && Tally(after, tasks, userId, done).messages == Tally(before, tasks, userId, done).messages + 1
      && Tally(after, tasks, userId, done).commits == Tally(before, tasks, userId, done).commits
  {
    FilterAppend(acts, [logged], ActivityOf(projectId));
    FilterSingle(logged, ActivityOf(projectId));
    var before := Filter(acts, ActivityOf(projectId));
    CountSnoc(before, logged, ChattedBy(userId));
    CountSnoc(before, logged, AuthoredBy(userId));
  }

  /** Sending a chat message raises the sender's message count in the project's contributions
      by exactly one and leaves their commit count alone. */
  lemma SendAddsOneMessage(t: Tables, userId: int, projectId: int, text: string, tasks: seq<Row<Task>>, done: Row<Task> -> bool)
    requires Chat.SendSpec(t, userId, projectId, text).result.Ok?
    ensures var after := Filter(Chat.SendSpec(t, userId, projectId, text).db.activities, ActivityOf(projectId));
      var before := Filter(t.activities, ActivityOf(projectId));
      && Tally(after, tasks, userId, done).messages == Tally(before, tasks, userId, done).messages + 1
      && Tally(after, tasks, userId, done).commits == Tally(before, tasks, userId, done).commits
  {
    var logged := Row(t.nextId + 1, Activity(projectId, userId, "chat_message", map["message_preview" := Str(Take(text, Chat.PREVIEW_LENGTH))], t.clock));
    assert Chat.SendSpec(t, userId, projectId, text).db.activities == t.activities + [logged];
    TallyOneMore(t.activities, logged, projectId, tasks, userId, done);
  }

  // ---------------------------------------------------------------- progress

  datatype Progress = Progress(
    projectId: int, totalCommits: nat, totalLinesChanged: nat,
    tasksCompleted: nat, tasksInProgress: nat, tasksTodo: nat,
    contributions: map<string, Contribution>)

  /** `get_progress_analytics`. */
  function ProgressSpec(t: Tables, userId: int, projectId: int): (r: Result<Progress>)
    ensures r.Error? <==>
      Chat.ViewAccess(t, projectId, userId).Error?
      || LinesChanged(Filter(Filter(t.activities, ActivityOf(projectId)), IsFileEdit)).Error?
    ensures Chat.ViewAccess(t, projectId, userId).Error? ==>
      r == Error(Chat.ViewAccess(t, projectId, userId).status, Chat.ViewAccess(t, projectId, userId).detail)
    ensures r.Ok? ==>
      var tasks := Filter(t.tasks, TaskOf(projectId));
      var acts := Filter(t.activities, ActivityOf(projectId));
      var v := r.value;
      && v.projectId == projectId
      && v.tasksTodo == Count(tasks, WithStatus(TODO))
      && v.tasksInProgress == Count(tasks, WithStatus(IN_PROGRESS))
      && v.tasksCompleted == Count(tasks, WithStatus(DONE))
      && v.tasksTodo + v.tasksInProgress + v.tasksCompleted <= |tasks|
      && v.totalCommits == Count(acts, IsCommit)
      && v.totalLinesChanged == LinesChanged(Filter(acts, IsFileEdit)).value
      && v.totalLinesChanged >= Count(Filter(acts, IsFileEdit), HasContent)
      && v.contributions == Contributions(t, Chat.ViewAccess(t, projectId, userId).value, projectId)
  {
    match Chat.ViewAccess(t, projectId, userId)
    case Error(s, d) => Error(s, d)
    case Ok(project) =>
      var tasks := Filter(t.tasks, TaskOf(projectId));
      var acts := Filter(t.activities, ActivityOf(projectId));
      StatusCountsBounded(tasks);
      match LinesChanged(Filter(acts, IsFileEdit))
      case Error(s, d) => Error(s, d)
      case Ok(lines) =>
        Ok(Progress(projectId, Count(acts, IsCommit), lines,
                    Count(tasks, WithStatus(DONE)), Count(tasks, WithStatus(IN_PROGRESS)), Count(tasks, WithStatus(TODO)),
                    Contributions(t, project, projectId)))
  }

  method GetProgressAnalytics(db: Db, userId: int, projectId: int) returns (r: Result<Progress>)
    ensures r == ProgressSpec(db.State(), userId, projectId)
  {
    var t := db.State();
    var access := Chat.ViewAccess(t, projectId, userId);
    if access.Error? {
      return Error(access.status, access.detail);
    }
    var tasks := Filter(t.tasks, TaskOf(projectId));
    var acts := Filter(t.activities, ActivityOf(projectId));
    var lines := LinesChanged(Filter(acts, IsFileEdit));
    if lines.Error? {
      return Error(lines.status, lines.detail);
    }
    var c := MemberContributions(t, access.value, projectId);
    r := Ok(Progress(projectId, Count(acts, IsCommit), lines.value,
                     Count(tasks, WithStatus(DONE)), Count(tasks, WithStatus(IN_PROGRESS)), Count(tasks, WithStatus(TODO)), c));
  }

  // ---------------------------------------------------------------- weekly report

  /** An activity of the project created within [start, end]. */
  function InWindow(projectId: int, start: int, end: int): Row<Activity> -> bool {
    (a: Row<Activity>) => a.val.projectId == projectId && start <= a.val.createdAt <= end
  }

  /** What the model call gave: its text, or the failure it raised. */
  datatype AiOutcome = Generated(text: string) | Failed(message: string)

  /** The project's activities of the seven days up to now, in table order. */
  function WeekActivities(t: Tables, projectId: int): (r: seq<Row<Activity>>)
    ensures forall x :: x in r <==>
      x in t.activities && x.val.projectId == projectId && t.clock - WEEK <= x.val.createdAt <= t.clock
  {
    Filter(t.activities, InWindow(projectId, t.clock - WEEK, t.clock))
  }

  /** The week's activities come oldest first. */
  lemma {:induction false} WeekInOrder(t: Tables, projectId: int)
    requires Chronological(t.activities, (a: Activity) => a.createdAt, t.clock)
    ensures var w := WeekActivities(t, projectId);
      forall i, j :: 0 <= i < j < |w| ==> w[i].val.createdAt <= w[j].val.createdAt
  {
    var key := (a: Row<Activity>) => a.val.createdAt;
    assert SortedBy(t.activities, key);
    FilterSorted(t.activities, InWindow(projectId, t.clock - WEEK, t.clock), key);
  }

  datatype WeeklyReport = WeeklyReport(
    projectId: int, weekStart: int, weekEnd: int, summary: string,
    activities: seq<Row<Activity>>, analytics: Progress)

  /** `get_weekly_report`: the last seven days of activity, the progress analytics, and the
      model's summary or the failure written in its place. */
  function WeeklyReportSpec(t: Tables, userId: int, projectId: int, ai: AiOutcome): (r: Result<WeeklyReport>)
    ensures r.Error? <==> ProgressSpec(t, userId, projectId).Error?
    ensures r.Error? ==> r == Error(ProgressSpec(t, userId, projectId).status, ProgressSpec(t, userId, projectId).detail)
    ensures r.Ok? ==>
      && r.value.projectId == projectId
      && r.value.weekEnd == t.clock && r.value.weekEnd - r.value.weekStart == WEEK
      && r.value.analytics == ProgressSpec(t, userId, projectId).value
      && r.value.activities == WeekActivities(t, projectId)
    ensures r.Ok? && ai.Generated? ==> r.value.summary == ai.text
    ensures r.Ok? && ai.Failed? ==> r.value.summary == "Error generating AI report: " + ai.message
  {
    match Chat.ViewAccess(t, projectId, userId)
    case Error(s, d) => Error(s, d)
    case Ok(_) =>
      var week := WeekActivities(t, projectId);
      match ProgressSpec(t, userId, projectId)
      case Error(s, d) => Error(s, d)
      case Ok(analytics) =>
        var summary := match ai
          case Generated(text) => text
          case Failed(message) => "Error generating AI report: " + message;
        Ok(WeeklyReport(projectId, t.clock - WEEK, t.clock, summary, week, analytics))
  }

  // ---------------------------------------------------------------- timeline

  datatype TimelineEntry = TimelineEntry(id: nat, kind: string, user: string, timestamp: int, data: map<string, Value>)

  function Entry(users: seq<Row<User>>, a: Row<Activity>): TimelineEntry {
    TimelineEntry(a.id, a.val.kind, EmailOf(users, a.val.userId), a.val.createdAt, a.val.data)
  }

  /** The entries the timeline loop appends, one per activity in order. */
  function Entries(users: seq<Row<User>>, acts: seq<Row<Activity>>): (r: seq<TimelineEntry>)
    ensures |r| == |acts|
    ensures forall i :: 0 <= i < |acts| ==> r[i] == Entry(users, acts[i])
  {
    if acts == [] then [] else Entries(users, acts[..|acts| - 1]) + [Entry(users, acts[|acts| - 1])]
  }

  /** The query: the project's activities from the newest backwards, at most `limit` of them
      (all of them for a negative limit). */
  function Newest(t: Tables, projectId: int, limit: int): (r: seq<Row<Activity>>)
    ensures var all := Filter(t.activities, ActivityOf(projectId));
      && |r| == (if 0 <= limit < |all| then limit else |all|)
      && forall i :: 0 <= i < |r| ==> r[i] == all[|all| - 1 - i]
  {
    NewestLimited(Filter(t.activities, ActivityOf(projectId)), limit)
  }

  /** The newest activity comes first. */
  lemma NewestFirst(t: Tables, projectId: int, limit: int)
    requires Chronological(t.activities, (a: Activity) => a.createdAt, t.clock)
    ensures var r := Newest(t, projectId, limit);
      forall i, j :: 0 <= i < j < |r| ==> r[i].val.createdAt >= r[j].val.createdAt
  {
    var key := (a: Row<Activity>) => a.val.createdAt;
    assert SortedBy(t.activities, key);
    FilterSorted(t.activities, ActivityOf(projectId), key);
    NewestDescending(Filter(t.activities, ActivityOf(projectId)), limit, key);
  }

  /** `get_project_timeline`: one entry per activity of the query, in its order. */
  function TimelineSpec(t: Tables, userId: int, projectId: int, limit: int): (r: Result<seq<TimelineEntry>>)
    ensures r.Ok? <==> Chat.ViewAccess(t, projectId, userId).Ok?
    ensures r.Error? ==> r == Error(Chat.ViewAccess(t, projectId, userId).status, Chat.ViewAccess(t, projectId, userId).detail)
    ensures r.Ok? ==>
      && |r.value| == |Newest(t, projectId, limit)|
      && forall i :: 0 <= i < |r.value| ==> r.value[i] == Entry(t.users, Newest(t, projectId, limit)[i])
  {
    match Chat.ViewAccess(t, projectId, userId)
    case Error(s, d) => Error(s, d)
    case Ok(_) => Ok(Entries(t.users, Newest(t, projectId, limit)))
  }

  /** An activity just logged for the project heads its timeline, whatever nonzero limit. */
  lemma {:induction false} LoggedHeadsTimeline(t: Tables, userId: int, projectId: int, actor: int, kind: string,
                                               data: map<string, Value>, limit: int)
    requires Chat.ViewAccess(t, projectId, userId).Ok?
    requires limit != 0
    ensures var u := LogActivity(t, projectId, actor, kind, data);
      var r := TimelineSpec(u, userId, projectId, limit);
      r.Ok? && r.value != [] && r.value[0] == TimelineEntry(t.nextId, kind, EmailOf(t.users, actor), t.clock, data)
  {
    var u := LogActivity(t, projectId, actor, kind, data);
    var row := Row(t.nextId, Activity(projectId, actor, kind, data, t.clock));
    FilterAppend(t.activities, [row], ActivityOf(projectId));
    FilterSingle(row, ActivityOf(projectId));
    var all := Filter(u.activities, ActivityOf(projectId));
    assert all == Filter(t.activities, ActivityOf(projectId)) + [row];
    assert Newest(u, projectId, limit)[0] == row;
    assert Chat.ViewAccess(u, projectId, userId) == Chat.ViewAccess(t, projectId, userId);
  }

  /** The timeline loop. */
  method GetProjectTimeline(db: Db, userId: int, projectId: int, limit: int) returns (r: Result<seq<TimelineEntry>>)
    ensures r == TimelineSpec(db.State(), userId, projectId, limit)
  {
    var t := db.State();
    var access := Chat.ViewAccess(t, projectId, userId);
    if access.Error? {
      return Error(access.status, access.detail);
    }
    var timeline := EntriesLoop(t.users, Newest(t, projectId, limit));
    r := Ok(timeline);
  }

  /** The loop over the queried activities, one entry each. */
  method EntriesLoop(users: seq<Row<User>>, newest: seq<Row<Activity>>) returns (timeline: seq<TimelineEntry>)
    ensures timeline == Entries(users, newest)
  {
    timeline := [];
    var i := 0;
    while i < |newest|
      invariant 0 <= i <= |newest|
      invariant timeline == Entries(users, newest[..i])
    {
      assert newest[..i + 1][..i] == newest[..i];
      timeline := timeline + [Entry(users, newest[i])];
      i := i + 1;
    }
    assert newest[..|newest|] == newest;
  }
}
