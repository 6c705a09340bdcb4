/** The relational state the route handlers share: one table per model class of
    Downloads/notes/backend/models.py, kept in insertion order. Each row carries the
    primary key the database assigned; keys come from one increasing counter, and rows are
    stamped with an integer clock that only moves forward. */
module Store {
  import opened Common
  import opened Seqs

  // Project roles (models.py:8-13).
  const LEADER: string := "leader"
  const DEVELOPER: string := "developer"
  const DESIGNER: string := "designer"
  const DOC_MANAGER: string := "doc_manager"
  const VIEWER: string := "viewer"

  // Task statuses (models.py:15-18) and the other task default (schemas.py:153).
  const TODO: string := "todo"
  const IN_PROGRESS: string := "in_progress"
  const DONE: string := "done"
  const DEFAULT_PRIORITY: string := "medium"

  // Invite statuses (models.py:20-23).
  const PENDING: string := "pending"
  const ACCEPTED: string := "accepted"
  const REJECTED: string := "rejected"

  datatype User = User(uid: string, email: string, name: Option<string>)

  datatype Note = Note(
    title: string, fileUrl: Option<string>, summary: Option<string>, extracted: Option<string>,
    ownerId: int, createdAt: int)

  /** A JSON document the handlers store and copy but never look inside. */
  datatype Json = Json(text: string)

  datatype Project = Project(
    title: string, description: Option<string>, isPublic: bool, settings: Option<Json>, ownerId: int)

  datatype Member = Member(projectId: int, userId: int, role: string)

  datatype Invite = Invite(
    projectId: int, inviterId: int, inviteeId: Option<int>, inviteeEmail: Option<string>,
    token: string, role: string, status: string, expiresAt: Option<int>)

  datatype ProjectFile = ProjectFile(projectId: int, path: string, content: string, fileType: string, createdById: int)

  /** A saved copy of a file's content; `fileId` is a nullable foreign key. */
  datatype FileVersion = FileVersion(
    fileId: Option<int>, content: string, number: int, createdById: int, changeSummary: string)

  /** One entry of a snapshot's "files" list. */
  datatype SnapshotFile = SnapshotFile(path: string, content: string, fileType: string)

  /** The "settings" key of a snapshot: absent, or present with the project's (nullable) settings. */
  datatype SettingsEntry = NoSettingsKey | SettingsKey(settings: Option<Json>)

  /** A `ProjectVersion` row: the snapshot data and its name. */
  datatype Snapshot = Snapshot(
    projectId: int, files: seq<SnapshotFile>, settings: SettingsEntry, name: string,
    description: Option<string>, createdById: int, createdAt: int)

  datatype Task = Task(
    title: string, description: Option<string>, status: string, priority: string,
    assigneeId: Option<int>, projectId: Option<int>, ownerId: int)

  /** A value in an activity's JSON data. */
  datatype Value = Str(s: string) | Num(n: int)

  datatype Activity = Activity(projectId: int, userId: int, kind: string, data: map<string, Value>, createdAt: int)

  datatype Message = Message(projectId: int, userId: int, text: string, createdAt: int)

  /** The whole database as a value. */
  datatype Tables = Tables(
    users: seq<Row<User>>,
    notes: seq<Row<Note>>,
    projects: seq<Row<Project>>,
    members: seq<Row<Member>>,
    invites: seq<Row<Invite>>,
    files: seq<Row<ProjectFile>>,
    versions: seq<Row<FileVersion>>,
    snapshots: seq<Row<Snapshot>>,
    tasks: seq<Row<Task>>,
    activities: seq<Row<Activity>>,
    messages: seq<Row<Message>>,
    nextId: nat,
    clock: int)

  /** What a handler leaves behind: the database after its commit (or as it was, when it
      raised before committing anything) and its reply. */
  datatype Step<+T> = Step(db: Tables, result: Result<T>)

  // ---------------------------------------------------------------- invariants

  /** Primary keys increase along the table and were all handed out already. */
  ghost predicate Keyed<T>(s: seq<Row<T>>, next: nat) {
    IdsIncreasing(s) && IdsBelow(s, next)
  }

  /** Creation times never decrease along the table and never lie in the future. */
  ghost predicate Chronological<T>(s: seq<Row<T>>, at: T -> int, clock: int) {
    (forall i, j :: 0 <= i < j < |s| ==> at(s[i].val) <= at(s[j].val))
    && forall i :: 0 <= i < |s| ==> at(s[i].val) <= clock
  }

  /** At most one membership per (project, user). */
  ghost predicate OneMembershipEach(ms: seq<Row<Member>>) {
    forall i, j :: 0 <= i < j < |ms| ==>
      !(ms[i].val.projectId == ms[j].val.projectId && ms[i].val.userId == ms[j].val.userId)
  }

  /** Along the table, the version numbers of each file strictly increase. */
  ghost predicate VersionsIncrease(vs: seq<Row<FileVersion>>) {
    forall i, j :: 0 <= i < j < |vs| && vs[i].val.fileId.Some? && vs[i].val.fileId == vs[j].val.fileId ==>
      vs[i].val.number < vs[j].val.number
  }

  /** Every version belongs to a key already handed out. */
  ghost predicate VersionsOfPastKeys(vs: seq<Row<FileVersion>>, next: nat) {
    forall i :: 0 <= i < |vs| && vs[i].val.fileId.Some? ==> vs[i].val.fileId.value < next
  }

  /** The unique constraint on invite tokens (models.py:85). */
  ghost predicate TokensDistinct(invs: seq<Row<Invite>>) {
    forall i, j :: 0 <= i < j < |invs| ==> invs[i].val.token != invs[j].val.token
  }

  ghost predicate Consistent(t: Tables) {
    && Keyed(t.users, t.nextId) && Keyed(t.notes, t.nextId) && Keyed(t.projects, t.nextId)
    && Keyed(t.members, t.nextId) && Keyed(t.invites, t.nextId) && Keyed(t.files, t.nextId)
    && Keyed(t.versions, t.nextId) && Keyed(t.snapshots, t.nextId) && Keyed(t.tasks, t.nextId)
    && Keyed(t.activities, t.nextId) && Keyed(t.messages, t.nextId)
    && Chronological(t.notes, (n: Note) => n.createdAt, t.clock)
    && Chronological(t.snapshots, (s: Snapshot) => s.createdAt, t.clock)
    && Chronological(t.activities, (a: Activity) => a.createdAt, t.clock)
    && Chronological(t.messages, (m: Message) => m.createdAt, t.clock)
    && OneMembershipEach(t.members)
    && VersionsIncrease(t.versions)
    && VersionsOfPastKeys(t.versions, t.nextId)
    && TokensDistinct(t.invites)
  }

  // ---------------------------------------------------------------- row helpers

  /** `db.add(row)`: the row gets the next key. */
  function Add<T>(s: seq<Row<T>>, next: nat, v: T): (r: seq<Row<T>>)
    ensures |r| == |s| + 1 && r[..|s|] == s && r[|s|] == Row(next, v)
  {
    s + [Row(next, v)]
  }

  lemma KeyedAdd<T>(s: seq<Row<T>>, next: nat, v: T)
    requires Keyed(s, next)
    ensures Keyed(Add(s, next, v), next + 1)
  {
  }

  lemma KeyedGrow<T>(s: seq<Row<T>>, next: nat, bigger: nat)
    requires Keyed(s, next) && next <= bigger
    ensures Keyed(s, bigger)
  {
  }

  lemma ChronologicalAdd<T>(s: seq<Row<T>>, at: T -> int, clock: int, next: nat, v: T)
    requires Chronological(s, at, clock) && at(v) == clock
    ensures Chronological(Add(s, next, v), at, clock)
  {
  }

  /** `ProjectActivity` with the current time; every handler that logs one goes through here. */
  function LogActivity(t: Tables, projectId: int, userId: int, kind: string, data: map<string, Value>): (r: Tables)
    ensures r == t.(activities := r.activities, nextId := t.nextId + 1)
    ensures |r.activities| == |t.activities| + 1 && r.activities[..|t.activities|] == t.activities
    ensures r.activities[|t.activities|] == Row(t.nextId, Activity(projectId, userId, kind, data, t.clock))
  {
    t.(activities := Add(t.activities, t.nextId, Activity(projectId, userId, kind, data, t.clock)),
       nextId := t.nextId + 1)
  }

  /** Handing out one more key keeps every table consistent. */
  lemma ConsistentGrow(t: Tables, next: nat)
    requires Consistent(t) && t.nextId <= next
    ensures Consistent(t.(nextId := next))
  {
  }

  lemma LogActivityConsistent(t: Tables, projectId: int, userId: int, kind: string, data: map<string, Value>)
    requires Consistent(t)
    ensures Consistent(LogActivity(t, projectId, userId, kind, data))
  {
    KeyedAdd(t.activities, t.nextId, Activity(projectId, userId, kind, data, t.clock));
    ChronologicalAdd(t.activities, (a: Activity) => a.createdAt, t.clock, t.nextId, Activity(projectId, userId, kind, data, t.clock));
  }

  /** Time passing keeps every table consistent. */
  lemma AdvanceConsistent(t: Tables, dt: nat)
    requires Consistent(t)
    ensures Consistent(t.(clock := t.clock + dt))
  {
  }

  /** The first `ProjectMember` row for this project and user. */
  function Membership(members: seq<Row<Member>>, projectId: int, userId: int): (r: Option<Row<Member>>)
    ensures r.Some? ==> r.value in members && r.value.val.projectId == projectId && r.value.val.userId == userId
    ensures r.None? <==> forall i :: 0 <= i < |members| ==> !(members[i].val.projectId == projectId && members[i].val.userId == userId)
  {
    First(members, IsMembership(projectId, userId))
  }

  function IsMembership(projectId: int, userId: int): Row<Member> -> bool {
    (m: Row<Member>) => m.val.projectId == projectId && m.val.userId == userId
  }

  /** A file row of the given project. */
  function InProject(projectId: int): Row<ProjectFile> -> bool {
    (f: Row<ProjectFile>) => f.val.projectId == projectId
  }

  /** A version row of the given file. */
  function OfFile(fileId: int): Row<FileVersion> -> bool {
    (v: Row<FileVersion>) => v.val.fileId == Some(fileId)
  }

  /** Inserting a file row. */
  function AddFile(t: Tables, f: ProjectFile): Tables {
    t.(files := Add(t.files, t.nextId, f), nextId := t.nextId + 1)
  }

  /** Inserting a version row. */
  function AddVersion(t: Tables, v: FileVersion): Tables {
    t.(versions := Add(t.versions, t.nextId, v), nextId := t.nextId + 1)
  }

  lemma AddFileConsistent(t: Tables, f: ProjectFile)
    requires Consistent(t)
    ensures Consistent(AddFile(t, f))
  {
    KeyedAdd(t.files, t.nextId, f);
  }

  /** A version may be appended when it names a file key already handed out (or none) and
      numbers above every earlier version of the same file. */
  lemma {:induction false} AddVersionConsistent(t: Tables, v: FileVersion)
    requires Consistent(t)
    requires v.fileId.Some? ==> v.fileId.value < t.nextId
    requires forall i :: 0 <= i < |t.versions| && v.fileId.Some? && t.versions[i].val.fileId == v.fileId ==>
      t.versions[i].val.number < v.number
    ensures Consistent(AddVersion(t, v))
  {
    KeyedAdd(t.versions, t.nextId, v);
    var vs := Add(t.versions, t.nextId, v);
    forall i, j | 0 <= i < j < |vs| && vs[i].val.fileId.Some? && vs[i].val.fileId == vs[j].val.fileId
      ensures vs[i].val.number < vs[j].val.number
    {
      if j < |t.versions| {
        assert vs[i] == t.versions[i] && vs[j] == t.versions[j];
      }
    }
  }

  /** A version row of some other file (or of none). */
  function NotOfFile(fileId: int): Row<FileVersion> -> bool {
    (v: Row<FileVersion>) => v.val.fileId != Some(fileId)
  }

  /** `db.delete(file)`: the file row goes, and with it (cascade "all, delete-orphan") its versions. */
  function DropFile(t: Tables, fileId: int): (r: Tables)
    ensures r == t.(files := r.files, versions := r.versions)
    ensures forall x :: x in r.files <==> x in t.files && x.id != fileId
    ensures forall x :: x in r.versions <==> x in t.versions && x.val.fileId != Some(fileId)
  {
    t.(files := RemoveId(t.files, fileId), versions := Filter(t.versions, NotOfFile(fileId)))
  }

  /** Inserting a snapshot row. */
  function AddSnapshot(t: Tables, s: Snapshot): Tables {
    t.(snapshots := Add(t.snapshots, t.nextId, s), nextId := t.nextId + 1)
  }

  lemma {:induction false} FilterVersionsIncrease(vs: seq<Row<FileVersion>>, p: Row<FileVersion> -> bool)
    requires VersionsIncrease(vs)
    ensures VersionsIncrease(Filter(vs, p))
  {
    var f := Filter(vs, p);
    forall i, j | 0 <= i < j < |f| && f[i].val.fileId.Some? && f[i].val.fileId == f[j].val.fileId
      ensures f[i].val.number < f[j].val.number
    {
      FilterOrder(vs, p, i, j);
    }
  }

  lemma DropFileConsistent(t: Tables, fileId: int)
    requires Consistent(t)
    ensures Consistent(DropFile(t, fileId))
  {
    IdsIncreasingFilter(t.files, (x: Row<ProjectFile>) => x.id != fileId);
    IdsIncreasingFilter(t.versions, NotOfFile(fileId));
    FilterVersionsIncrease(t.versions, NotOfFile(fileId));
  }

  /** Assigning new columns to keyed rows keeps every key where it was. */
  lemma KeyedSetVal<T>(s: seq<Row<T>>, next: nat, id: int, v: T)
    requires Keyed(s, next)
    ensures Keyed(SetVal(s, id, v), next)
  {
  }

  // ---------------------------------------------------------------- the session

  /** The SQLAlchemy session: one mutable field per table. */
  class Db {
    var users: seq<Row<User>>
    var notes: seq<Row<Note>>
    var projects: seq<Row<Project>>
    var members: seq<Row<Member>>
    var invites: seq<Row<Invite>>
    var files: seq<Row<ProjectFile>>
    var versions: seq<Row<FileVersion>>
    var snapshots: seq<Row<Snapshot>>
    var tasks: seq<Row<Task>>
    var activities: seq<Row<Activity>>
    var messages: seq<Row<Message>>
    var nextId: nat
    var clock: int

    function State(): Tables
      reads this
    {
      Tables(users, notes, projects, members, invites, files, versions, snapshots, tasks,
             activities, messages, nextId, clock)
    }

    ghost predicate Valid()
      reads this
    {
      Consistent(State())
    }

    /** An empty database whose keys start at 1. */
    constructor (now: int)
      ensures State() == Tables([], [], [], [], [], [], [], [], [], [], [], 1, now)
      ensures Valid()
    {
      users, notes, projects, members, invites := [], [], [], [], [];
      files, versions, snapshots, tasks, activities, messages := [], [], [], [], [], [];
      nextId, clock := 1, now;
    }

    /** `datetime.utcnow()` moving on. */
    method Advance(dt: nat)
      modifies this
      ensures State() == old(State()).(clock := old(clock) + dt)
    {
      clock := clock + dt;
    }

    method InsertFile(f: ProjectFile) returns (row: Row<ProjectFile>)
      modifies this
      ensures State() == AddFile(old(State()), f) && row == Row(old(nextId), f)
    {
      row := Row(nextId, f);
      files := files + [row];
      nextId := nextId + 1;
    }

    method InsertVersion(v: FileVersion)
      modifies this
      ensures State() == AddVersion(old(State()), v)
    {
      versions := versions + [Row(nextId, v)];
      nextId := nextId + 1;
    }

    method DeleteFile(fileId: int)
      modifies this
      ensures State() == DropFile(old(State()), fileId)
    {
      files := RemoveId(files, fileId);
      versions := Filter(versions, NotOfFile(fileId));
    }

    method InsertSnapshot(snap: Snapshot) returns (row: Row<Snapshot>)
      modifies this
      ensures State() == AddSnapshot(old(State()), snap) && row == Row(old(nextId), snap)
    {
      row := Row(nextId, snap);
      snapshots := snapshots + [row];
      nextId := nextId + 1;
    }

    /** Appends the activity row `LogActivity` describes. */
    method Log(projectId: int, userId: int, kind: string, data: map<string, Value>)
      modifies this
      ensures State() == LogActivity(old(State()), projectId, userId, kind, data)
    {
      activities := activities + [Row(nextId, Activity(projectId, userId, kind, data, clock))];
      nextId := nextId + 1;
    }
  }
}
