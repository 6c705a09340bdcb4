/** The note, project and task handlers of Downloads/notes/backend/routes.py that the
    model covers: resolving the caller, storing an upload, summarising a note, searching
    notes, listing projects, creating a task and deleting a note. */
module Routes {
  import opened Common
  import opened Seqs
  import opened Strs
  import opened FileExtractor
  import opened Upload
  import opened Store

  // ---------------------------------------------------------------- the caller

  /** The Firebase account a verified token names; verification itself is outside the model. */
  datatype TokenInfo = TokenInfo(localId: string, email: Option<string>)

  const ANONYMOUS_UID: string := "anonymous"
  const ANONYMOUS_EMAIL: string := "anonymous@edunex.local"

  predicate EmailTaken(users: seq<Row<User>>, email: string) {
    exists i :: 0 <= i < |users| && users[i].val.email == email
  }

  /** The user with this Firebase uid, inserted when missing. Inserting an address another
      user already has breaks the unique constraint on `users.email` (models.py:29). */
  function FindOrCreateUser(t: Tables, uid: string, email: string): (r: Step<Row<User>>)
    ensures r.result.Ok? ==> r.result.value.val.uid == uid && r.result.value in r.db.users
    ensures r.result.Ok? <==> (exists i :: 0 <= i < |t.users| && t.users[i].val.uid == uid) || !EmailTaken(t.users, email)
    ensures r.result.Error? ==> r.db == t && r.result.status == INTERNAL_SERVER_ERROR
    ensures (exists i :: 0 <= i < |t.users| && t.users[i].val.uid == uid) ==>
      && r.db == t && r.result.Ok?
      && exists k :: 0 <= k < |t.users| && t.users[k] == r.result.value && forall j :: 0 <= j < k ==> t.users[j].val.uid != uid
    ensures (forall i :: 0 <= i < |t.users| ==> t.users[i].val.uid != uid) && !EmailTaken(t.users, email) ==>
      && r.db == t.(users := Add(t.users, t.nextId, User(uid, email, None)), nextId := t.nextId + 1)
      && r.result == Ok(Row(t.nextId, User(uid, email, None)))
  {
    match First(t.users, (u: Row<User>) => u.val.uid == uid)
    case Some(u) => Step(t, Ok(u))
    case None =>
      if EmailTaken(t.users, email) then Step(t, Error(INTERNAL_SERVER_ERROR, "UNIQUE constraint failed: users.email"))
      else
        var row := Row(t.nextId, User(uid, email, None));
        Step(t.(users := Add(t.users, t.nextId, row.val), nextId := t.nextId + 1), Ok(row))
  }

  /** `get_user_or_create_anonymous`: the token's account, else the shared anonymous account. */
  function GetUserOrCreateAnonymousSpec(t: Tables, info: Option<TokenInfo>): (r: Step<Row<User>>)
    ensures r.result.Ok? ==> r.result.value.val.uid == (if info.Some? then info.value.localId else ANONYMOUS_UID)
  {
    match info
    case Some(i) => FindOrCreateUser(t, i.localId, if i.email.Some? then i.email.value else "")
    case None => FindOrCreateUser(t, ANONYMOUS_UID, ANONYMOUS_EMAIL)
  }

  /** Resolving the same caller twice finds the account the first call returned and
      changes nothing more. */
  lemma {:induction false} GetUserIdempotent(t: Tables, info: Option<TokenInfo>)
    requires GetUserOrCreateAnonymousSpec(t, info).result.Ok?
    ensures var first := GetUserOrCreateAnonymousSpec(t, info);
      GetUserOrCreateAnonymousSpec(first.db, info) == first.(result := first.result)
      && GetUserOrCreateAnonymousSpec(first.db, info).db == first.db
  {
    var first := GetUserOrCreateAnonymousSpec(t, info);
    var uid := if info.Some? then info.value.localId else ANONYMOUS_UID;
    var p := (u: Row<User>) => u.val.uid == uid;
    if First(t.users, p).None? {
      var users := first.db.users;
      assert users == t.users + [first.result.value];
      assert First(users, p) == Some(first.result.value) by {
        FirstAppendMiss(t.users, first.result.value, p);
      }
    }
  }

  lemma {:induction false} FirstAppendMiss<T>(s: seq<Row<T>>, x: Row<T>, p: Row<T> -> bool)
    requires First(s, p).None? && p(x)
    ensures First(s + [x], p) == Some(x)
  {
    if s == [] {
      assert s + [x] == [x];
    } else {
      assert (s + [x])[1..] == s[1..] + [x];
      FirstAppendMiss(s[1..], x, p);
    }
  }

  method GetUserOrCreateAnonymous(db: Db, info: Option<TokenInfo>) returns (r: Result<Row<User>>)
    modifies db
    ensures db.State() == GetUserOrCreateAnonymousSpec(old(db.State()), info).db
    ensures r == GetUserOrCreateAnonymousSpec(old(db.State()), info).result
  {
    var uid, email := ANONYMOUS_UID, ANONYMOUS_EMAIL;
    if info.Some? {
      uid := info.value.localId;
      email := if info.value.email.Some? then info.value.email.value else "";
    }
    var found := First(db.users, (u: Row<User>) => u.val.uid == uid);
    if found.Some? {
      return Ok(found.value);
    }
    if EmailTaken(db.users, email) {
      return Error(INTERNAL_SERVER_ERROR, "UNIQUE constraint failed: users.email");
    }
    var row := Row(db.nextId, User(uid, email, None));
    db.users := db.users + [row];
    db.nextId := db.nextId + 1;
    r := Ok(row);
  }

  // ---------------------------------------------------------------- upload

  /** `upload_file` once the form is decided: the note row is inserted with the caller as owner. */
  function UploadSpec(t: Tables, userId: int, form: UploadForm, env: Environment): (r: Step<UploadReply>)
    ensures Decide(form, env).Error? ==> r.db == t && r.result.Error? && r.result.status == BAD_REQUEST
    ensures Decide(form, env).Ok? ==>
      var d := Decide(form, env).value;
      && r.result == Ok(d.reply)
      && r.db.notes == t.notes + [Row(t.nextId, Note(d.note.title, d.note.fileUrl, Some(d.note.summary), d.note.extracted, userId, t.clock))]
      && r.db == t.(notes := r.db.notes, nextId := t.nextId + 1)
  {
    match Decide(form, env)
    case Error(s, m) => Step(t, Error(s, m))
    case Ok(d) =>
      var n := Note(d.note.title, d.note.fileUrl, Some(d.note.summary), d.note.extracted, userId, t.clock);
      Step(t.(notes := Add(t.notes, t.nextId, n), nextId := t.nextId + 1), Ok(d.reply))
  }

  lemma UploadConsistent(t: Tables, userId: int, form: UploadForm, env: Environment)
    requires Consistent(t)
    ensures Consistent(UploadSpec(t, userId, form, env).db)
  {
    if Decide(form, env).Ok? {
      var d := Decide(form, env).value;
      var n := Note(d.note.title, d.note.fileUrl, Some(d.note.summary), d.note.extracted, userId, t.clock);
      KeyedAdd(t.notes, t.nextId, n);
      ChronologicalAdd(t.notes, (x: Note) => x.createdAt, t.clock, t.nextId, n);
    }
  }

  method UploadFile(db: Db, user: Row<User>, form: UploadForm, env: Environment) returns (r: Result<UploadReply>)
    modifies db
    ensures db.State() == UploadSpec(old(db.State()), user.id, form, env).db
    ensures r == UploadSpec(old(db.State()), user.id, form, env).result
  {
    var d := Decide(form, env);
    if d.Error? {
      return Error(d.status, d.detail);
    }
    var stored := d.value.note;
    db.notes := db.notes + [Row(db.nextId, Note(stored.title, stored.fileUrl, Some(stored.summary), stored.extracted, user.id, db.clock))];
    db.nextId := db.nextId + 1;
    r := Ok(d.value.reply);
  }

  // ---------------------------------------------------------------- summarize

  datatype SummarizeRequest = SummarizeRequest(text: Option<string>, resourceId: Option<int>)

  /** What the Gemini endpoint does with a prompt. */
  datatype GeminiReply = Answer(text: string) | NoCandidates | HttpFailure(code: int, body: string) | RequestFailed(message: string)

  /** The outside world of `summarize_text`: whether an API key is set, the extractors, what
      downloading the note's URL gives, the bytes of a local upload (if the file exists) and
      the model's reply to each prompt. */
  datatype SummarizeEnv = SummarizeEnv(
    keyConfigured: bool, libs: Libraries, download: Download, localFile: Option<LibraryOutput>,
    gemini: string -> GeminiReply)

  const MAX_SUMMARY_INPUT: nat := 30000
  const DOCUMENT_FALLBACK: string := "Summarize the following document: "
  const SUMMARY_PREAMBLE: string := "You are an expert academic assistant. Summarize the following study material, extracting the key concepts, definitions, and main arguments. Present it in a clear, concise format suitable for a student's review. Focus on the most important information and structure it well.\n\n---\n\n"

  /** A stored summary that already looks like a generated one. */
  predicate HasCachedSummary(n: Note) {
    n.summary.Some? && n.summary.value != "" && !StartsWith(n.summary.value, "http") && |n.summary.value| > 100
  }

  /** Where the text to summarise comes from: the cached summary is returned as is;
      otherwise the text (possibly none) and extracted content newly learnt for the note. */
  datatype TextSource = Cached(summary: string) | Fresh(text: Option<string>, learned: Option<string>)

  /** The text-selection chain for a stored note. */
  function NoteText(n: Note, env: SummarizeEnv): (r: TextSource)
    ensures r.Cached? <==> HasCachedSummary(n)
    ensures r.Cached? ==> r.summary == n.summary.value
    ensures !HasCachedSummary(n) && Given(n.extracted) ==> r == Fresh(n.extracted, None)
    ensures r.Fresh? && r.learned.Some? ==> r.text == r.learned && |r.learned.value| > 10
    ensures r.Fresh? && r.text.None? ==>
      !Given(n.extracted) && Given(n.fileUrl) && StartsWith(n.fileUrl.value, "http")
  {
    if HasCachedSummary(n) then Cached(n.summary.value)
    else if Given(n.extracted) then Fresh(n.extracted, None)
    else if Given(n.fileUrl) && StartsWith(n.fileUrl.value, "http") then
      var x := ExtractTextFromUrl(n.fileUrl.value, env.download, env.libs);
      if |x| > 10 then Fresh(Some(x), Some(x)) else Fresh(None, None)
    else if Given(n.fileUrl) then
      match env.localFile
      case None => Fresh(Some(DOCUMENT_FALLBACK + n.title), None)
      case Some(out) =>
        var x := ExtractText(PathName(n.fileUrl.value), None, env.libs, out);
        if |x| > 10 then Fresh(Some(x), Some(x)) else Fresh(Some(DOCUMENT_FALLBACK + n.title), None)
    else if Given(n.summary) then Fresh(n.summary, None)
    else Fresh(Some(DOCUMENT_FALLBACK + n.title), None)
  }

  /** The text handed to the model: cut to 30000 characters plus a marker. */
  function SummaryInput(text: string): (r: string)
    ensures |r| <= MAX_SUMMARY_INPUT + |"\n\n[Content truncated due to length...]"|
    ensures Take(text, MAX_SUMMARY_INPUT) <= r
    ensures |text| <= MAX_SUMMARY_INPUT ==> r == text
  {
    if |text| > MAX_SUMMARY_INPUT then text[..MAX_SUMMARY_INPUT] + "\n\n[Content truncated due to length...]" else text
  }

  function SummaryPrompt(text: string): (r: string)
    ensures SUMMARY_PREAMBLE <= r && r[|SUMMARY_PREAMBLE|..] == SummaryInput(text)
  {
    SUMMARY_PREAMBLE + SummaryInput(text)
  }

  /** A note's row with one column changed. */
  function SetNote(t: Tables, id: int, n: Note): Tables {
    t.(notes := SetVal(t.notes, id, n))
  }

  /** The first half of `summarize_text`: picking the text. A note found by `resourceId` (when
      no text is sent) supplies it, and extracted content learnt on the way is committed. */
  function GatherText(t: Tables, req: SummarizeRequest, env: SummarizeEnv): (r: (Tables, TextSource))
    ensures r.0 == t.(notes := r.0.notes) && SameKeys(t.notes, r.0.notes)
    ensures !(GivenId(req.resourceId) && !Given(req.text)) ==> r == (t, Fresh(req.text, None))
    ensures r.1.Cached? ==> r.0 == t
    ensures GivenId(req.resourceId) && !Given(req.text) ==>
      var id := req.resourceId.value;
      && (Lookup(t.notes, id).None? ==> r == (t, Fresh(req.text, None)))
      && (Lookup(t.notes, id).Some? ==>
        var n := Lookup(t.notes, id).value;
        && r.1 == NoteText(n, env)
        && (r.1.Fresh? && r.1.learned.Some? ==>
              forall k :: Lookup(r.0.notes, k) == if k == id then Some(n.(extracted := r.1.learned)) else Lookup(t.notes, k))
        && (!(r.1.Fresh? && r.1.learned.Some?) ==> r.0 == t))
  {
    if GivenId(req.resourceId) && !Given(req.text) then
      match Lookup(t.notes, req.resourceId.value)
      case None => (t, Fresh(req.text, None))
      case Some(n) =>
        var s := NoteText(n, env);
        if s.Fresh? && s.learned.Some? then
          LookupSetValAll(t.notes, req.resourceId.value, n.(extracted := s.learned));
          (SetNote(t, req.resourceId.value, n.(extracted := s.learned)), s)
        else (t, s)
    else (t, Fresh(req.text, None))
  }

  /** The second half: the model's reply, stored as the note's summary when it is an answer. */
  function TakeReply(t: Tables, resourceId: Option<int>, reply: GeminiReply): (r: Step<string>)
    ensures r.db == t.(notes := r.db.notes) && SameKeys(t.notes, r.db.notes)
    ensures reply.Answer? <==> r.result.Ok?
    ensures reply.Answer? ==> r.result.value == reply.text
    ensures !reply.Answer? ==> r.db == t
    ensures reply.NoCandidates? ==> r.result.status == BAD_REQUEST
    ensures reply.HttpFailure? ==> r.result.status == reply.code
    ensures reply.RequestFailed? ==> r.result.status == INTERNAL_SERVER_ERROR
  {
    match reply
    case Answer(summary) =>
      if GivenId(resourceId) then
        match Lookup(t.notes, resourceId.value)
        case None => Step(t, Ok(summary))
        case Some(n) => Step(SetNote(t, resourceId.value, n.(summary := Some(summary))), Ok(summary))
      else Step(t, Ok(summary))
    case NoCandidates => Step(t, Error(BAD_REQUEST, "Invalid response from Gemini API"))
    case HttpFailure(code, body) => Step(t, Error(code, "Gemini API error: " + body))
    case RequestFailed(m) => Step(t, Error(INTERNAL_SERVER_ERROR, "Failed to call Gemini API: " + m))
  }

  /** `summarize_text`. Extracted content learnt along the way is committed before the model
      is called, so it stays even when the call fails. */
  function SummarizeSpec(t: Tables, req: SummarizeRequest, env: SummarizeEnv): (r: Step<string>)
    ensures !env.keyConfigured ==> r == Step(t, Error(INTERNAL_SERVER_ERROR, "Gemini API key not configured"))
    ensures r.db == t.(notes := r.db.notes) && SameKeys(t.notes, r.db.notes)
    ensures env.keyConfigured && !Given(req.text) && !GivenId(req.resourceId) ==>
      r == Step(t, Error(BAD_REQUEST, "Text or resourceId required"))
    ensures env.keyConfigured && Given(req.text) ==>
      r == TakeReply(t, req.resourceId, env.gemini(SummaryPrompt(req.text.value)))
  {
    if !env.keyConfigured then Step(t, Error(INTERNAL_SERVER_ERROR, "Gemini API key not configured"))
    else
      var (t1, source) := GatherText(t, req, env);
      match source
      case Cached(summary) => Step(t1, Ok(summary))
      case Fresh(text, _) =>
        if !Given(text) then Step(t1, Error(BAD_REQUEST, "Text or resourceId required"))
        else TakeReply(t1, req.resourceId, env.gemini(SummaryPrompt(text.value)))
  }

  /** A stored note whose summary already looks generated is answered from the store, with
      no call to the model and no change. */
  lemma SummarizeUsesCache(t: Tables, req: SummarizeRequest, env: SummarizeEnv)
    requires env.keyConfigured && GivenId(req.resourceId) && !Given(req.text)
    requires IdsIncreasing(t.notes)
    requires Lookup(t.notes, req.resourceId.value).Some? && HasCachedSummary(Lookup(t.notes, req.resourceId.value).value)
    ensures SummarizeSpec(t, req, env) == Step(t, Ok(Lookup(t.notes, req.resourceId.value).value.summary.value))
  {
    var i :| 0 <= i < |t.notes| && t.notes[i].id == req.resourceId.value;
    LookupUnique(t.notes, i);
  }

  /** An answer for a stored note becomes that note's summary. */
  lemma TakeReplyStores(t: Tables, id: int, answer: string)
    requires IdsIncreasing(t.notes) && HasId(t.notes, id) && id != 0
    ensures var r := TakeReply(t, Some(id), Answer(answer));
      Lookup(r.db.notes, id).Some? && Lookup(r.db.notes, id).value.summary == Some(answer)
  {
    var r := TakeReply(t, Some(id), Answer(answer));
    var i :| 0 <= i < |t.notes| && t.notes[i].id == id;
    SameKeysIncreasing(t.notes, r.db.notes);
    LookupUnique(r.db.notes, i);
  }

  /** A successful call for a stored note leaves the model's answer as that note's summary. */
  lemma SummarizeStoresAnswer(t: Tables, req: SummarizeRequest, env: SummarizeEnv)
    requires IdsIncreasing(t.notes)
    requires GivenId(req.resourceId) && HasId(t.notes, req.resourceId.value)
    requires SummarizeSpec(t, req, env).result.Ok?
    ensures var r := SummarizeSpec(t, req, env);
      Lookup(r.db.notes, req.resourceId.value).Some?
      && Lookup(r.db.notes, req.resourceId.value).value.summary == Some(r.result.value)
  {
    var id := req.resourceId.value;
    var (t1, source) := GatherText(t, req, env);
    if source.Cached? {
      var i :| 0 <= i < |t.notes| && t.notes[i].id == id;
      LookupUnique(t.notes, i);
    } else {
      SameKeysIncreasing(t.notes, t1.notes);
      var reply := env.gemini(SummaryPrompt(source.text.value));
      TakeReplyStores(t1, id, reply.text);
    }
  }

  /** The first half of `SummarizeText`. */
  method GatherTextInto(db: Db, req: SummarizeRequest, env: SummarizeEnv) returns (source: TextSource)
    modifies db
    ensures (db.State(), source) == GatherText(old(db.State()), req, env)
  {
    source := Fresh(req.text, None);
    if GivenId(req.resourceId) && !Given(req.text) {
      var found := Lookup(db.notes, req.resourceId.value);
      if found.Some? {
        source := NoteText(found.value, env);
        if source.Fresh? && source.learned.Some? {
          db.notes := SetVal(db.notes, req.resourceId.value, found.value.(extracted := source.learned));
        }
      }
    }
  }

  /** The second half of `SummarizeText`. */
  method TakeReplyInto(db: Db, resourceId: Option<int>, reply: GeminiReply) returns (r: Result<string>)
    modifies db
    ensures Step(db.State(), r) == TakeReply(old(db.State()), resourceId, reply)
  {
    match reply {
      case Answer(summary) =>
        if GivenId(resourceId) {
          var found := Lookup(db.notes, resourceId.value);
          if found.Some? {
            db.notes := SetVal(db.notes, resourceId.value, found.value.(summary := Some(summary)));
          }
        }
        r := Ok(summary);
      case NoCandidates => r := Error(BAD_REQUEST, "Invalid response from Gemini API");
      case HttpFailure(code, body) => r := Error(code, "Gemini API error: " + body);
      case RequestFailed(m) => r := Error(INTERNAL_SERVER_ERROR, "Failed to call Gemini API: " + m);
    }
  }

  method SummarizeText(db: Db, req: SummarizeRequest, env: SummarizeEnv) returns (r: Result<string>)
    modifies db
    ensures db.State() == SummarizeSpec(old(db.State()), req, env).db
    ensures r == SummarizeSpec(old(db.State()), req, env).result
  {
    if !env.keyConfigured {
      return Error(INTERNAL_SERVER_ERROR, "Gemini API key not configured");
    }
    var source := GatherTextInto(db, req, env);
    if source.Cached? {
      return Ok(source.summary);
    }
    if !Given(source.text) {
      return Error(BAD_REQUEST, "Text or resourceId required");
    }
    r := TakeReplyInto(db, req.resourceId, env.gemini(SummaryPrompt(source.text.value)));
  }

  // ---------------------------------------------------------------- search

  /** `column.ilike('%needle%')`: a case-insensitive substring test; a NULL column never matches. */
  predicate ILike(column: Option<string>, needle: string) {
    column.Some? && Contains(Lower(column.value), Lower(needle))
  }

  predicate NoteMatches(n: Note, needle: string) {
    ILike(Some(n.title), needle) || ILike(n.summary, needle) || ILike(n.extracted, needle)
  }

  /** The rows `search_notes` selects, in table order. */
  function SearchHits(t: Tables, userId: int, needle: string): seq<Row<Note>> {
    Filter(t.notes, IsHit(userId, needle))
  }

  function IsHit(userId: int, needle: string): Row<Note> -> bool {
    (n: Row<Note>) => n.val.ownerId == userId && NoteMatches(n.val, needle)
  }

  /** `search_notes`: the caller's notes mentioning the stripped query, newest first. */
  function SearchNotes(t: Tables, userId: int, q: string): (r: Result<seq<Row<Note>>>)
    ensures r.Error? <==> |Strip(q)| < 2
    ensures r.Error? ==> r.status == BAD_REQUEST
    ensures r.Ok? ==> forall x :: x in r.value <==> x in SearchHits(t, userId, Strip(q))
  {
    var needle := Strip(q);
    if |needle| < 2 then Error(BAD_REQUEST, "Search query must be at least 2 characters")
    else
      ReverseMembers(SearchHits(t, userId, needle));
      Ok(Reverse(SearchHits(t, userId, needle)))
  }

  /** Exactly the caller's matching notes are found. */
  lemma SearchNotesExact(t: Tables, userId: int, q: string)
    requires SearchNotes(t, userId, q).Ok?
    ensures var r := SearchNotes(t, userId, q).value;
      && (forall i :: 0 <= i < |r| ==>
            r[i] in t.notes && r[i].val.ownerId == userId && NoteMatches(r[i].val, Strip(q)))
      && (forall i :: 0 <= i < |t.notes| && t.notes[i].val.ownerId == userId && NoteMatches(t.notes[i].val, Strip(q)) ==>
            t.notes[i] in r)
  {
    var hits := SearchHits(t, userId, Strip(q));
    var r := SearchNotes(t, userId, q).value;
    forall i | 0 <= i < |r| ensures r[i] in t.notes && r[i].val.ownerId == userId && NoteMatches(r[i].val, Strip(q)) {
      assert r[i] in hits;
    }
  }

  /** Search results come newest first. */
  lemma {:induction false} SearchNewestFirst(t: Tables, userId: int, q: string)
    requires Chronological(t.notes, (n: Note) => n.createdAt, t.clock)
    requires SearchNotes(t, userId, q).Ok?
    ensures var r := SearchNotes(t, userId, q).value;
      forall i, j :: 0 <= i < j < |r| ==> r[i].val.createdAt >= r[j].val.createdAt
  {
    var key := (n: Row<Note>) => n.val.createdAt;
    var hits := SearchHits(t, userId, Strip(q));
    assert SortedBy(t.notes, key);
    FilterSorted(t.notes, IsHit(userId, Strip(q)), key);
    ReverseSorted(hits, key);
    assert SearchNotes(t, userId, q).value == Reverse(hits);
  }

  // ---------------------------------------------------------------- projects

  predicate IsMemberOf(members: seq<Row<Member>>, projectId: int, userId: int) {
    exists i :: 0 <= i < |members| && members[i].val.projectId == projectId && members[i].val.userId == userId
  }

  /** `read_projects`: the owned projects, then the other projects the caller is a member of
      (the dict keyed by id keeps the first position of every key). */
  function ReadProjects(t: Tables, userId: int): (r: seq<Row<Project>>)
    ensures forall i :: 0 <= i < |r| ==>
      r[i] in t.projects && (r[i].val.ownerId == userId || IsMemberOf(t.members, r[i].id, userId))
  {
    var owned := Filter(t.projects, OwnedBy(userId));
    owned + Filter(Filter(t.projects, JoinedBy(t.members, userId)), NotAmong(owned))
  }

  function OwnedBy(userId: int): Row<Project> -> bool {
    (p: Row<Project>) => p.val.ownerId == userId
  }

  function JoinedBy(members: seq<Row<Member>>, userId: int): Row<Project> -> bool {
    (p: Row<Project>) => IsMemberOf(members, p.id, userId)
  }

  function NotAmong(rows: seq<Row<Project>>): Row<Project> -> bool {
    (p: Row<Project>) => !HasId(rows, p.id)
  }

  /** A joined project the caller does not own is not among the owned ones. */
  lemma {:induction false} JoinedNotOwned(t: Tables, userId: int, i: nat)
    requires IdsIncreasing(t.projects) && i < |t.projects| && t.projects[i].val.ownerId != userId
    ensures !HasId(Filter(t.projects, OwnedBy(userId)), t.projects[i].id)
  {
    var owned := Filter(t.projects, OwnedBy(userId));
    forall j | 0 <= j < |owned| ensures owned[j].id != t.projects[i].id {
      var k :| 0 <= k < |t.projects| && t.projects[k] == owned[j];
      assert t.projects[k].val.ownerId == userId;
    }
  }

  /** With distinct keys, every owned or joined project is listed, and exactly once. */
  lemma ReadProjectsExact(t: Tables, userId: int)
    requires IdsIncreasing(t.projects)
    ensures var r := ReadProjects(t, userId);
      && (forall i :: 0 <= i < |t.projects| && (t.projects[i].val.ownerId == userId || IsMemberOf(t.members, t.projects[i].id, userId)) ==>
            t.projects[i] in r)
      && (forall i, j :: 0 <= i < j < |r| ==> r[i].id != r[j].id)
  {
    ReadProjectsComplete(t, userId);
    var owned := Filter(t.projects, OwnedBy(userId));
    var joined := Filter(t.projects, JoinedBy(t.members, userId));
    IdsIncreasingFilter(t.projects, OwnedBy(userId));
    IdsIncreasingFilter(t.projects, JoinedBy(t.members, userId));
    IdsIncreasingFilter(joined, NotAmong(owned));
    KeysDisjointAppend(owned, Filter(joined, NotAmong(owned)));
  }

  lemma ReadProjectsComplete(t: Tables, userId: int)
    requires IdsIncreasing(t.projects)
    ensures forall i :: 0 <= i < |t.projects| && (t.projects[i].val.ownerId == userId || IsMemberOf(t.members, t.projects[i].id, userId)) ==>
      t.projects[i] in ReadProjects(t, userId)
  {
    var owned := Filter(t.projects, OwnedBy(userId));
    var joined := Filter(t.projects, JoinedBy(t.members, userId));
    var extra := Filter(joined, NotAmong(owned));
    assert owned + extra == ReadProjects(t, userId);
    forall i | 0 <= i < |t.projects| && t.projects[i].val.ownerId != userId && IsMemberOf(t.members, t.projects[i].id, userId)
      ensures t.projects[i] in extra
    {
      assert JoinedBy(t.members, userId)(t.projects[i]);
      assert t.projects[i] in joined;
      JoinedNotOwned(t, userId, i);
    }
  }

  /** Appending rows whose keys are new keeps keys distinct. */
  lemma KeysDisjointAppend(a: seq<Row<Project>>, b: seq<Row<Project>>)
    requires IdsIncreasing(a) && IdsIncreasing(b)
    requires forall k :: 0 <= k < |b| ==> !HasId(a, b[k].id)
    ensures forall i, j :: 0 <= i < j < |a + b| ==> (a + b)[i].id != (a + b)[j].id
  {
    var r := a + b;
    forall i, j | 0 <= i < j < |r| ensures r[i].id != r[j].id {
      if j >= |a| && i < |a| {
        assert r[j] == b[j - |a|];
        assert r[i] == a[i];
      }
    }
  }

  // ---------------------------------------------------------------- tasks

  datatype TaskRequest = TaskRequest(
    title: string, description: Option<string>, status: string, priority: string,
    assigneeId: Option<int>, projectId: Option<int>)

  predicate KnownStatus(s: string) {
    s == TODO || s == IN_PROGRESS || s == DONE
  }

  /** The status fix of `create_task`: an unknown status becomes "todo". */
  function NormalStatus(s: string): (r: string)
    ensures KnownStatus(r)
    ensures KnownStatus(s) <==> r == s
    ensures !KnownStatus(s) ==> r == TODO
  {
    if KnownStatus(s) then s else TODO
  }

  /** `create_task`: the task row, and a "task_create" activity when the project id is truthy. */
  function CreateTaskSpec(t: Tables, userId: int, req: TaskRequest): (r: Step<Row<Task>>)
    ensures r.result.Ok? && r.result.value.id == t.nextId
    ensures var task := r.result.value.val;
      task.ownerId == userId && KnownStatus(task.status) && task.title == req.title
      && (KnownStatus(req.status) ==> task.status == req.status)
      && (!KnownStatus(req.status) ==> task.status == TODO)
      && task.description == req.description && task.priority == req.priority
      && task.assigneeId == req.assigneeId && task.projectId == req.projectId
    ensures r.db.tasks == t.tasks + [r.result.value]
    ensures r.db == t.(tasks := r.db.tasks, activities := r.db.activities, nextId := r.db.nextId)
    ensures r.db.nextId == t.nextId + (if GivenId(req.projectId) then 2 else 1)
    ensures |r.db.activities| == |t.activities| + (if GivenId(req.projectId) then 1 else 0)
    ensures GivenId(req.projectId) ==>
      r.db.activities[|t.activities|].val == Activity(req.projectId.value, userId, "task_create", map["task_title" := Str(req.title)], t.clock)
    ensures r.db.activities[..|t.activities|] == t.activities
  {
    var task := Task(req.title, req.description, NormalStatus(req.status), req.priority, req.assigneeId, req.projectId, userId);
    var row := Row(t.nextId, task);
    var t1 := t.(tasks := Add(t.tasks, t.nextId, task), nextId := t.nextId + 1);
    var t2 := if GivenId(req.projectId) then LogActivity(t1, req.projectId.value, userId, "task_create", map["task_title" := Str(req.title)]) else t1;
    Step(t2, Ok(row))
  }

  lemma CreateTaskConsistent(t: Tables, userId: int, req: TaskRequest)
    requires Consistent(t)
    ensures Consistent(CreateTaskSpec(t, userId, req).db)
  {
    var task := Task(req.title, req.description, NormalStatus(req.status), req.priority, req.assigneeId, req.projectId, userId);
    var t0 := t.(nextId := t.nextId + 1);
    ConsistentGrow(t, t.nextId + 1);
    KeyedAdd(t.tasks, t.nextId, task);
    var t1 := t0.(tasks := Add(t.tasks, t.nextId, task));
    assert Consistent(t1);
    if GivenId(req.projectId) {
      LogActivityConsistent(t1, req.projectId.value, userId, "task_create", map["task_title" := Str(req.title)]);
    }
  }

  method CreateTask(db: Db, user: Row<User>, req: TaskRequest) returns (r: Result<Row<Task>>)
    modifies db
    ensures db.State() == CreateTaskSpec(old(db.State()), user.id, req).db
    ensures r == CreateTaskSpec(old(db.State()), user.id, req).result
  {
    var status := req.status;
    if !(status == TODO || status == IN_PROGRESS || status == DONE) {
      status := TODO;
    }
    var row := Row(db.nextId, Task(req.title, req.description, status, req.priority, req.assigneeId, req.projectId, user.id));
    db.tasks := db.tasks + [row];
    db.nextId := db.nextId + 1;
    if req.projectId.Some? && req.projectId.value != 0 {
      db.Log(req.projectId.value, user.id, "task_create", map["task_title" := Str(req.title)]);
    }
    r := Ok(row);
  }

  // ---------------------------------------------------------------- delete a note

  /** `delete_note`: only the caller's own note can go. */
  function DeleteNoteSpec(t: Tables, userId: int, noteId: int): (r: Step<bool>)
    ensures r.result.Error? <==> !(exists i :: 0 <= i < |t.notes| && t.notes[i].id == noteId && t.notes[i].val.ownerId == userId)
    ensures r.result.Error? ==> r == Step(t, Error(NOT_FOUND, "Note not found"))
    ensures r.result.Ok? ==> r.db == t.(notes := RemoveId(t.notes, noteId))
  {
    match First(t.notes, (n: Row<Note>) => n.id == noteId && n.val.ownerId == userId)
    case None => Step(t, Error(NOT_FOUND, "Note not found"))
    case Some(n) => Step(t.(notes := RemoveId(t.notes, n.id)), Ok(true))
  }

  /** Nobody deletes another user's note, and the store stays consistent. */
  lemma DeleteNoteOwnerScoped(t: Tables, userId: int, noteId: int)
    requires Consistent(t)
    ensures var r := DeleteNoteSpec(t, userId, noteId);
      && Consistent(r.db)
      && forall i :: 0 <= i < |t.notes| && t.notes[i].val.ownerId != userId ==> t.notes[i] in r.db.notes
  {
    var r := DeleteNoteSpec(t, userId, noteId);
    if r.result.Ok? {
      DropNoteConsistent(t, noteId);
      var f := RemoveId(t.notes, noteId);
      var k :| 0 <= k < |t.notes| && t.notes[k].id == noteId && t.notes[k].val.ownerId == userId;
      forall i | 0 <= i < |t.notes| && t.notes[i].val.ownerId != userId ensures t.notes[i] in f {
        assert i != k;
      }
    }
  }

  /** Deleting a note row keeps the store consistent. */
  lemma DropNoteConsistent(t: Tables, noteId: int)
    requires Consistent(t)
    ensures Consistent(t.(notes := RemoveId(t.notes, noteId)))
  {
    var p := (x: Row<Note>) => x.id != noteId;
    IdsIncreasingFilter(t.notes, p);
    var f := RemoveId(t.notes, noteId);
    forall i, j | 0 <= i < j < |f| ensures f[i].val.createdAt <= f[j].val.createdAt {
      FilterOrder(t.notes, p, i, j);
    }
  }

  method DeleteNote(db: Db, user: Row<User>, noteId: int) returns (r: Result<bool>)
    modifies db
    ensures db.State() == DeleteNoteSpec(old(db.State()), user.id, noteId).db
    ensures r == DeleteNoteSpec(old(db.State()), user.id, noteId).result
  {
    var note := First(db.notes, (n: Row<Note>) => n.id == noteId && n.val.ownerId == user.id);
    if note.None? {
      return Error(NOT_FOUND, "Note not found");
    }
    db.notes := RemoveId(db.notes, note.value.id);
    r := Ok(true);
  }
}
