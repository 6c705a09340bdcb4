/** A project's chat (Downloads/notes/backend/chat_routes.py): who may read and write it, the
    latest messages in the order they were sent, and who may delete a message. */
module Chat {
  import opened Common
  import opened Seqs
  import opened Store
  import Collaboration

  /** How much of a message the "chat_message" activity keeps. */
  const PREVIEW_LENGTH: nat := 50

  /** `check_project_access` of the chat and analytics handlers: a missing project is 404, the
      owner and members pass, and anyone passes on a public project. */
  function ViewAccess(t: Tables, projectId: int, userId: int): (r: Result<Project>)
    ensures Lookup(t.projects, projectId).None? <==> r == Error(NOT_FOUND, "Project not found")
    ensures r.Ok? <==>
      var p := Lookup(t.projects, projectId);
      p.Some? && (p.value.ownerId == userId || Membership(t.members, projectId, userId).Some? || p.value.isPublic)
    ensures Lookup(t.projects, projectId).Some? && r.Error? ==> r == Error(FORBIDDEN, "Access denied")
    ensures r.Ok? ==> r.value == Lookup(t.projects, projectId).value
  {
    match Lookup(t.projects, projectId)
    case None => Error(NOT_FOUND, "Project not found")
    case Some(p) =>
      if p.ownerId == userId then Ok(p)
      else if Membership(t.members, projectId, userId).None? && !p.isPublic then Error(FORBIDDEN, "Access denied")
      else Ok(p)
  }

  /** A message of this project. */
  function InChat(projectId: int): Row<Message> -> bool {
    (m: Row<Message>) => m.val.projectId == projectId
  }

  /** `get_chat_messages`: the project's last `limit` messages (all of them for a negative
      limit), in the order they were sent. */
  function GetMessages(t: Tables, userId: int, projectId: int, limit: int): (r: Result<seq<Row<Message>>>)
    ensures r.Ok? <==> ViewAccess(t, projectId, userId).Ok?
    ensures r.Error? ==> r == Error(ViewAccess(t, projectId, userId).status, ViewAccess(t, projectId, userId).detail)
    ensures r.Ok? ==>
      var all := Filter(t.messages, InChat(projectId));
      && |r.value| == (if 0 <= limit < |all| then limit else |all|)
      && r.value == all[|all| - |r.value|..]
  {
    match ViewAccess(t, projectId, userId)
    case Error(s, m) => Error(s, m)
    case Ok(_) => Ok(Latest(Filter(t.messages, InChat(projectId)), limit))
  }

  /** The listing holds messages of the project only, in the order of their creation times. */
  lemma {:induction false} GetMessagesInOrder(t: Tables, userId: int, projectId: int, limit: int)
    requires Chronological(t.messages, (m: Message) => m.createdAt, t.clock)
    requires GetMessages(t, userId, projectId, limit).Ok?
    ensures var r := GetMessages(t, userId, projectId, limit).value;
      && (forall x :: x in r ==> x in t.messages && x.val.projectId == projectId)
      && forall i, j :: 0 <= i < j < |r| ==> r[i].val.createdAt <= r[j].val.createdAt
  {
    var all := Filter(t.messages, InChat(projectId));
    var r := GetMessages(t, userId, projectId, limit).value;
    var key := (m: Row<Message>) => m.val.createdAt;
    assert SortedBy(t.messages, key);
    FilterSorted(t.messages, InChat(projectId), key);
    SuffixSorted(all, |all| - |r|, key);
    assert forall x :: x in r ==> x in all;
  }

  /** `send_chat_message`: the message, then a "chat_message" activity holding its first 50
      characters. */
  function SendSpec(t: Tables, userId: int, projectId: int, text: string): (r: Step<Row<Message>>)
    ensures r.result.Ok? <==> ViewAccess(t, projectId, userId).Ok?
    ensures r.result.Error? ==> r.db == t
    ensures r.result.Ok? ==>
      && r.result.value == Row(t.nextId, Message(projectId, userId, text, t.clock))
      && r.db == LogActivity(t.(messages := t.messages + [r.result.value], nextId := t.nextId + 1),
                             projectId, userId, "chat_message", map["message_preview" := Str(Take(text, PREVIEW_LENGTH))])
  {
    match ViewAccess(t, projectId, userId)
    case Error(s, m) => Step(t, Error(s, m))
    case Ok(_) =>
      var row := Row(t.nextId, Message(projectId, userId, text, t.clock));
      var t1 := t.(messages := Add(t.messages, t.nextId, row.val), nextId := t.nextId + 1);
      Step(LogActivity(t1, projectId, userId, "chat_message", map["message_preview" := Str(Take(text, PREVIEW_LENGTH))]), Ok(row))
  }

  lemma SendConsistent(t: Tables, userId: int, projectId: int, text: string)
    requires Consistent(t)
    ensures Consistent(SendSpec(t, userId, projectId, text).db)
  {
    var r := SendSpec(t, userId, projectId, text);
    if r.result.Ok? {
      var m := r.result.value.val;
      KeyedAdd(t.messages, t.nextId, m);
      ChronologicalAdd(t.messages, (m: Message) => m.createdAt, t.clock, t.nextId, m);
      var t1 := t.(messages := Add(t.messages, t.nextId, m), nextId := t.nextId + 1);
      LogActivityConsistent(t1, projectId, userId, "chat_message", map["message_preview" := Str(Take(text, PREVIEW_LENGTH))]);
    }
  }

  /** A message just sent is the last one the listing shows, whatever positive limit. */
  lemma {:induction false} SentIsLatest(t: Tables, userId: int, projectId: int, text: string, limit: int)
    requires SendSpec(t, userId, projectId, text).result.Ok?
    requires limit != 0
    ensures var r := SendSpec(t, userId, projectId, text);
      var shown := GetMessages(r.db, userId, projectId, limit);
      shown.Ok? && shown.value != [] && shown.value[|shown.value| - 1] == r.result.value
  {
    var r := SendSpec(t, userId, projectId, text);
    var row := r.result.value;
    FilterAppend(t.messages, [row], InChat(projectId));
    FilterSingle(row, InChat(projectId));
    var all := Filter(r.db.messages, InChat(projectId));
    assert all == Filter(t.messages, InChat(projectId)) + [row];
    assert Reverse(all)[0] == row;
  }

  /** The activity preview is a prefix of the message, at most 50 characters long. */
  lemma PreviewIsPrefix(t: Tables, userId: int, projectId: int, text: string)
    requires SendSpec(t, userId, projectId, text).result.Ok?
    ensures var a := SendSpec(t, userId, projectId, text).db.activities;
      var preview := a[|a| - 1].val.data["message_preview"];
      && preview.Str? && preview.s <= text && |preview.s| <= PREVIEW_LENGTH
      && (|text| <= PREVIEW_LENGTH ==> preview.s == text)
  {
  }

  /** The message with this key, when it belongs to the project. */
  function FindMessage(t: Tables, projectId: int, messageId: int): (r: Option<Message>)
    ensures r.Some? ==> messageId >= 0 && Row(messageId, r.value) in t.messages && r.value.projectId == projectId
    ensures r.Some? <==> HasId(t.messages, messageId) && Lookup(t.messages, messageId).value.projectId == projectId
    ensures IdsIncreasing(t.messages) ==> forall i :: 0 <= i < |t.messages| && t.messages[i].id == messageId && t.messages[i].val.projectId == projectId ==>
      r == Some(t.messages[i].val)
  {
    LookupRows(t.messages);
    match Lookup(t.messages, messageId)
    case None => None
    case Some(m) => if m.projectId == projectId then Some(m) else None
  }

  /** `delete_chat_message`: the author, the project's owner or one of its leaders may delete. */
  function DeleteMessageSpec(t: Tables, userId: int, projectId: int, messageId: int): (r: Step<string>)
    ensures r.result.Ok? <==>
      && ViewAccess(t, projectId, userId).Ok? && FindMessage(t, projectId, messageId).Some?
      && (FindMessage(t, projectId, messageId).value.userId == userId
          || Collaboration.IsLeader(t, Lookup(t.projects, projectId).value, projectId, userId))
    ensures r.result.Error? ==> r.db == t
    ensures ViewAccess(t, projectId, userId).Ok? && FindMessage(t, projectId, messageId).None? ==>
      r.result == Error(NOT_FOUND, "Message not found")
    ensures ViewAccess(t, projectId, userId).Ok? && FindMessage(t, projectId, messageId).Some? && r.result.Error? ==>
      r.result == Error(FORBIDDEN, "Cannot delete this message")
    ensures r.result.Ok? ==>
      && r.result.value == "Message deleted successfully"
      && r.db == t.(messages := r.db.messages)
      && forall x :: x in r.db.messages <==> x in t.messages && x.id != messageId
  {
    match ViewAccess(t, projectId, userId)
    case Error(s, m) => Step(t, Error(s, m))
    case Ok(p) =>
      match FindMessage(t, projectId, messageId)
      case None => Step(t, Error(NOT_FOUND, "Message not found"))
      case Some(m) =>
        if m.userId == userId || Collaboration.LeaderOf(t, p, projectId, userId) then
          Step(t.(messages := RemoveId(t.messages, messageId)), Ok("Message deleted successfully"))
        else Step(t, Error(FORBIDDEN, "Cannot delete this message"))
  }

  lemma {:induction false} DeleteMessageConsistent(t: Tables, userId: int, projectId: int, messageId: int)
    requires Consistent(t)
    ensures Consistent(DeleteMessageSpec(t, userId, projectId, messageId).db)
  {
    var r := DeleteMessageSpec(t, userId, projectId, messageId);
    if r.result.Ok? {
      var p := (x: Row<Message>) => x.id != messageId;
      var ms := r.db.messages;
      assert ms == Filter(t.messages, p);
      IdsIncreasingFilter(t.messages, p);
      forall i, j | 0 <= i < j < |ms| ensures ms[i].val.createdAt <= ms[j].val.createdAt {
        FilterOrder(t.messages, p, i, j);
      }
    }
  }

  // ---------------------------------------------------------------- the handlers

  method SendChatMessage(db: Db, user: Row<User>, projectId: int, text: string) returns (r: Result<Row<Message>>)
    modifies db
    ensures db.State() == SendSpec(old(db.State()), user.id, projectId, text).db
    ensures r == SendSpec(old(db.State()), user.id, projectId, text).result
  {
    var access := ViewAccess(db.State(), projectId, user.id);
    if access.Error? {
      return Error(access.status, access.detail);
    }
    var row := Row(db.nextId, Message(projectId, user.id, text, db.clock));
    db.messages := db.messages + [row];
    db.nextId := db.nextId + 1;
    db.Log(projectId, user.id, "chat_message", map["message_preview" := Str(Take(text, PREVIEW_LENGTH))]);
    r := Ok(row);
  }

  method DeleteChatMessage(db: Db, user: Row<User>, projectId: int, messageId: int) returns (r: Result<string>)
    modifies db
    ensures db.State() == DeleteMessageSpec(old(db.State()), user.id, projectId, messageId).db
    ensures r == DeleteMessageSpec(old(db.State()), user.id, projectId, messageId).result
  {
    var access := ViewAccess(db.State(), projectId, user.id);
    if access.Error? {
      return Error(access.status, access.detail);
    }
    var message := FindMessage(db.State(), projectId, messageId);
    if message.None? {
      return Error(NOT_FOUND, "Message not found");
    }
    if !(message.value.userId == user.id || Collaboration.LeaderOf(db.State(), access.value, projectId, user.id)) {
      return Error(FORBIDDEN, "Cannot delete this message");
    }
    db.messages := RemoveId(db.messages, messageId);
    r := Ok("Message deleted successfully");
  }
}
