/** The AI assistant endpoints (Downloads/notes/backend/ai_routes.py): which text of the
    database each of them puts in front of the language model, and how the model's answer or
    failure becomes the reply. The model itself is a function parameter. None of these
    handlers checks project access: any caller may have a project's files, tasks or chat
    summarised. */
module Ai {
  import opened Common
  import opened Seqs
  import opened Strs
  import opened Store
  import Chat
  import Analytics

  // ---------------------------------------------------------------- the model call

  /** What the Gemini endpoint does with a prompt: an answer, a reply without candidates, or
      a `requests` failure (refused connection, timeout, an error status) with its message. */
  datatype Reply = Answer(text: string) | NoCandidates | Raised(message: string)

  /** Whether the API key is configured, and the model. */
  datatype AiEnv = AiEnv(keyConfigured: bool, gemini: string -> Reply)

  /** The context, when there is one, goes in front of the prompt after a blank line. */
  function FullPrompt(prompt: string, context: string): (r: string)
    ensures |r| >= |prompt| && r[|r| - |prompt|..] == prompt
    ensures context == "" <==> r == prompt
    ensures context != "" ==> r[..|r| - |prompt|] == "Context: " + context + "\n\n"
  {
    if context != "" then "Context: " + context + "\n\n" + prompt else prompt
  }

  /** The prompt is the fixed instructions `intro`, then `content`, then the fixed `outro`, so
      the content can be cut back out of it. */
  predicate Wraps(prompt: string, intro: string, content: string, outro: string) {
    && |prompt| == |intro| + |content| + |outro|
    && prompt[..|intro|] == intro
    && prompt[|intro|..|prompt| - |outro|] == content
    && prompt[|prompt| - |outro|..] == outro
  }

  lemma WrapsConcat(intro: string, content: string, outro: string)
    ensures Wraps(intro + content + outro, intro, content, outro)
  {
    var p := intro + content + outro;
    assert p[..|intro|] == intro;
    assert p[|intro|..|p| - |outro|] == content;
    assert p[|p| - |outro|..] == outro;
  }

  /** `call_gemini_api`: a missing key, a reply without candidates and a failed request are
      all 500s; otherwise the model's text. */
  function Call(env: AiEnv, prompt: string, context: string): (r: Result<string>)
    ensures r.Ok? <==> env.keyConfigured && env.gemini(FullPrompt(prompt, context)).Answer?
    ensures r.Ok? ==> r.value == env.gemini(FullPrompt(prompt, context)).text
    ensures r.Error? ==> r.status == INTERNAL_SERVER_ERROR
    ensures !env.keyConfigured ==> r == Error(INTERNAL_SERVER_ERROR, "Gemini API key not configured")
    ensures env.keyConfigured && env.gemini(FullPrompt(prompt, context)).NoCandidates? ==>
      r == Error(INTERNAL_SERVER_ERROR, "No response from AI")
    ensures env.keyConfigured && env.gemini(FullPrompt(prompt, context)).Raised? ==>
      r == Error(INTERNAL_SERVER_ERROR, "AI API error: " + env.gemini(FullPrompt(prompt, context)).message)
  {
    if !env.keyConfigured then Error(INTERNAL_SERVER_ERROR, "Gemini API key not configured")
    else match env.gemini(FullPrompt(prompt, context))
      case Answer(text) => Ok(text)
      case NoCandidates => Error(INTERNAL_SERVER_ERROR, "No response from AI")
      case Raised(message) => Error(INTERNAL_SERVER_ERROR, "AI API error: " + message)
  }

  // ---------------------------------------------------------------- mentor

  const MAX_MENTOR_FILES: nat := 10
  const MAX_FILE_EXCERPT: nat := 500
  const MAX_MENTOR_TASKS: nat := 10

  /** One file of the mentor context: its path, then at most 500 characters from the start
      of its content. */
  function FileBlock(f: ProjectFile): (r: string)
    ensures "File: " + f.path + "\n" <= r
    ensures r[|"File: " + f.path + "\n"|..] <= f.content
    ensures |r| <= |"File: " + f.path + "\n"| + MAX_FILE_EXCERPT
  {
    var head := "File: " + f.path + "\n";
    var r := head + Take(f.content, MAX_FILE_EXCERPT);
    assert r[|head|..] == Take(f.content, MAX_FILE_EXCERPT);
    r
  }

  function TaskStatusLine(x: Task): string {
    "- " + x.title + ": " + x.status
  }

  /** The blocks of the project's first ten files, in table order. */
  function MentorFiles(t: Tables, projectId: int): (r: seq<string>)
    ensures var fs := Filter(t.files, InProject(projectId));
      && |r| == (if |fs| < MAX_MENTOR_FILES then |fs| else MAX_MENTOR_FILES)
      && forall i :: 0 <= i < |r| ==> r[i] == FileBlock(fs[i].val)
  {
    var fs := Take(Filter(t.files, InProject(projectId)), MAX_MENTOR_FILES);
    seq(|fs|, i requires 0 <= i < |fs| => FileBlock(fs[i].val))
  }

  /** "- title: status" for each of the project's first ten tasks. */
  function MentorTasks(t: Tables, projectId: int): (r: seq<string>)
    ensures var ts := Filter(t.tasks, Analytics.TaskOf(projectId));
      && |r| == (if |ts| < MAX_MENTOR_TASKS then |ts| else MAX_MENTOR_TASKS)
      && forall i :: 0 <= i < |r| ==> r[i] == "- " + ts[i].val.title + ": " + ts[i].val.status
  {
    var ts := Take(Filter(t.tasks, Analytics.TaskOf(projectId)), MAX_MENTOR_TASKS);
    seq(|ts|, i requires 0 <= i < |ts| => TaskStatusLine(ts[i].val))
  }

  /** The mentor's context: nothing without an existing project; otherwise the file blocks
      separated by blank lines, then the task lines when the project has tasks. */
  function MentorContext(t: Tables, projectId: Option<int>): (r: string)
    ensures !GivenId(projectId) || Lookup(t.projects, projectId.value).None? ==> r == ""
    ensures GivenId(projectId) && Lookup(t.projects, projectId.value).Some? ==>
      var files := Join("\n\n", MentorFiles(t, projectId.value));
      var tasks := MentorTasks(t, projectId.value);
      && (tasks == [] ==> r == files)
      && (tasks != [] ==> r == files + "\n\nTasks:\n" + Join("\n", tasks))
  {
    if !GivenId(projectId) then ""
    else match Lookup(t.projects, projectId.value)
      case None => ""
      case Some(_) =>
        var files := Join("\n\n", MentorFiles(t, projectId.value));
        var tasks := MentorTasks(t, projectId.value);
        if tasks == [] then files else files + "\n\nTasks:\n" + Join("\n", tasks)
  }

  /** The mentor's task lines come back out of the context when no title or status holds a
      line break. */
  lemma {:induction false} MentorTaskLinesRecoverable(t: Tables, projectId: int)
    requires MentorTasks(t, projectId) != []
    requires forall x :: x in t.tasks ==> '\n' !in x.val.title && '\n' !in x.val.status
    ensures Split(Join("\n", MentorTasks(t, projectId)), '\n') == MentorTasks(t, projectId)
  {
    var lines := MentorTasks(t, projectId);
    var ts := Filter(t.tasks, Analytics.TaskOf(projectId));
    forall k | 0 <= k < |lines|
      ensures '\n' !in lines[k]
    {
      assert ts[k] in t.tasks;
      assert lines[k] == "- " + ts[k].val.title + ": " + ts[k].val.status;
    }
    SplitJoin(lines, '\n');
  }

  const MENTOR_INTRO: string := "You are an AI coding mentor. Help the user with their request.\n\nUser request: "
  const MENTOR_OUTRO: string := "\n\nProvide helpful, clear, and concise assistance. If it's about code, provide code examples. If it's about workflow, provide step-by-step guidance.\n"

  function MentorPrompt(request: string): (r: string)
    ensures Wraps(r, MENTOR_INTRO, request, MENTOR_OUTRO)
  {
    WrapsConcat(MENTOR_INTRO, request, MENTOR_OUTRO);
    MENTOR_INTRO + request + MENTOR_OUTRO
  }

  datatype MentorRequest = MentorRequest(prompt: string, projectId: Option<int>)

  /** `ai_mentor`: the model's answer to the request with the project's context. */
  function MentorSpec(t: Tables, env: AiEnv, req: MentorRequest): (r: Result<string>)
    ensures r.Ok? <==> env.keyConfigured && env.gemini(FullPrompt(MentorPrompt(req.prompt), MentorContext(t, req.projectId))).Answer?
    ensures !GivenId(req.projectId) ==> r == Call(env, MentorPrompt(req.prompt), "")
    ensures r.Ok? ==> r.value == env.gemini(FullPrompt(MentorPrompt(req.prompt), MentorContext(t, req.projectId))).text
    ensures r.Error? ==> r.status == INTERNAL_SERVER_ERROR
  {
    Call(env, MentorPrompt(req.prompt), MentorContext(t, req.projectId))
  }

  // ---------------------------------------------------------------- summarizer

  const MAX_CHAT_MESSAGES: nat := 100
  const MAX_SUMMARY_TEXT: nat := 10000

  /** `note.extracted_content or note.summary or note.title`. */
  function NoteText(n: Note): (r: string)
    ensures Given(n.extracted) ==> r == n.extracted.value
    ensures !Given(n.extracted) && Given(n.summary) ==> r == n.summary.value
    ensures !Given(n.extracted) && !Given(n.summary) ==> r == n.title
  {
    OrElse(n.extracted, OrElse(n.summary, n.title))
  }

  /** `m.user.email if m.user else 'User'`. */
  function Sender(users: seq<Row<User>>, userId: int): string {
    match Lookup(users, userId)
    case None => "User"
    case Some(u) => u.email
  }

  /** The project's oldest hundred messages, oldest first. */
  function ChatWindow(t: Tables, projectId: int): (r: seq<Row<Message>>)
    ensures var all := Filter(t.messages, Chat.InChat(projectId));
      && |r| == (if |all| < MAX_CHAT_MESSAGES then |all| else MAX_CHAT_MESSAGES)
      && r <= all
  {
    Take(Filter(t.messages, Chat.InChat(projectId)), MAX_CHAT_MESSAGES)
  }

  /** The window holds the project's earliest messages, in the order they were sent. */
  lemma {:induction false} ChatWindowOldestFirst(t: Tables, projectId: int)
    requires Chronological(t.messages, (m: Message) => m.createdAt, t.clock)
    ensures var w := ChatWindow(t, projectId);
      var all := Filter(t.messages, Chat.InChat(projectId));
      && (forall i, j :: 0 <= i < j < |w| ==> w[i].val.createdAt <= w[j].val.createdAt)
      && forall i, j :: 0 <= i < |w| <= j < |all| ==> w[i].val.createdAt <= all[j].val.createdAt
  {
    var key := (m: Row<Message>) => m.val.createdAt;
    var all := Filter(t.messages, Chat.InChat(projectId));
    assert SortedBy(t.messages, key);
    FilterSorted(t.messages, Chat.InChat(projectId), key);
    var w := ChatWindow(t, projectId);
    assert forall i :: 0 <= i < |w| ==> w[i] == all[i];
  }

  /** "sender: message" for each message of the window. */
  function ChatLines(t: Tables, projectId: int): (r: seq<string>)
    ensures var w := ChatWindow(t, projectId);
      && |r| == |w|
      && forall i :: 0 <= i < |w| ==> r[i] == Sender(t.users, w[i].val.userId) + ": " + w[i].val.text
  {
    var w := ChatWindow(t, projectId);
    seq(|w|, i requires 0 <= i < |w| => Sender(t.users, w[i].val.userId) + ": " + w[i].val.text)
  }

  /** The project's title, a line break and its description, then its tasks when it has any. */
  function ProjectText(t: Tables, p: Project, projectId: int): (r: string)
    ensures var head := p.title + "\n" + Show(p.description);
      var ts := Filter(t.tasks, Analytics.TaskOf(projectId));
      && head <= r
      && (ts == [] <==> r == head)
      && (ts != [] ==> r == head + "\n\nTasks:\n" + Join("\n", TaskTitles(t, projectId)))
  {
    var ts := Filter(t.tasks, Analytics.TaskOf(projectId));
    var head := p.title + "\n" + Show(p.description);
    if ts == [] then head
    else head + "\n\nTasks:\n" + Join("\n", TaskTitles(t, projectId))
  }

  /** "- title" for each of the project's tasks, in table order. */
  function TaskTitles(t: Tables, projectId: int): (r: seq<string>)
    ensures var ts := Filter(t.tasks, Analytics.TaskOf(projectId));
      |r| == |ts| && forall i :: 0 <= i < |r| ==> r[i] == "- " + ts[i].val.title
  {
    var ts := Filter(t.tasks, Analytics.TaskOf(projectId));
    seq(|ts|, i requires 0 <= i < |ts| => "- " + ts[i].val.title)
  }

  datatype SummaryRequest = SummaryRequest(text: Option<string>, resourceId: Option<int>, resourceType: Option<string>)

  /** The text `ai_summarize` settles on: the request's own, replaced by the named note's,
      chat's or project's text when both a resource id and type are given and the resource
      exists (a chat always exists, possibly empty). */
  function SummaryText(t: Tables, req: SummaryRequest): (r: Option<string>)
    ensures !(GivenId(req.resourceId) && Given(req.resourceType)) ==> r == req.text
    ensures GivenId(req.resourceId) && req.resourceType == Some("note") ==>
      r == (if Lookup(t.notes, req.resourceId.value).Some? then Some(NoteText(Lookup(t.notes, req.resourceId.value).value)) else req.text)
    ensures GivenId(req.resourceId) && req.resourceType == Some("chat") ==>
      r == Some(Join("\n", ChatLines(t, req.resourceId.value)))
    ensures GivenId(req.resourceId) && req.resourceType == Some("project") ==>
      r == (if Lookup(t.projects, req.resourceId.value).Some?
            then Some(ProjectText(t, Lookup(t.projects, req.resourceId.value).value, req.resourceId.value)) else req.text)
    ensures Given(req.resourceType) && req.resourceType.value !in {"note", "chat", "project"} ==> r == req.text
  {
    if !(GivenId(req.resourceId) && Given(req.resourceType)) then req.text
    else
      var id := req.resourceId.value;
      match req.resourceType.value
      case "note" =>
        (match Lookup(t.notes, id)
         case None => req.text
         case Some(n) => Some(NoteText(n)))
      case "chat" => Some(Join("\n", ChatLines(t, id)))
      case "project" =>
        (match Lookup(t.projects, id)
         case None => req.text
         case Some(p) => Some(ProjectText(t, p, id)))
      case _ => req.text
  }

  const SUMMARY_INTRO: string := "Please provide a concise summary of the following content. Focus on key points, main ideas, and important details.\n\nContent:\n"
  const SUMMARY_OUTRO: string := "\n\nSummary:"
  /** The text of a Python comment that sits inside the prompt's f-string. */
  const STRAY_COMMENT: string := "  # Limit to 10k chars"

  /** The prompt carries exactly `content` between its fixed opening and closing. */
  predicate Frames(prompt: string, content: string) {
    Wraps(prompt, SUMMARY_INTRO, content, SUMMARY_OUTRO)
  }

  /** The summary prompt as the source writes it: the comment meant for the reader of the
      code is sent to the model after the content. */
  function SummaryPromptAsWritten(text: string): (r: string)
    ensures Wraps(r, SUMMARY_INTRO, Take(text, MAX_SUMMARY_TEXT) + STRAY_COMMENT, SUMMARY_OUTRO)
  {
    WrapsConcat(SUMMARY_INTRO, Take(text, MAX_SUMMARY_TEXT) + STRAY_COMMENT, SUMMARY_OUTRO);
    SUMMARY_INTRO + (Take(text, MAX_SUMMARY_TEXT) + STRAY_COMMENT) + SUMMARY_OUTRO
  }

  /** As written, the prompt never frames the content alone. */
  lemma SummaryPromptAsWrittenLeaks(text: string)
    ensures !Frames(SummaryPromptAsWritten(text), Take(text, MAX_SUMMARY_TEXT))
    ensures var p := SummaryPromptAsWritten(text);
      p[|p| - |SUMMARY_OUTRO| - |STRAY_COMMENT|..|p| - |SUMMARY_OUTRO|] == STRAY_COMMENT
  {
    var p := SummaryPromptAsWritten(text);
    assert |p| == |SUMMARY_INTRO| + |Take(text, MAX_SUMMARY_TEXT)| + |STRAY_COMMENT| + |SUMMARY_OUTRO|;
    assert p[|p| - |SUMMARY_OUTRO| - |STRAY_COMMENT|..|p| - |SUMMARY_OUTRO|] == STRAY_COMMENT;
  }

  /** The summary prompt without the comment: the first 10000 characters of the text framed
      by the instructions. */
  function SummaryPrompt(text: string): (r: string)
    ensures Frames(r, Take(text, MAX_SUMMARY_TEXT))
  {
    WrapsConcat(SUMMARY_INTRO, Take(text, MAX_SUMMARY_TEXT), SUMMARY_OUTRO);
    SUMMARY_INTRO + Take(text, MAX_SUMMARY_TEXT) + SUMMARY_OUTRO
  }

  /** `ai_summarize`: 400 when no text remains, else the model's summary of it. */
  function SummarizeSpec(t: Tables, env: AiEnv, req: SummaryRequest): (r: Result<string>)
    ensures !Given(SummaryText(t, req)) <==> r == Error(BAD_REQUEST, "No text to summarize")
    ensures Given(SummaryText(t, req)) ==> r == Call(env, SummaryPrompt(SummaryText(t, req).value), "")
  {
    var text := SummaryText(t, req);
    if !Given(text) then Error(BAD_REQUEST, "No text to summarize")
    else Call(env, SummaryPrompt(text.value), "")
  }

  /** A project's chat always gives text once some message was sent, even without access to
      the project. */
  lemma {:induction false} ChatAlwaysSummarizable(t: Tables, projectId: int, text: Option<string>)
    requires projectId != 0
    requires Filter(t.messages, Chat.InChat(projectId)) != []
    ensures Given(SummaryText(t, SummaryRequest(text, Some(projectId), Some("chat"))))
  {
    var lines := ChatLines(t, projectId);
    assert |lines| >= 1;
    assert |lines[0]| >= 2;
    JoinHead("\n", lines);
  }

  /** A join starts with its first part. */
  lemma {:induction false} JoinHead(sep: string, parts: seq<string>)
    requires parts != []
    ensures |Join(sep, parts)| >= |parts[0]|
    ensures Join(sep, parts)[..|parts[0]|] == parts[0]
  {
    if |parts| > 1 {
      assert Join(sep, parts) == parts[0] + (sep + Join(sep, parts[1..]));
    }
  }

  // ---------------------------------------------------------------- study flow

  const MAX_STUDY_TEXT: nat := 5000

  const FLASHCARD_INTRO: string := "Convert the following content into flashcards in JSON format. Each flashcard should have a \"question\" and \"answer\" field.\n\nContent:\n"
  const FLASHCARD_OUTRO: string := "\n\nFormat the response as a JSON array of flashcards. Example format:\n[\n  {\"question\": \"What is...?\", \"answer\": \"It is...\"},\n  {\"question\": \"How does...?\", \"answer\": \"It works by...\"}\n]\n\nFlashcards:"
  const STUDY_INTRO: string := "Create a comprehensive study summary from the following content. Organize it into clear sections with key concepts, definitions, and important points.\n\nContent:\n"
  const STUDY_OUTRO: string := "\n\nStudy Summary:"

  /** The flashcard prompt for the format "flashcards", the study-summary prompt for any other. */
  function StudyPrompt(format: string, excerpt: string): (r: string)
    ensures format == "flashcards" ==> Wraps(r, FLASHCARD_INTRO, excerpt, FLASHCARD_OUTRO)
    ensures format != "flashcards" ==> Wraps(r, STUDY_INTRO, excerpt, STUDY_OUTRO)
  {
    if format == "flashcards" then
      WrapsConcat(FLASHCARD_INTRO, excerpt, FLASHCARD_OUTRO);
      FLASHCARD_INTRO + excerpt + FLASHCARD_OUTRO
    else
      WrapsConcat(STUDY_INTRO, excerpt, STUDY_OUTRO);
      STUDY_INTRO + excerpt + STUDY_OUTRO
  }

  datatype StudyFlowReply = StudyFlowReply(format: string, content: string, noteId: int)

  /** `ai_studyflow`: 404 for a missing note, 400 for one without text, else the model's
      flashcards (for the format "flashcards" only) or study summary of its first 5000
      characters. */
  function StudyFlowSpec(t: Tables, env: AiEnv, noteId: int, format: string): (r: Result<StudyFlowReply>)
    ensures Lookup(t.notes, noteId).None? <==> r == Error(NOT_FOUND, "Note not found")
    ensures Lookup(t.notes, noteId).Some? && NoteText(Lookup(t.notes, noteId).value) == "" <==>
      r == Error(BAD_REQUEST, "Note has no content to convert")
    ensures Lookup(t.notes, noteId).Some? && NoteText(Lookup(t.notes, noteId).value) != "" ==>
      var prompt := StudyPrompt(format, Take(NoteText(Lookup(t.notes, noteId).value), MAX_STUDY_TEXT));
      && (r.Ok? <==> Call(env, prompt, "").Ok?)
      && (r.Ok? ==> r.value == StudyFlowReply(format, Call(env, prompt, "").value, noteId))
      && (r.Error? ==> r == Error(Call(env, prompt, "").status, Call(env, prompt, "").detail))
  {
    match Lookup(t.notes, noteId)
    case None => Error(NOT_FOUND, "Note not found")
    case Some(n) =>
      var content := NoteText(n);
      if content == "" then Error(BAD_REQUEST, "Note has no content to convert")
      else
        match Call(env, StudyPrompt(format, Take(content, MAX_STUDY_TEXT)), "")
        case Error(s, d) => Error(s, d)
        case Ok(text) => Ok(StudyFlowReply(format, text, noteId))
  }

  // ---------------------------------------------------------------- resource finder

  /** The distinct values of `s`, each once, in order of first appearance. */
  function Distinct(s: seq<string>): (r: seq<string>)
    ensures forall x :: x in r <==> x in s
    ensures forall i, j :: 0 <= i < j < |r| ==> r[i] != r[j]
  {
    if s == [] then []
    else
      var rest := Distinct(s[..|s| - 1]);
      if s[|s| - 1] in rest then rest else rest + [s[|s| - 1]]
  }

  /** The resource finder's context: nothing without an existing project; otherwise its title
      and description, and the file types its files use when it has files. */
  function ResourceContext(t: Tables, projectId: Option<int>): (r: string)
    ensures !GivenId(projectId) || Lookup(t.projects, projectId.value).None? ==> r == ""
    ensures GivenId(projectId) && Lookup(t.projects, projectId.value).Some? ==>
      var p := Lookup(t.projects, projectId.value).value;
      var head := "Project: " + p.title + "\nDescription: " + Show(p.description) + "\n";
      && head <= r
      && (Filter(t.files, InProject(projectId.value)) == [] <==> r == head)
      && (Filter(t.files, InProject(projectId.value)) != [] ==>
            r == head + "Technologies: " + Join(", ", FileTypes(t, projectId.value)) + "\n")
  {
    if !GivenId(projectId) then ""
    else match Lookup(t.projects, projectId.value)
      case None => ""
      case Some(p) =>
        var head := "Project: " + p.title + "\nDescription: " + Show(p.description) + "\n";
        var types := FileTypes(t, projectId.value);
        if types == [] then head else head + "Technologies: " + Join(", ", types) + "\n"
  }

  /** The project's file types, each once. */
  function FileTypes(t: Tables, projectId: int): (r: seq<string>)
    ensures forall x :: x in r <==> exists f :: f in t.files && f.val.projectId == projectId && f.val.fileType == x
    ensures forall i, j :: 0 <= i < j < |r| ==> r[i] != r[j]
    ensures r == [] <==> Filter(t.files, InProject(projectId)) == []
  {
    var fs := Filter(t.files, InProject(projectId));
    var types := seq(|fs|, i requires 0 <= i < |fs| => fs[i].val.fileType);
    forall x | x in types
      ensures exists f :: f in t.files && f.val.projectId == projectId && f.val.fileType == x
    {
      var i :| 0 <= i < |types| && types[i] == x;
      assert fs[i] in t.files && fs[i].val.projectId == projectId;
    }
    forall f | f in t.files && f.val.projectId == projectId
      ensures f.val.fileType in types
    {
      assert f in fs;
      var i :| 0 <= i < |fs| && fs[i] == f;
      assert types[i] == f.val.fileType;
    }
    Distinct(types)
  }

  const RESOURCE_INTRO: string := "Based on the following query and context, suggest relevant learning resources, documentation, tutorials, or tools that would be helpful.\n\nQuery: "
  const RESOURCE_OUTRO: string := "\n\nProvide a list of suggestions with:\n1. Resource name\n2. Type (documentation, tutorial, tool, etc.)\n3. Brief description\n4. Why it's relevant\n\nSuggestions:"

  function ResourcePrompt(query: string, context: string): (r: string)
    ensures Wraps(r, RESOURCE_INTRO, query + "\n" + context, RESOURCE_OUTRO)
  {
    WrapsConcat(RESOURCE_INTRO, query + "\n" + context, RESOURCE_OUTRO);
    RESOURCE_INTRO + (query + "\n" + context) + RESOURCE_OUTRO
  }

  datatype ResourceReply = ResourceReply(query: string, suggestions: string, projectId: Option<int>)

  /** `ai_resource_finder`: the context goes into the prompt itself, not in front of it. */
  function ResourceFinderSpec(t: Tables, env: AiEnv, query: string, projectId: Option<int>): (r: Result<ResourceReply>)
    ensures var prompt := ResourcePrompt(query, ResourceContext(t, projectId));
      && (r.Ok? <==> env.keyConfigured && env.gemini(prompt).Answer?)
      && (r.Ok? ==> r.value == ResourceReply(query, env.gemini(prompt).text, projectId))
  {
    var prompt := ResourcePrompt(query, ResourceContext(t, projectId));
    match Call(env, prompt, "")
    case Error(s, d) => Error(s, d)
    case Ok(text) => Ok(ResourceReply(query, text, projectId))
  }
}
