/** The decisions of `upload_file` (Downloads/notes/backend/routes.py:289-551): the note
    type, its title, its tags, which extracted text is kept, what the note row stores and
    what the response says. Cloudinary, the local disk and Firestore are outside the model:
    the URL Cloudinary returned and the timestamp of a local copy are inputs. */
module Upload {
  import opened Common
  import opened Strs
  import opened Seqs
  import opened FileExtractor

  /** The multipart `file` part: its name, its content type and what each library would
      extract from its bytes. */
  datatype UploadedFile = UploadedFile(filename: Option<string>, contentType: Option<string>, out: LibraryOutput)

  /** The form fields that decide the outcome (`subject` and `is_public` only reach Firestore). */
  datatype UploadForm = UploadForm(
    file: Option<UploadedFile>,
    title: Option<string>,
    kind: Option<string>,
    tags: Option<string>,
    content: Option<string>)

  /** The outside world at upload time: installed extractors, the URL Cloudinary returned
      (None when it is not configured or failed) and the `%Y%m%d_%H%M%S` stamp of a local copy. */
  datatype Environment = Environment(libs: Libraries, cloudUrl: Option<string>, stamp: string)

  const MAX_EXTRACTED: nat := 100000
  const TRUNCATION_MARKER: string := "\n\n[Content truncated due to length...]"
  const LOCAL_UPLOAD_PREFIX: string := "http://localhost:8000/uploads/"
  const OCTET_STREAM: string := "application/octet-stream"

  // ---------------------------------------------------------------- tags

  /** Every piece stripped, in order. */
  function StripAll(pieces: seq<string>): (r: seq<string>)
    ensures |r| == |pieces| && forall k :: 0 <= k < |r| ==> r[k] == Strip(pieces[k])
  {
    if pieces == [] then [] else [Strip(pieces[0])] + StripAll(pieces[1..])
  }

  predicate NonBlank(s: string) {
    s != ""
  }

  /** `[t.strip() for t in pieces if t.strip()]` */
  function StrippedPieces(pieces: seq<string>): (r: seq<string>)
    ensures |r| <= |pieces|
    ensures forall k :: 0 <= k < |r| ==> r[k] != "" && Trimmed(r[k])
    ensures r == Filter(StripAll(pieces), NonBlank)
  {
    if pieces == [] then []
    else
      var rest := StrippedPieces(pieces[1..]);
      var t := Strip(pieces[0]);
      assert StripAll(pieces)[1..] == StripAll(pieces[1..]);
      if t == "" then rest else Cons(t, rest)
  }

  /** A clean tag in front of clean tags. */
  function Cons(t: string, rest: seq<string>): (r: seq<string>)
    requires t != "" && Trimmed(t)
    requires forall k :: 0 <= k < |rest| ==> rest[k] != "" && Trimmed(rest[k])
    ensures |r| == |rest| + 1 && r[0] == t && r[1..] == rest
    ensures forall k :: 0 <= k < |r| ==> r[k] != "" && Trimmed(r[k])
  {
    [t] + rest
  }

  lemma {:induction false} StrippedPiecesAvoid(pieces: seq<string>, c: char)
    requires forall j :: 0 <= j < |pieces| ==> c !in pieces[j]
    ensures forall k :: 0 <= k < |StrippedPieces(pieces)| ==> c !in StrippedPieces(pieces)[k]
  {
    if pieces != [] {
      StrippedPiecesAvoid(pieces[1..], c);
      StripKeepsOnlyInnerChars(pieces[0], c);
    }
  }

  lemma StripKeepsOnlyInnerChars(s: string, c: char)
    requires c !in s
    ensures c !in Strip(s)
  {
    var l := StripLeft(s);
    SliceAvoids(s, |s| - |l|, |s|, c);
    SliceAvoids(l, 0, |StripRight(l)|, c);
  }

  lemma SliceAvoids(s: string, i: nat, j: nat, c: char)
    requires i <= j <= |s| && c !in s
    ensures c !in s[i..j]
  {
    assert forall k :: 0 <= k < j - i ==> s[i..j][k] == s[i + k];
  }

  /** The `tags` form field: comma-separated, each piece stripped, empty pieces dropped. */
  function ParseTags(tags: Option<string>): (r: seq<string>)
    ensures !Given(tags) ==> r == []
    ensures Given(tags) ==> r == Filter(StripAll(Split(tags.value, ',')), NonBlank)
    ensures forall k :: 0 <= k < |r| ==> r[k] != "" && Trimmed(r[k]) && ',' !in r[k]
  {
    if Given(tags) then
      var pieces := Split(tags.value, ',');
      StrippedPiecesAvoid(pieces, ',');
      StrippedPieces(pieces)
    else []
  }

  lemma {:induction false} StrippedPiecesOfClean(ts: seq<string>)
    requires forall k :: 0 <= k < |ts| ==> ts[k] != "" && Trimmed(ts[k])
    ensures StrippedPieces(ts) == ts
  {
    if ts != [] {
      StripNoSpaceAtEnds(ts[0]);
      StrippedPiecesOfClean(ts[1..]);
    }
  }

  /** Tags that are non-empty, already stripped and free of commas survive a round trip
      through the comma-joined form field. */
  lemma ParseTagsOfJoin(ts: seq<string>)
    requires forall k :: 0 <= k < |ts| ==> ts[k] != "" && Trimmed(ts[k]) && ',' !in ts[k]
    ensures ParseTags(Some(Join(",", ts))) == ts
  {
    if ts != [] {
      SplitJoin(ts, ',');
      assert [','] == ",";
      JoinStartsWithFirst(",", ts);
      StrippedPiecesOfClean(ts);
    }
  }

  lemma JoinStartsWithFirst(sep: string, parts: seq<string>)
    requires |parts| >= 1
    ensures parts[0] <= Join(sep, parts)
  {
  }

  // ---------------------------------------------------------------- type

  predicate IsWebUrl(s: string) {
    StartsWith(s, "http://") || StartsWith(s, "https://")
  }

  /** `note_type`: an explicit type, upper-cased, wins; otherwise a file makes FILE, web
      content LINK, other content TEXT, and with none of them the upload is refused. */
  function NoteType(form: UploadForm): (r: Result<string>)
    ensures r.Error? <==> !Given(form.kind) && form.file.None? && !Given(form.content)
    ensures r.Error? ==> r.status == BAD_REQUEST
    ensures Given(form.kind) ==> r == Ok(Upper(form.kind.value))
    ensures !Given(form.kind) && r.Ok? ==> r.value in ["FILE", "LINK", "TEXT"]
    ensures !Given(form.kind) && form.file.Some? ==> r == Ok("FILE")
    ensures !Given(form.kind) && form.file.None? && Given(form.content) ==>
      (r == Ok("LINK") <==> IsWebUrl(form.content.value))
  {
    if Given(form.kind) then Ok(Upper(form.kind.value))
    else if form.file.Some? then Ok("FILE")
    else if Given(form.content) && IsWebUrl(form.content.value) then Ok("LINK")
    else if Given(form.content) then Ok("TEXT")
    else Error(BAD_REQUEST, "Either file, content, or URL must be provided")
  }

  // ---------------------------------------------------------------- title

  lemma {:induction false} SplitFirstPiece(s: string, c: char)
    ensures Split(s, c)[0] == s[..IndexOf(s, c)]
  {
    if s != [] && s[0] != c {
      SplitFirstPiece(s[1..], c);
    }
  }

  /** `name.split('.')[0]`: the text before the first dot. */
  function BeforeFirstDot(name: string): (r: string)
    ensures r <= name && '.' !in r
    ensures |r| < |name| ==> name[|r|] == '.'
  {
    SplitFirstPiece(name, '.');
    Split(name, '.')[0]
  }

  predicate IsUrlControlOrSpace(c: char) {
    c <= ' '
  }

  predicate SchemeChar(c: char) {
    ('a' <= c <= 'z') || ('A' <= c <= 'Z') || ('0' <= c <= '9') || c == '+' || c == '-' || c == '.'
  }

  predicate AsciiLetter(c: char) {
    ('a' <= c <= 'z') || ('A' <= c <= 'Z')
  }

  /** `urlsplit`'s clean-up: leading C0 controls and spaces are dropped, and so is every tab,
      carriage return and line feed. */
  function Sanitize(url: string): (r: string)
    ensures |r| <= |url| && NoBreaks(r)
    ensures r == [] || !IsUrlControlOrSpace(r[0])
  {
    var t := if url != [] && IsUrlControlOrSpace(url[0]) then Sanitize(url[1..]) else url;
    if url != [] && IsUrlControlOrSpace(url[0]) then t
    else Filter(url, (c: char) => c != '\t' && c != '\r' && c != '\n')
  }

  predicate ValidScheme(s: string) {
    |s| > 0 && AsciiLetter(s[0]) && forall k :: 0 <= k < |s| ==> SchemeChar(s[k])
  }

  /** What follows `scheme:` when the text before the first colon is a scheme, else everything. */
  function AfterScheme(u: string): string {
    var i := IndexOf(u, ':');
    if 0 < i < |u| && ValidScheme(u[..i]) then u[i + 1..] else u
  }

  function IndexOfAny(s: string, stops: string): (i: nat)
    ensures i <= |s| && forall k :: 0 <= k < i ==> s[k] !in stops
    ensures i < |s| ==> s[i] in stops
  {
    if s == [] || s[0] in stops then 0 else 1 + IndexOfAny(s[1..], stops)
  }

  /** `urlparse(url).netloc`: the authority of section 3.2 of RFC 3986, which follows "//"
      and ends at the next "/", "?" or "#". */
  function Netloc(url: string): (r: string)
    ensures '/' !in r && '?' !in r && '#' !in r
  {
    var u := AfterScheme(Sanitize(url));
    if |u| >= 2 && u[..2] == "//" then
      var rest := u[2..];
      rest[..IndexOfAny(rest, "/?#")]
    else ""
  }

  /** The title of an untitled link: its host, or "Link"; `urlparse` raising on an unbalanced
      IPv6 bracket gives "Untitled Link". */
  function LinkTitle(url: string): (r: string)
    ensures r != "" && '/' !in r && '?' !in r && '#' !in r
    ensures r == "Untitled Link" || r == "Link" || r == Netloc(url)
    ensures ('[' in Netloc(url)) != (']' in Netloc(url)) ==> r == "Untitled Link"
  {
    var n := Netloc(url);
    if ('[' in n) != (']' in n) then "Untitled Link"
    else if n != "" then n
    else "Link"
  }

  /** No tab, carriage return or line feed. */
  predicate NoBreaks(s: string) {
    '\t' !in s && '\r' !in s && '\n' !in s
  }

  lemma {:induction false} FilterKeeps(s: string)
    requires NoBreaks(s)
    ensures Filter(s, (c: char) => c != '\t' && c != '\r' && c != '\n') == s
  {
    if s != [] {
      assert s == [s[0]] + s[1..];
      FilterKeeps(s[1..]);
    }
  }

  lemma SanitizeClean(url: string)
    requires url != [] && !IsUrlControlOrSpace(url[0])
    requires NoBreaks(url)
    ensures Sanitize(url) == url
  {
    FilterKeeps(url);
  }

  lemma {:induction false} IndexOfAfterPrefix(w: string, c: char, rest: string)
    requires c !in w
    ensures IndexOf(w + [c] + rest, c) == |w|
  {
    if w == [] {
      assert (w + [c] + rest)[0] == c;
    } else {
      assert (w + [c] + rest)[1..] == w[1..] + [c] + rest;
      IndexOfAfterPrefix(w[1..], c, rest);
    }
  }

  lemma {:induction false} IndexOfAnyAfterPrefix(w: string, stops: string, rest: string)
    requires forall k :: 0 <= k < |w| ==> w[k] !in stops
    requires rest == [] || rest[0] in stops
    ensures IndexOfAny(w + rest, stops) == |w|
  {
    if w == [] {
      assert w + rest == rest;
    } else {
      assert (w + rest)[1..] == w[1..] + rest;
      IndexOfAnyAfterPrefix(w[1..], stops, rest);
    }
  }

  lemma AfterSchemeOf(scheme: string, after: string)
    requires ValidScheme(scheme) && ':' !in scheme
    ensures AfterScheme(scheme + [':'] + after) == after
  {
    var url := scheme + [':'] + after;
    IndexOfAfterPrefix(scheme, ':', after);
    assert url[..|scheme|] == scheme;
    assert url[|scheme| + 1..] == after;
  }

  lemma AuthorityOf(host: string, tail: string)
    requires '/' !in host && '?' !in host && '#' !in host
    requires tail == [] || tail[0] in "/?#"
    ensures var u := "//" + host + tail; |u| >= 2 && u[..2] == "//" && u[2..][..IndexOfAny(u[2..], "/?#")] == host
  {
    var u := "//" + host + tail;
    assert u[2..] == host + tail;
    assert forall k :: 0 <= k < |host| ==> host[k] in host;
    IndexOfAnyAfterPrefix(host, "/?#", tail);
    assert (host + tail)[..|host|] == host;
  }

  /** For an ordinary absolute URL `scheme://host/...`, the title is the host. */
  lemma NetlocOfAbsoluteUrl(scheme: string, host: string, tail: string)
    requires ValidScheme(scheme) && ':' !in scheme
    requires '/' !in host && '?' !in host && '#' !in host
    requires tail == [] || tail[0] in "/?#"
    requires NoBreaks(host) && NoBreaks(tail)
    ensures Netloc(scheme + "://" + host + tail) == host
  {
    var after := "//" + host + tail;
    var url := scheme + "://" + host + tail;
    assert url == scheme + [':'] + after;
    assert NoBreaks(scheme) by {
      assert forall k :: 0 <= k < |scheme| ==> SchemeChar(scheme[k]);
    }
    assert url[0] == scheme[0];
    SanitizeClean(url);
    AfterSchemeOf(scheme, after);
    AuthorityOf(host, tail);
  }

  /** `note_title`: the given title, else the file name before its first dot, else for a link
      its host, else "Untitled". */
  function Title(form: UploadForm, noteType: string): (r: string)
    ensures Given(form.title) ==> r == form.title.value
    ensures !Given(form.title) && form.file.Some? && Given(form.file.value.filename) ==>
      r <= form.file.value.filename.value && '.' !in r
      && (|r| < |form.file.value.filename.value| ==> form.file.value.filename.value[|r|] == '.')
    ensures !Given(form.title) && !(form.file.Some? && Given(form.file.value.filename)) ==>
      r == if Given(form.content) && noteType == "LINK" then LinkTitle(form.content.value) else "Untitled"
  {
    if Given(form.title) then form.title.value
    else if form.file.Some? && Given(form.file.value.filename) then BeforeFirstDot(form.file.value.filename.value)
    else if Given(form.content) && noteType == "LINK" then LinkTitle(form.content.value)
    else "Untitled"
  }

  // ---------------------------------------------------------------- extracted text

  /** Extracted text is stored only when its stripped length exceeds 10, and cut to
      100000 characters plus a marker. */
  function KeepExtracted(text: string): (r: Option<string>)
    ensures r.Some? <==> |Strip(text)| > 10
    ensures r.Some? ==> |r.value| <= MAX_EXTRACTED + |TRUNCATION_MARKER|
    ensures r.Some? ==> Take(text, MAX_EXTRACTED) <= r.value
    ensures r.Some? && |text| <= MAX_EXTRACTED ==> r.value == text
  {
    if |Strip(text)| > 10 then
      Some(if |text| > MAX_EXTRACTED then text[..MAX_EXTRACTED] + TRUNCATION_MARKER else text)
    else None
  }

  // ---------------------------------------------------------------- the upload as a whole

  function FileContentType(f: UploadedFile): string {
    OrElse(f.contentType, OCTET_STREAM)
  }

  /** Where an uploaded file ends up: Cloudinary's URL, else a local copy named by the
      timestamp and the file's suffix. */
  function StoredFileUrl(f: UploadedFile, env: Environment): (r: string)
    ensures r != ""
    ensures Given(env.cloudUrl) ==> r == env.cloudUrl.value
    ensures !Given(env.cloudUrl) ==> LOCAL_UPLOAD_PREFIX + env.stamp <= r
  {
    if Given(env.cloudUrl) then env.cloudUrl.value
    else LOCAL_UPLOAD_PREFIX + env.stamp + (if Given(f.filename) then Suffix(f.filename.value) else "")
  }

  /** The columns of the new `Note` row. */
  datatype StoredNote = StoredNote(title: string, fileUrl: Option<string>, summary: string, extracted: Option<string>)

  /** The JSON reply (`size`, `uploadDate` and `firestore_id` are left out). */
  datatype UploadReply = UploadReply(
    url: string, title: string, kind: string, tags: seq<string>, message: string, content: Option<string>)

  datatype Decision = Decision(noteType: string, note: StoredNote, reply: UploadReply)

  function SavedMessage(t: string): string {
    t + if t == "FILE" then " uploaded successfully" else " saved successfully"
  }

  /** The FILE branch once a file is present. */
  function FileDecision(f: UploadedFile, content: Option<string>, env: Environment, title: string, tags: seq<string>): (r: Decision)
    ensures r.noteType == "FILE"
    ensures r.note.title == title && r.reply.title == title && r.reply.tags == tags
    ensures r.note.fileUrl == Some(r.reply.url) && r.reply.url != "" && r.reply.content == None
    ensures r.note.summary == OrElse(content, "")
  {
    var url := StoredFileUrl(f, env);
    var note := StoredNote(title, Some(url), OrElse(content, ""), FileExtracted(f, env));
    Decision("FILE", note, UploadReply(url, title, FileContentType(f), tags, SavedMessage("FILE"), None))
  }

  /** The text kept from the uploaded file. */
  function FileExtracted(f: UploadedFile, env: Environment): Option<string> {
    KeepExtracted(ExtractText(OrElse(f.filename, "unknown"), Some(FileContentType(f)), env.libs, f.out))
  }

  function Decide(form: UploadForm, env: Environment): (r: Result<Decision>)
    ensures NoteType(form).Error? ==> r == Error(NoteType(form).status, NoteType(form).detail)
    ensures NoteType(form).Ok? ==> var t := NoteType(form).value;
      && (r.Error? <==> (t == "FILE" && form.file.None?) || ((t == "LINK" || t == "TEXT") && !Given(form.content)))
      && (r.Ok? ==> r.value.noteType == t && r.value.note.title == Title(form, t) && r.value.reply.title == r.value.note.title)
    ensures r.Error? ==> r.status == BAD_REQUEST
    ensures r.Ok? ==> r.value.reply.tags == ParseTags(form.tags)
    ensures r.Ok? && r.value.noteType == "TEXT" ==>
      var c := form.content.value;
      && r.value.note == StoredNote(r.value.note.title, None, c, None)
      && r.value.reply.url == "" && r.value.reply.kind == "text" && r.value.reply.content == Some(c)
    ensures r.Ok? && r.value.noteType == "LINK" ==>
      var c := form.content.value;
      && r.value.note == StoredNote(r.value.note.title, Some(c), c, None)
      && r.value.reply.url == c && r.value.reply.kind == "link" && r.value.reply.content == Some(c)
    ensures r.Ok? && r.value.noteType == "FILE" ==>
      var f := form.file.value;
      && r.value.note.fileUrl == Some(StoredFileUrl(f, env))
      && r.value.note.summary == OrElse(form.content, "")
      && r.value.note.extracted ==
           KeepExtracted(ExtractText(OrElse(f.filename, "unknown"), Some(FileContentType(f)), env.libs, f.out))
      && r.value.reply.url == StoredFileUrl(f, env) && r.value.reply.kind == FileContentType(f)
      && r.value.reply.content == None
    ensures r.Ok? && r.value.noteType != "FILE" && r.value.noteType != "LINK" && r.value.noteType != "TEXT" ==>
      && r.value.note == StoredNote(r.value.note.title, None, OrElse(form.content, ""), None)
      && r.value.reply.url == "#" && r.value.reply.kind == "text/plain" && r.value.reply.content == None
    ensures r.Ok? ==> r.value.reply.message == SavedMessage(r.value.noteType)
    ensures r.Ok? && r.value.note.extracted.Some? ==> r.value.noteType == "FILE"
  {
    match NoteType(form)
    case Error(s, d) => Error(s, d)
    case Ok(t) =>
      var title := Title(form, t);
      var tags := ParseTags(form.tags);
      if t == "FILE" then
        if form.file.None? then Error(BAD_REQUEST, "File is required for FILE type")
        else Ok(FileDecision(form.file.value, form.content, env, title, tags))
      else if t == "LINK" then
        if !Given(form.content) then Error(BAD_REQUEST, "URL is required for LINK type")
        else
          var c := form.content.value;
          Ok(Decision(t, StoredNote(title, Some(c), c, None), UploadReply(c, title, "link", tags, SavedMessage(t), Some(c))))
      else if t == "TEXT" then
        if !Given(form.content) then Error(BAD_REQUEST, "Content is required for TEXT type")
        else
          var c := form.content.value;
          Ok(Decision(t, StoredNote(title, None, c, None), UploadReply("", title, "text", tags, SavedMessage(t), Some(c))))
      else
        Ok(Decision(t, StoredNote(title, None, OrElse(form.content, ""), None),
                    UploadReply("#", title, "text/plain", tags, SavedMessage(t), None)))
  }
}
