# Study-notes backend: handlers, store and collaboration channel

This project models the core of the study-notes backend in Dafny and proves properties about it. The backend is a FastAPI application over a relational store. The modelled handlers cover:

- notes: upload with text extraction, AI summary, search and deletion
- projects, tasks and their activity log
- a project's files, their version history and whole-project snapshots
- project members and invitations
- project chat
- progress analytics
- the AI assistant endpoints
- the real-time collaboration websocket

Module map:

- `Store` holds the relational data as `Tables`. Each table is a `seq<Row<T>>` in insertion order, with one key counter and a clock.
- `Store.Db` is the mutable session. Every state-changing handler is a method `modifies db`. Each such method is proved equal to a pure `...Spec` function of the old state.
- The facts about the handlers are lemmas over those functions. They cover:
  - access rules
  - history and round trips
  - ordering of listed rows
  - preservation of the store invariant `Store.Consistent`: keys increase, one membership per user and project, version numbers increase per file, invite tokens are distinct
- Read-only handlers are functions over `Tables`.
- `Websocket.ConnectionManager` is a class. Its fields are the project-to-socket map and the user-to-socket dictionary that the source mutates in place.
- Python truthiness is explicit: `Common.Given` treats `None` and `""` as absent, and `Common.GivenId` treats `None` and `0` as absent.
- SQLite's `LIMIT` with a negative count returns all rows (`Seqs.SqlLimit`).

External services are inputs to the model, not parts of it: Firebase token verification, Cloudinary, Firestore, local disk, the PDF/DOCX/OCR libraries, the URL download, the Gemini HTTP call and the clock. A Gemini call is a function parameter that maps a prompt to a reply datatype. Library outputs and upload URLs are given values.

## Model

| member | source | states |
|---|---|---|
| Routes.FindOrCreateUser | Downloads/notes/backend/routes.py:106-111 | The first user with that uid is returned and nothing changes. Otherwise exactly one row User(uid, email, no name) is appended under the next key. This fails with 500, leaving the store unchanged, exactly when no user has the uid and the email is already taken (unique column). |
| Routes.GetUserOrCreateAnonymousSpec | Downloads/notes/backend/routes.py:103-120 | A successful result is the user whose uid is the token's localId, or "anonymous" when no token is given. |
| Routes.GetUserIdempotent | Downloads/notes/backend/routes.py:103-120 | Resolving the same caller a second time returns the same user and changes nothing. |
| Routes.GetUserOrCreateAnonymous | Downloads/notes/backend/routes.py:103-120 | The method's new store and result are those of the specification function. |
| Store.LogActivity | Downloads/notes/backend/project_files_routes.py:102-108 | Only activities and the key counter change: exactly one activity with the project, the user, the kind, the data and the clock is appended under the next key. |
| Upload.StrippedPieces | Downloads/notes/backend/routes.py:318-320 | Exactly the stripped pieces that are not empty, in order: every kept tag is non-empty and has no surrounding whitespace. |
| Upload.ParseTags | Downloads/notes/backend/routes.py:318-320 | Missing or empty tags give []. Given tags are exactly the stripped non-empty comma pieces, so tags made only of commas and whitespace also give []. Every tag is non-empty, stripped and comma-free. |
| Upload.ParseTagsOfJoin | Downloads/notes/backend/routes.py:318-320 | Round trip: parsing the comma-join of clean tags gives back exactly those tags. |
| Upload.NoteType | Downloads/notes/backend/routes.py:323-333 | Fails with 400 exactly when neither kind, file nor content is given. Any given kind is accepted upper-cased, without checking that it is FILE, LINK or TEXT. Otherwise a file means FILE, and content means LINK exactly when it starts with http:// or https://, else TEXT. |
| Upload.Sanitize | Downloads/notes/backend/routes.py:344-345 | The cleaned URL is no longer than the input, has no tab, carriage return or line feed, and does not start with a control character or space. |
| Upload.LinkTitle | Downloads/notes/backend/routes.py:342-348 | The title is never empty and holds no "/", "?" or "#". It is the host, "Link" or "Untitled Link", and "Untitled Link" whenever the host has an unbalanced IPv6 bracket. |
| Upload.BeforeFirstDot | Downloads/notes/backend/routes.py:340 | The title is the longest dot-free prefix of the file name. |
| Upload.Netloc | Downloads/notes/backend/routes.py:344-348 | The host part never contains '/', '?' or '#'. |
| Upload.NetlocOfAbsoluteUrl | Downloads/notes/backend/routes.py:344-348 | For scheme://host/rest, the host part is exactly host. |
| Upload.Title | Downloads/notes/backend/routes.py:338-352 | The title order: a given title; else the file name before its first dot; else the link's host for a LINK; else "Untitled". |
| Upload.KeepExtracted | Downloads/notes/backend/routes.py:369-382 | Extracted text is kept exactly when its stripped length exceeds 10. Kept text starts with the first 100 000 characters, is at most that long plus the truncation marker, and is unchanged when short enough. |
| Upload.StoredFileUrl | Downloads/notes/backend/routes.py:443-459 | The stored URL is the Cloudinary URL when one was obtained, otherwise the local uploads path with its timestamped name, and never empty. |
| Upload.FileDecision | Downloads/notes/backend/routes.py:360-500 | A FILE note and reply carry the given title and tags. The note's file URL is the reply's URL, which is never empty, and the note's summary is the given content or "". |
| Upload.Decide | Downloads/notes/backend/routes.py:322-549 | A type error is passed through. Otherwise the request fails with 400 exactly when a FILE has no file or a LINK/TEXT has no content. On success the reply carries the title, the computed type and the parsed tags. |
| Routes.UploadSpec | Downloads/notes/backend/routes.py:479-500 | A failed decision leaves the store unchanged with 400. Otherwise exactly one note row is appended, owned by the caller, stamped with the clock, holding the decided title, URL, summary and extracted text. |
| Routes.UploadConsistent | Downloads/notes/backend/routes.py:479-500 | Uploading preserves the store invariant. |
| Routes.UploadFile | Downloads/notes/backend/routes.py:289-551 | The method's new store and reply are those of the specification function. |
| FileExtractor.PathName | Downloads/notes/backend/file_extractor.py:112 | The file name part has no '/'. |
| FileExtractor.Suffix | Downloads/notes/backend/file_extractor.py:112 | The suffix is empty or a dot followed by at least one character. |
| FileExtractor.Dispatch | Downloads/notes/backend/file_extractor.py:109-128 | An empty name has no extractor. The PDF rule wins, then .docx, then the image rule, each stated as an if-and-only-if over the lower-cased suffix and content type. |
| FileExtractor.ExtractText | Downloads/notes/backend/file_extractor.py:97-128 | Text comes only from the chosen extractor, and is "" when its library is unavailable. |
| FileExtractor.DocIsNeverRead | Downloads/notes/backend/file_extractor.py:118-122 | A .doc file that is not declared as PDF always yields "": the Word branch only reads .docx. |
| FileExtractor.NoLibrariesNoText | Downloads/notes/backend/file_extractor.py:33-94 | With no extraction library installed every file yields "". |
| FileExtractor.BeforeQuery | Downloads/notes/backend/file_extractor.py:146 | The part before the first '?' is a query-free prefix of the URL. |
| FileExtractor.UrlFilename | Downloads/notes/backend/file_extractor.py:146 | The file name is the last '/'-free segment of the query-free URL. |
| FileExtractor.ExtractTextFromUrl | Downloads/notes/backend/file_extractor.py:131-155 | A failed download yields "". A fetched one is extracted under the URL's file name and the response's content type. |
| Routes.NoteText | Downloads/notes/backend/routes.py:575-624 | A note with a stored summary longer than 100 characters that is not a URL is served from cache. Otherwise its extracted content is used. Text newly extracted from the file URL is used only when longer than 10 characters, and is also stored on the note. Only an http file URL whose extraction gives too little leaves no text. |
| Routes.SummaryInput | Downloads/notes/backend/routes.py:632-634 | The text sent starts with the first 30 000 characters, is at most that plus the truncation marker, and is unchanged when short enough. |
| Routes.SummaryPrompt | Downloads/notes/backend/routes.py:640 | The prompt is the fixed instruction followed by exactly the truncated text. |
| Routes.GatherText | Downloads/notes/backend/routes.py:575-624 | Only note rows change, and their keys stay. Without a resource id and without text nothing is looked up. For a resource id the text source is that of the stored note. Text newly extracted from its file is written to that note only, and every other lookup is unchanged. A cached answer or a missing note changes nothing. |
| Routes.TakeReply | Downloads/notes/backend/routes.py:647-667 | The answer is returned exactly when Gemini answered. No candidates gives 400, an HTTP failure its own status, a failed request 500. A failure leaves the store unchanged. |
| Routes.SummarizeSpec | Downloads/notes/backend/routes.py:565-667 | A missing API key gives 500. No text and no resource id gives 400. Given text is summarized directly. Only note rows can change. |
| Routes.SummarizeUsesCache | Downloads/notes/backend/routes.py:579-581 | A note with a cached summary returns it without calling Gemini or changing the store. |
| Routes.TakeReplyStores | Downloads/notes/backend/routes.py:653-658 | An answer for an existing note is written to that note's summary. |
| Routes.SummarizeStoresAnswer | Downloads/notes/backend/routes.py:565-667 | Whenever summarizing an existing note succeeds, the note's summary afterwards is the returned answer. |
| Routes.GatherTextInto | Downloads/notes/backend/routes.py:575-624 | The method's new store and text source are those of GatherText. |
| Routes.TakeReplyInto | Downloads/notes/backend/routes.py:647-667 | The method's new store and result are those of TakeReply. |
| Routes.SummarizeText | Downloads/notes/backend/routes.py:565-667 | The method's new store and result are those of the specification function. |
| Routes.SearchNotes | Downloads/notes/backend/routes.py:679-693 | Fails with 400 exactly when the stripped query is shorter than 2. Otherwise the hits are exactly the caller's notes whose title, summary or extracted text contain the stripped query case-insensitively. |
| Routes.SearchNotesExact | Downloads/notes/backend/routes.py:685-690 | Both directions: every hit is a matching note of the caller, and every matching note of the caller is a hit. |
| Routes.SearchNewestFirst | Downloads/notes/backend/routes.py:691 | Hits are ordered newest first by creation time. |
| Routes.ReadProjects | Downloads/notes/backend/routes.py:160-175 | Every listed project is owned by the caller or has the caller as a member. |
| Routes.ReadProjectsExact | Downloads/notes/backend/routes.py:173-175 | Every owned or joined project is listed, and no project twice. |
| Routes.ReadProjectsComplete | Downloads/notes/backend/routes.py:165-175 | Every project the user owns or is a member of appears in the listing. |
| Routes.JoinedNotOwned | Downloads/notes/backend/routes.py:173-175 | A project not owned by the caller is not among the owned ones, so de-duplication keeps it once. |
| Routes.NormalStatus | Downloads/notes/backend/routes.py:193-195 | The status is always one of todo, in_progress, done. A known status is kept and an unknown one becomes todo. |
| Routes.CreateTaskSpec | Downloads/notes/backend/routes.py:188-211 | Exactly one task is appended with the next key: the caller as owner, the title, description, priority, assignee and project copied, and the status kept when known, else todo. Only tasks, activities and the key counter change. One task_create activity is logged exactly when a project id is given, after the existing ones. |
| Routes.CreateTaskConsistent | Downloads/notes/backend/routes.py:188-211 | Creating a task preserves the store invariant. |
| Routes.CreateTask | Downloads/notes/backend/routes.py:188-211 | The method's new store and result are those of the specification function. |
| Routes.DeleteNoteSpec | Downloads/notes/backend/routes.py:140-148 | 404 exactly when the caller owns no note with that key. Otherwise only that note is removed. |
| Routes.DeleteNoteOwnerScoped | Downloads/notes/backend/routes.py:143-145 | Deletion keeps the invariant and never removes another user's note. |
| Routes.DeleteNote | Downloads/notes/backend/routes.py:140-148 | The method's new store and result are those of the specification function. |
| ProjectFiles.RoleIn | Downloads/notes/backend/project_files_routes.py:31-37 | The caller's role is that of the membership row, if any. |
| ProjectFiles.CheckAccessAsWritten | Downloads/notes/backend/project_files_routes.py:21-47 | As written: a missing project is 404. The error is 500 exactly when an edit is asked by a non-member on a public project not owned by the caller. |
| ProjectFiles.CheckAccess | Downloads/notes/backend/project_files_routes.py:21-47 | A missing project is 404. Otherwise errors are 404 or 403, and access is granted exactly to the owner, or to a member (with an editing role when editing), or for reading a public project. |
| ProjectFiles.AccessAsWrittenCrashes | Downloads/notes/backend/project_files_routes.py:39-45 | The code as written differs from the intended rule exactly on the 500 case, where the intended rule answers 403. |
| ProjectFiles.AccessCrashExample | Downloads/notes/backend/project_files_routes.py:39-45 | Concrete case: a public project 1 owned by user 1, and user 2 asking to edit, gets 500 as written and 403 as intended, while reading is allowed. |
| ProjectFiles.AccessFrame | Downloads/notes/backend/project_files_routes.py:21-47 | Access depends only on the projects and members tables. |
| ProjectFiles.EditImpliesRead | Downloads/notes/backend/project_files_routes.py:21-47 | Whoever may edit may read, with the same project. |
| ProjectFiles.FindFile | Downloads/notes/backend/project_files_routes.py:125-130 | A file is found exactly when a row with that key exists in the given project. |
| ProjectFiles.ListFiles | Downloads/notes/backend/project_files_routes.py:50-59 | The listing succeeds exactly when reading is allowed, and holds exactly the project's files. |
| ProjectFiles.GetFile | Downloads/notes/backend/project_files_routes.py:114-134 | The result succeeds exactly with read access and a file of that key in that project. Otherwise it is 404 "File not found". |
| ProjectFiles.LatestVersion | Downloads/notes/backend/project_files_routes.py:157-162 | The result is the maximum version number of the file, or none when it has no versions. |
| ProjectFiles.NextVersion | Downloads/notes/backend/project_files_routes.py:157-162 | One more than the file's latest version number: it exceeds every existing number of the file and equals one of them plus one. It is 1 for a file without history. |
| ProjectFiles.SaveVersion | Downloads/notes/backend/project_files_routes.py:157-171 | Only versions and the key counter change. One version of the file with the given content, author and summary is appended under the next key, numbered above every earlier version of the file. |
| ProjectFiles.WriteFile | Downloads/notes/backend/project_files_routes.py:173-176 | Only the file table changes, keeping its length. The lookup of that key gives the new file when it existed, and every other lookup is unchanged. |
| ProjectFiles.CreateFileCheck | Downloads/notes/backend/project_files_routes.py:72-80 | Creation may proceed exactly with edit access and a path unused in the project. A used path gives 400 "File already exists". |
| ProjectFiles.CreateFileAsWritten | Downloads/notes/backend/project_files_routes.py:82-99 | As written: the initial version row is appended with no file key. |
| ProjectFiles.CreateFileSpec | Downloads/notes/backend/project_files_routes.py:61-112 | Succeeds exactly when the check passes, otherwise nothing changes. Creates the file row and its "Initial version" 1, which points at the new file. |
| ProjectFiles.CreateFileConsistent | Downloads/notes/backend/project_files_routes.py:61-112 | Creating a file preserves the store invariant. |
| ProjectFiles.FileVersions | Downloads/notes/backend/project_files_routes.py:226-250 | Succeeds exactly with read access and an existing file, otherwise 404. Lists exactly that file's versions. |
| ProjectFiles.FileVersionsDescending | Downloads/notes/backend/project_files_routes.py:246-248 | Versions are listed with strictly decreasing numbers. |
| ProjectFiles.CreatedFileHistory | Downloads/notes/backend/project_files_routes.py:82-99 | Intended: a created file's history is exactly its initial version. |
| ProjectFiles.CreatedFileHistoryAsWritten | Downloads/notes/backend/project_files_routes.py:92-93 | As written: a created file's history is empty. |
| ProjectFiles.UpdateFileSpec | Downloads/notes/backend/project_files_routes.py:136-190 | Succeeds exactly with edit access and an existing file, otherwise nothing changes and 404 "File not found". The old content is archived as the next version before the new content is written. |
| ProjectFiles.UpdateFileConsistent | Downloads/notes/backend/project_files_routes.py:136-190 | Updating preserves the store invariant. |
| ProjectFiles.UpdateArchivesOldContent | Downloads/notes/backend/project_files_routes.py:164-176 | After an update, the newest version in the history holds the content from before the update. |
| ProjectFiles.DeleteFileSpec | Downloads/notes/backend/project_files_routes.py:192-223 | Succeeds exactly with edit access and an existing file, otherwise nothing changes. On success only files, versions, activities and the key counter change: the file and its versions are removed and one deletion activity is logged. |
| ProjectFiles.DeleteFileGone | Downloads/notes/backend/project_files_routes.py:192-223 | Deletion preserves the invariant, and the file is afterwards 404. |
| ProjectFiles.FindVersion | Downloads/notes/backend/project_files_routes.py:273-280 | Finds a version exactly when the key exists and its row belongs to that file. With increasing keys, every row with that key and file is the one found. |
| ProjectFiles.RestoreFileSpec | Downloads/notes/backend/project_files_routes.py:252-313 | Succeeds exactly with edit access, an existing file and a version of it, otherwise nothing changes. The current content is archived first, then the chosen version's content is written. |
| ProjectFiles.RestoreFileConsistent | Downloads/notes/backend/project_files_routes.py:252-313 | Restoring a version preserves the store invariant. |
| ProjectFiles.RestoreUndoesUpdate | Downloads/notes/backend/project_files_routes.py:283-299 | Round trip: restoring the version archived by an update brings back the content from before the update. |
| ProjectFiles.SnapshotFiles | Downloads/notes/backend/project_files_routes.py:328-339 | The snapshot holds each file's path, content and type, in order. |
| ProjectFiles.CreateSnapshotSpec | Downloads/notes/backend/project_files_routes.py:316-361 | Succeeds exactly with edit access, otherwise nothing changes. Appends a snapshot of all of the project's files and settings. |
| ProjectFiles.CreateSnapshotConsistent | Downloads/notes/backend/project_files_routes.py:316-361 | Creating a snapshot preserves the store invariant. |
| ProjectFiles.ListSnapshots | Downloads/notes/backend/project_files_routes.py:363-377 | Succeeds exactly with read access, and lists exactly the project's snapshots. |
| ProjectFiles.ListSnapshotsNewestFirst | Downloads/notes/backend/project_files_routes.py:373-375 | Snapshots are listed newest first. |
| ProjectFiles.FindSnapshot | Downloads/notes/backend/project_files_routes.py:390-397 | Finds a snapshot exactly when the key exists and its row belongs to the project. With increasing keys, every row with that key and project is the one found. |
| ProjectFiles.DropFiles | Downloads/notes/backend/project_files_routes.py:403-404 | Exactly the listed files are removed and nothing else but versions changes. |
| ProjectFiles.RestoredRows | Downloads/notes/backend/project_files_routes.py:407-415 | One new file row per snapshot entry, in order, with consecutive keys. |
| ProjectFiles.AddFiles | Downloads/notes/backend/project_files_routes.py:407-415 | The restored rows are appended and the key counter advances by their number. |
| ProjectFiles.Keys | Downloads/notes/backend/project_files_routes.py:403-404 | The keys of the rows, in order. |
| ProjectFiles.RestoreSnapshotSpec | Downloads/notes/backend/project_files_routes.py:379-431 | Succeeds exactly with edit access and a snapshot of this project, otherwise 404 "Version not found" and no change. |
| ProjectFiles.RestoreSettings | Downloads/notes/backend/project_files_routes.py:417-419 | Only projects change. Without a "settings" key nothing changes. With one, the project's settings become the snapshot's and every other lookup is unchanged. |
| ProjectFiles.RestoreSnapshotEffect | Downloads/notes/backend/project_files_routes.py:399-431 | A successful restore changes only files, versions, projects, activities and the key counter. It uses one key per snapshot file plus one, logs exactly one version_restore activity with the snapshot's name and key, and restores the settings as RestoreSettings says. |
| ProjectFiles.RestoreSnapshotConsistent | Downloads/notes/backend/project_files_routes.py:379-431 | Restoring a snapshot preserves the store invariant. |
| ProjectFiles.RestoreSnapshotRoundTrip | Downloads/notes/backend/project_files_routes.py:400-419 | Round trip: after a restore the project's files are exactly the snapshot's files, and other projects' files are untouched. |
| ProjectFiles.DropOwnedFiles | Downloads/notes/backend/project_files_routes.py:404-406 | Deleting the project's files leaves the project with no file, and every file of another project stays. |
| ProjectFiles.RestoreSnapshotFiles | Downloads/notes/backend/project_files_routes.py:404-416 | After a restore, the file table is the table with the project's files deleted, followed by one new row per snapshot file, in snapshot order. |
| ProjectFiles.CreateProjectFile | Downloads/notes/backend/project_files_routes.py:61-112 | The method's new store and result are those of the specification function. |
| ProjectFiles.UpdateProjectFile | Downloads/notes/backend/project_files_routes.py:136-190 | The method's new store and result are those of the specification function. |
| ProjectFiles.DeleteProjectFile | Downloads/notes/backend/project_files_routes.py:192-223 | The method's new store and result are those of the specification function. |
| ProjectFiles.RestoreFileVersion | Downloads/notes/backend/project_files_routes.py:252-313 | The method's new store and result are those of the specification function. |
| ProjectFiles.CreateProjectVersion | Downloads/notes/backend/project_files_routes.py:316-361 | The method's new store and result are those of the specification function. |
| ProjectFiles.DeleteFiles | Downloads/notes/backend/project_files_routes.py:403-404 | The loop deletes exactly the listed files. |
| ProjectFiles.InsertFiles | Downloads/notes/backend/project_files_routes.py:407-415 | The loop inserts exactly the restored rows. |
| ProjectFiles.RestoreProjectVersion | Downloads/notes/backend/project_files_routes.py:379-431 | The method's new store and result are those of the specification function. |
| ProjectFiles.SaveSettings | Downloads/notes/backend/project_files_routes.py:418-419 | The project's settings are replaced by the snapshot's only when the snapshot holds a settings entry. |
| Collaboration.LeaderOf | Downloads/notes/backend/collaboration_routes.py:66-74 | The caller leads exactly when they own the project or have a membership row with the leader role. |
| Collaboration.LeaderCheck | Downloads/notes/backend/collaboration_routes.py:65-76 | A missing project is 404. A non-leader gets 403 with the handler's message. Otherwise the check succeeds. |
| Collaboration.LeaderByRole | Downloads/notes/backend/collaboration_routes.py:69-74 | With one membership per user and project, leading means owning or holding the leader role in that one membership. |
| Collaboration.GetMembers | Downloads/notes/backend/collaboration_routes.py:24-49 | A missing project is 404. The listing succeeds exactly for the owner, a member, or anyone on a public project. |
| Collaboration.RequestedRole | Downloads/notes/backend/collaboration_routes.py:88-92 | A missing role defaults to viewer. |
| Collaboration.AddMemberConsistent | Downloads/notes/backend/collaboration_routes.py:78-92 | Adding a member who is not yet one preserves the store invariant. |
| Collaboration.AddMemberSpec | Downloads/notes/backend/collaboration_routes.py:51-96 | Succeeds exactly for a leader adding a user who is not yet a member, otherwise nothing changes. An existing member gives 400 "Member already exists". |
| Collaboration.AddMemberSpecConsistent | Downloads/notes/backend/collaboration_routes.py:51-96 | The handler preserves the store invariant. |
| Collaboration.AddMemberTwice | Downloads/notes/backend/collaboration_routes.py:78-86 | Adding the same member again is refused with 400. |
| Collaboration.FindMember | Downloads/notes/backend/collaboration_routes.py:126-131 | A membership is found exactly when that key exists in the project. |
| Collaboration.UpdateRoleSpec | Downloads/notes/backend/collaboration_routes.py:98-139 | Succeeds exactly for a leader and an existing membership of the project, otherwise nothing changes. |
| Collaboration.UpdateRoleEffect | Downloads/notes/backend/collaboration_routes.py:126-136 | The invariant is kept. On success the row now has the requested role, with the same project and user. |
| Collaboration.RemoveMemberSpec | Downloads/notes/backend/collaboration_routes.py:141-180 | Succeeds exactly for a leader and an existing membership of the project, otherwise nothing changes. |
| Collaboration.RemoveMemberRevokes | Downloads/notes/backend/collaboration_routes.py:168-178 | The invariant is kept, and the removed user has no membership in the project afterwards. |
| Collaboration.DropMemberRevokes | Downloads/notes/backend/collaboration_routes.py:168-178 | When each user holds at most one membership per project, deleting a membership row leaves that user with no membership in that project. |
| Collaboration.ResolveInvitee | Downloads/notes/backend/collaboration_routes.py:213-218 | A given invitee id is kept. Otherwise a user with the given email is looked up. |
| Collaboration.NewInvite | Downloads/notes/backend/collaboration_routes.py:210-226 | The invite is pending, has the given token, the requested role, the resolved invitee, and expires 7 days after now. |
| Collaboration.CreateInviteSpec | Downloads/notes/backend/collaboration_routes.py:182-231 | Succeeds exactly for a leader with an unused token, otherwise nothing changes. A reused token fails on the unique column with 500. |
| Collaboration.CreateInviteConsistent | Downloads/notes/backend/collaboration_routes.py:182-231 | Inviting preserves the store invariant, including distinct tokens. |
| Collaboration.ListInvites | Downloads/notes/backend/collaboration_routes.py:233-259 | Succeeds exactly for a leader, and lists exactly the project's invites. |
| Collaboration.AcceptCheck | Downloads/notes/backend/collaboration_routes.py:268-287 | 404 exactly when no pending invite has the token. For the first pending invite with it: expired gives 400 "Invite has expired", another invitee id gives 403 "This invite is for a different user", then another email gives 403 "This invite is for a different email". Passing all of these gives the invite. |
| Collaboration.MarkAccepted | Downloads/notes/backend/collaboration_routes.py:296-308 | Only the invite table changes, keeping its length. The invite's lookup gives it with status accepted, and every other lookup is unchanged. |
| Collaboration.Join | Downloads/notes/backend/collaboration_routes.py:289-311 | The caller ends up a member of the invite's project: their existing membership is reused, or a new one with the invite's role is added. The invite becomes accepted. |
| Collaboration.AcceptSpec | Downloads/notes/backend/collaboration_routes.py:261-311 | Succeeds exactly when a pending invite with the token exists, is not expired and names the caller wherever it names anyone, and then is Join. A failure carries the check's status and detail and leaves the store unchanged. |
| Collaboration.AddMember | Downloads/notes/backend/collaboration_routes.py:301-307 | Only members and the key counter change: the membership is appended under the next key. |
| Collaboration.AddedMemberFound | Downloads/notes/backend/collaboration_routes.py:289-306 | After adding a membership for a project and user that had none, the membership lookup finds exactly the new row. |
| Collaboration.MarkAcceptedConsistent | Downloads/notes/backend/collaboration_routes.py:289-311 | Marking an invite accepted preserves the store invariant. |
| Collaboration.AcceptConsistent | Downloads/notes/backend/collaboration_routes.py:261-311 | Accepting preserves the store invariant. |
| Collaboration.AcceptOnce | Downloads/notes/backend/collaboration_routes.py:271 | A token can be used once: a second accept by anyone gives 404. |
| Collaboration.DeleteInviteSpec | Downloads/notes/backend/collaboration_routes.py:313-341 | A missing invite is 404. Succeeds exactly when its project exists and the caller leads it. A vanished project gives 500. |
| Collaboration.DeleteInviteConsistent | Downloads/notes/backend/collaboration_routes.py:313-341 | Deleting an invite preserves the store invariant. |
| Collaboration.AddProjectMember | Downloads/notes/backend/collaboration_routes.py:51-96 | The method's new store and result are those of the specification function. |
| Collaboration.UpdateMemberRole | Downloads/notes/backend/collaboration_routes.py:98-139 | The method's new store and result are those of the specification function. |
| Collaboration.RemoveProjectMember | Downloads/notes/backend/collaboration_routes.py:141-180 | The method's new store and result are those of the specification function. |
| Collaboration.CreateProjectInvite | Downloads/notes/backend/collaboration_routes.py:182-231 | The method's new store and result are those of the specification function. |
| Collaboration.AcceptInvite | Downloads/notes/backend/collaboration_routes.py:261-311 | The method's new store and result are those of the specification function. |
| Collaboration.JoinInto | Downloads/notes/backend/collaboration_routes.py:289-311 | The method's new store and membership are those of Join. |
| Collaboration.DeleteInvite | Downloads/notes/backend/collaboration_routes.py:313-341 | The method's new store and result are those of the specification function. |
| Chat.ViewAccess | Downloads/notes/backend/chat_routes.py:20-39 | A missing project is 404. Access is granted exactly to the owner, a member, or anyone on a public project, otherwise 403. |
| Chat.GetMessages | Downloads/notes/backend/chat_routes.py:42-58 | Succeeds exactly with view access. Returns the project's newest messages up to the limit (all of them for a negative limit; the route's default limit is 100), oldest first. |
| Chat.GetMessagesInOrder | Downloads/notes/backend/chat_routes.py:53-58 | Returned messages belong to the project and are in ascending creation time. |
| Chat.SendSpec | Downloads/notes/backend/chat_routes.py:60-89 | Succeeds exactly with view access, otherwise nothing changes. Appends the message stamped with the caller and the clock under the next key, then logs a chat_message activity holding its first 50 characters. |
| Analytics.SendAddsOneMessage | Downloads/notes/backend/chat_routes.py:60-89 | A successful send raises the sender's message count in the project's contributions by exactly one and leaves their commit count unchanged. |
| Chat.SendConsistent | Downloads/notes/backend/chat_routes.py:60-89 | Sending preserves the store invariant. |
| Chat.SentIsLatest | Downloads/notes/backend/chat_routes.py:71-85 | A sent message is the last one shown for any non-zero limit. |
| Chat.PreviewIsPrefix | Downloads/notes/backend/chat_routes.py:83 | The logged preview is a prefix of the text of at most 50 characters, and the whole text when short. |
| Chat.FindMessage | Downloads/notes/backend/chat_routes.py:102-109 | Finds a message exactly when the key exists and its row belongs to the project. With increasing keys, every row with that key and project is the one found. |
| Chat.DeleteMessageSpec | Downloads/notes/backend/chat_routes.py:91-130 | Succeeds exactly with view access and an existing message of the project that the caller wrote or whose project the caller leads, and removes only that message. |
| Chat.DeleteMessageConsistent | Downloads/notes/backend/chat_routes.py:111-125 | Deleting a message preserves the store invariant. |
| Chat.SendChatMessage | Downloads/notes/backend/chat_routes.py:60-89 | The method's new store and result are those of the specification function. |
| Chat.DeleteChatMessage | Downloads/notes/backend/chat_routes.py:91-130 | The method's new store and result are those of the specification function. |
| Analytics.StatusCountsBounded | Downloads/notes/backend/analytics_routes.py:88-90 | The todo, in-progress and done counts add up to at most the number of tasks. |
| Analytics.EditLines | Downloads/notes/backend/analytics_routes.py:101-105 | An edit without "content" counts 0 lines. A text content counts its newlines plus one. A non-text content fails with 500. |
| Analytics.LinesChanged | Downloads/notes/backend/analytics_routes.py:101-105 | The sum fails with 500 exactly when one entry fails, counts at least one line per edit with content, and is 0 when no edit has content. |
| Analytics.LinesChangedSnoc | Downloads/notes/backend/analytics_routes.py:101-105 | Summing over one more edit succeeds exactly when the earlier sum and that edit's count succeed, and then adds that edit's lines. |
| Analytics.HandlerEditsCountNoLines | Downloads/notes/backend/analytics_routes.py:101-105 | Edits logged by the file handlers, whose data has only file_path and file_id, always sum to 0 lines. |
| Analytics.EmailOf | Downloads/notes/backend/analytics_routes.py:116 | The member's email, or "Unknown" when the user is missing. |
| Analytics.Tally | Downloads/notes/backend/analytics_routes.py:117-119 | Exact counts: commits are the user's file creations and edits, messages the user's chat messages, completed tasks the tasks passing the given test. Commits and messages together are at most the user's activities. |
| Analytics.TallyOneMore | Downloads/notes/backend/analytics_routes.py:117-119 | One more chat message of the project by the user raises their message count by one and leaves their commit count unchanged. |
| Analytics.MemberEntries | Downloads/notes/backend/analytics_routes.py:109-120 | The contribution dictionary has exactly one key per member email. |
| Analytics.LastMemberWins | Downloads/notes/backend/analytics_routes.py:109-120 | For an email shared by several members, the later member's tally overwrites the earlier one. |
| Analytics.ContributionsShape | Downloads/notes/backend/analytics_routes.py:108-134 | The keys are the member emails plus the owner's email, and the owner's entry is the owner's tally. |
| Analytics.Contributions | Downloads/notes/backend/analytics_routes.py:108-134 | A member whose email neither the owner nor any later member shares has an entry, and it is that member's own tally. |
| Analytics.MemberLoop | Downloads/notes/backend/analytics_routes.py:109-120 | The loop builds exactly the member entries. |
| Analytics.MemberContributions | Downloads/notes/backend/analytics_routes.py:108-134 | The method builds exactly the contribution dictionary. |
| Analytics.ProgressSpec | Downloads/notes/backend/analytics_routes.py:76-144 | Fails exactly on a view-access error or a failing line count. On success it reports exactly: the number of commit activities, the line sum over the file edits, the number of tasks in each status, and the contribution dictionary. |
| Analytics.GetProgressAnalytics | Downloads/notes/backend/analytics_routes.py:76-144 | The method returns exactly the specification's report. |
| Analytics.WeekActivities | Downloads/notes/backend/analytics_routes.py:158-168 | Exactly the project's activities of the last seven days. |
| Analytics.WeekInOrder | Downloads/notes/backend/analytics_routes.py:158-168 | The week's activities are in ascending time. |
| Analytics.WeeklyReportSpec | Downloads/notes/backend/analytics_routes.py:147-235 | Fails exactly when the progress report fails. Otherwise the report covers the last week up to now, with the AI text or the fallback message when the AI call fails. |
| Analytics.Entries | Downloads/notes/backend/analytics_routes.py:253-261 | One timeline entry per activity, in order. |
| Analytics.Newest | Downloads/notes/backend/analytics_routes.py:249-251 | The project's newest activities up to the limit, newest first. |
| Analytics.NewestFirst | Downloads/notes/backend/analytics_routes.py:249-251 | The timeline is in descending time. |
| Analytics.TimelineSpec | Downloads/notes/backend/analytics_routes.py:238-263 | Succeeds exactly with view access, with one entry per newest activity (the route's default limit is 50). |
| Analytics.LoggedHeadsTimeline | Downloads/notes/backend/analytics_routes.py:238-263 | A freshly logged activity heads the timeline for any non-zero limit. |
| Analytics.GetProjectTimeline | Downloads/notes/backend/analytics_routes.py:238-263 | The method returns exactly the specification's timeline. |
| Analytics.EntriesLoop | Downloads/notes/backend/analytics_routes.py:253-261 | The loop builds exactly one timeline entry per queried activity, in order. |
| Ai.FullPrompt | Downloads/notes/backend/ai_routes.py:28-30 | The prompt ends with the request. A non-empty context precedes it as "Context: ...", and an empty context adds nothing. |
| Ai.Call | Downloads/notes/backend/ai_routes.py:23-50 | Succeeds exactly when the key is configured and Gemini answers the full prompt, returning its text. Every failure is 500. |
| Ai.FileBlock | Downloads/notes/backend/ai_routes.py:69 | A file block is its "File:" header followed by at most the first 500 characters of its content. |
| Ai.MentorFiles | Downloads/notes/backend/ai_routes.py:67-70 | The first 10 files of the project, each as its block. |
| Ai.MentorTasks | Downloads/notes/backend/ai_routes.py:73-76 | The first 10 tasks of the project, each as "- title: status". |
| Ai.MentorContext | Downloads/notes/backend/ai_routes.py:62-76 | No project, or a missing one, gives an empty context. Otherwise the file blocks are followed by the task lines when there are tasks. |
| Ai.MentorPrompt | Downloads/notes/backend/ai_routes.py:78-83 | The prompt is the mentor instruction, then exactly the request, then the closing line. |
| Ai.MentorTaskLinesRecoverable | Downloads/notes/backend/ai_routes.py:73-76 | Splitting the task block at newlines gives back the task lines. |
| Ai.MentorSpec | Downloads/notes/backend/ai_routes.py:53-86 | Succeeds exactly when Gemini answers the mentor prompt with the project context, and then returns Gemini's text. Every failure is 500. Without a project no context is sent. |
| Ai.NoteText | Downloads/notes/backend/ai_routes.py:104 | A note's text is its extracted content, else its summary, else its title. |
| Ai.ChatWindow | Downloads/notes/backend/ai_routes.py:105-110 | The 100 oldest messages of the project's chat, in table order. |
| Ai.ChatWindowOldestFirst | Downloads/notes/backend/ai_routes.py:105-110 | The window is in ascending time, and no message left out is older than one in it. |
| Ai.ChatLines | Downloads/notes/backend/ai_routes.py:105-110 | One "sender: text" line per window message. |
| Ai.ProjectText | Downloads/notes/backend/ai_routes.py:111-118 | The project's title and description. When it has tasks these are followed by "Tasks:" and one "- title" line per task, joined with newlines. |
| Ai.TaskTitles | Downloads/notes/backend/ai_routes.py:116-117 | One "- title" line per task of the project, in order. |
| Ai.SummaryText | Downloads/notes/backend/ai_routes.py:98-118 | Without resource id and type the request text is used. A note, chat or project resource supplies its own text when found, else the request text is used. |
| Ai.SummaryPromptAsWrittenLeaks | Downloads/notes/backend/ai_routes.py:123-128 | As written, the prompt sent to Gemini contains the literal "  # Limit to 10k chars" after the material. |
| Ai.SummaryPromptAsWritten | Downloads/notes/backend/ai_routes.py:123-128 | As written: the instruction, then the first 10 000 characters of the text followed by the stray comment, then the closing line. |
| Ai.SummaryPrompt | Downloads/notes/backend/ai_routes.py:123-128 | Intended: the prompt frames exactly the first 10 000 characters of the text between the instruction and the closing line. |
| Ai.SummarizeSpec | Downloads/notes/backend/ai_routes.py:89-131 | No text at all gives 400 "No text to summarize". Otherwise the result is the Gemini call on the framed text. |
| Ai.ChatAlwaysSummarizable | Downloads/notes/backend/ai_routes.py:120-121 | A project chat with at least one message always has text to summarize. |
| Ai.StudyFlowSpec | Downloads/notes/backend/ai_routes.py:134-178 | A missing note is 404. A note without text is 400. Otherwise the flashcard or summary prompt is sent and the reply is tagged with the note and format. |
| Ai.StudyPrompt | Downloads/notes/backend/ai_routes.py:151-170 | For "flashcards" the excerpt is framed by the flashcard instruction and closing line. For any other format it is framed by the study-summary ones. |
| Ai.Distinct | Downloads/notes/backend/ai_routes.py:196-198 | The same elements, without repeats. |
| Ai.FileTypes | Downloads/notes/backend/ai_routes.py:196-198 | Exactly the project's file types, each once, and empty exactly when the project has no files. |
| Ai.ResourceContext | Downloads/notes/backend/ai_routes.py:190-198 | No project, or a missing one, gives an empty context. Otherwise the project's title and description; when it has files, followed by "Technologies: " and its file types joined with ", ". |
| Ai.ResourcePrompt | Downloads/notes/backend/ai_routes.py:200-211 | The prompt is the resource instruction, then exactly the query, a newline and the context, then the closing line. |
| Ai.ResourceFinderSpec | Downloads/notes/backend/ai_routes.py:181-219 | Succeeds exactly when Gemini answers the resource prompt, echoing the query and project. |
| Websocket.Bound | Downloads/notes/backend/websocket_routes.py:15 | The socket bound to a user, or none exactly when the user has no entry. |
| Websocket.Put | Downloads/notes/backend/websocket_routes.py:22 | Binding a user sets only that user's socket. A new user is appended. |
| Websocket.Del | Downloads/notes/backend/websocket_routes.py:30-31 | Unbinding removes only that user's socket. |
| Websocket.DelPut | Downloads/notes/backend/websocket_routes.py:22-31 | Binding then unbinding a user equals just unbinding. |
| Websocket.FirstUserOf | Downloads/notes/backend/websocket_routes.py:42-45 | The first user bound to a socket, or none exactly when no user is. |
| Websocket.RemoveFirst | Downloads/notes/backend/websocket_routes.py:26-27 | Removing one occurrence takes exactly one copy out of the multiset. |
| Websocket.RemoveFirstAppended | Downloads/notes/backend/websocket_routes.py:17-27 | Removing a freshly appended socket restores the list. |
| Websocket.Plugged | Downloads/notes/backend/websocket_routes.py:19-21 | Connecting appends the socket to the project's list, creating the list if needed, and leaves other projects alone. |
| Websocket.Unplugged | Downloads/notes/backend/websocket_routes.py:24-29 | Disconnecting removes one copy of the socket and drops the project when its list becomes empty, leaving other projects alone. |
| Websocket.PluggedRoundTrip | Downloads/notes/backend/websocket_routes.py:17-29 | Round trip: disconnecting a freshly connected socket restores the project map. |
| Websocket.PluggedRoundTripKnown | Downloads/notes/backend/websocket_routes.py:17-29 | The round trip for a project that already had sockets. |
| Websocket.PluggedRoundTripNew | Downloads/notes/backend/websocket_routes.py:17-29 | The round trip for a project with no sockets yet. |
| Websocket.ConnectDisconnectRoundTrip | Downloads/notes/backend/websocket_routes.py:17-31 | Connecting then disconnecting restores the manager, except that the user's binding is gone. |
| Websocket.Delivered | Downloads/notes/backend/websocket_routes.py:39-48 | Exactly the project's sockets that are not the excluded user's and whose send succeeds. |
| Websocket.Failed | Downloads/notes/backend/websocket_routes.py:39-48 | Exactly the project's sockets that are not the excluded user's and whose send fails. |
| Websocket.Without | Downloads/notes/backend/websocket_routes.py:51-55 | Every copy of the socket is removed and nothing else. |
| Websocket.Prune | Downloads/notes/backend/websocket_routes.py:51-55 | Exactly the failed sockets are removed. |
| Websocket.BroadcastState | Downloads/notes/backend/websocket_routes.py:36-55 | A broadcast leaves the users and the set of projects unchanged, only shrinks lists, touches only the target project, and drops exactly its failed sockets. |
| Websocket.ConnectionManager.constructor | Downloads/notes/backend/websocket_routes.py:13-15 | A new manager has no connections and no users. |
| Websocket.ConnectionManager.Connect | Downloads/notes/backend/websocket_routes.py:17-22 | The new state is the connect transition. |
| Websocket.ConnectionManager.Disconnect | Downloads/notes/backend/websocket_routes.py:24-31 | The new state is the disconnect transition. |
| Websocket.Discard | Downloads/notes/backend/websocket_routes.py:26-27 | The guarded removal drops the first occurrence of the socket, and leaves a list without it unchanged. |
| Websocket.ConnectionManager.Unplug | Downloads/notes/backend/websocket_routes.py:25-29 | The project lists lose one occurrence of the socket, a list left empty loses its key, and the user bindings are unchanged. |
| Websocket.ConnectionManager.Broadcast | Downloads/notes/backend/websocket_routes.py:36-55 | The new state and the delivered sockets are those of the broadcast transition. |
| Websocket.ConnectionManager.PruneAll | Downloads/notes/backend/websocket_routes.py:51-55 | The loop removes exactly the failed sockets from the project's list and nothing else. |
| Websocket.SendAll | Downloads/notes/backend/websocket_routes.py:39-48 | The send loop splits the target sockets into exactly the delivered and the failed ones. |
| Websocket.Route | Downloads/notes/backend/websocket_routes.py:97-146 | file_edit, cursor_move and chat_message are rebroadcast stamped with the sender and project. ping is answered with pong. Every other kind is ignored. |
| Websocket.Deliveries | Downloads/notes/backend/websocket_routes.py:36-55 | One delivery of the event to each given socket. |
| Websocket.OnMessage | Downloads/notes/backend/websocket_routes.py:97-146 | One message never changes the users or the set of projects. A ping gets one pong back to its socket, and an unknown kind does nothing. Every other delivery is an event stamped with the connection's own user and project. |
| Websocket.SenderNotEchoed | Downloads/notes/backend/websocket_routes.py:97-146 | A signed-in sender never receives its own rebroadcast. |
| Websocket.AnonymousEchoed | Downloads/notes/backend/websocket_routes.py:42-45 | An anonymous sender (user 0) receives its own chat message, since 0 does not exclude. |
| Websocket.Open | Downloads/notes/backend/websocket_routes.py:66-90 | Opening greets the socket first, binds the user to it, registers the project, and announces only that user joined. |
| Websocket.Close | Downloads/notes/backend/websocket_routes.py:148-158 | Closing unbinds the user and announces only that the user left. |
| Websocket.Serve | Downloads/notes/backend/websocket_routes.py:93-146 | The receive loop crashes exactly when a malformed frame arrives. Every delivery is a pong to this socket or an event stamped with the connection's own user and project. |
| Websocket.ServeOnlyPrunes | Downloads/notes/backend/websocket_routes.py:93-146 | The receive loop stops on a malformed frame exactly when one arrives. It never changes the users or the set of projects, and only shrinks socket lists. |
| Websocket.StaleAfterMalformed | Downloads/notes/backend/websocket_routes.py:93-158 | As written: after a malformed frame, user 1's socket stays registered under project 1 and bound to user 1. |
| Websocket.SessionAsWritten | Downloads/notes/backend/websocket_routes.py:66-158 | As written: the socket is greeted first. Without a malformed frame the session equals the corrected one. After a malformed frame the user stays bound to the socket. |
| Websocket.SessionUnregisters | Downloads/notes/backend/websocket_routes.py:66-158 | Intended: whatever the frames, the session ends with its socket out of the project's list and its user unbound. |
| Websocket.Session | Downloads/notes/backend/websocket_routes.py:66-158 | Intended: the socket is greeted first, and whatever the frames, the user ends unbound. |
| Websocket.ServeLoop | Downloads/notes/backend/websocket_routes.py:93-146 | The receive loop's new state, deliveries and crash flag are those of the session function. |
| Websocket.Endpoint | Downloads/notes/backend/websocket_routes.py:66-158 | The endpoint's new state and deliveries are those of the corrected session. |
| Websocket.HandleMessage | Downloads/notes/backend/websocket_routes.py:97-146 | Handling one frame gives exactly the state and deliveries of the message step. |

## Left out

- Firebase token verification (`get_current_user`) is an HTTP call. Handlers take the resolved caller, and `Routes.GetUserOrCreateAnonymousSpec` takes the token's decoded payload.
- Cloudinary, Firestore and local-disk writes in `upload_file` are I/O. The Cloudinary URL, when one was obtained, and the local file stamp are inputs.
- The size string in the upload reply ("x.xx MB") uses floating point and is not modelled.
- The PDF, DOCX and OCR libraries, the URL download and summarize's read of a local upload are foreign code or I/O. Their availability and outputs are inputs, and a library exception is an empty output.
- Every Gemini HTTP request is an oracle parameter from prompt to reply. The weekly-report prompt text is not reproduced; only the report's shape and fallback are modelled.
- Time is an integer clock in the store. Invite tokens (`secrets.token_urlsafe`) are a parameter.
- All tables share one key counter. The source's per-table autoincrement keys differ only in their values, which no property depends on.
- Rows created within one request share the clock value, so ties in created_at are ordered by table order.
- SQL `ilike` wildcards (`%` and `_` inside the query) are not interpreted. The query is a plain case-insensitive substring, and case folding is ASCII only.
- updated_at columns are not modelled.
- Ai.FileTypes: Python's set order is unspecified, so the model lists file types in order of first appearance.
- Upload.KeepExtracted: `str.strip` and `str.isspace` are modelled for characters below U+0100 only (`Strs.IsSpace`), so other Unicode whitespace counts as text.
- Upload.NoteType: `str.upper` is modelled for ASCII letters only (`Strs.Upper`), so a kind with non-ASCII letters is kept as it is.
- Upload.ParseTags: tags are stripped of whitespace below U+0100 only, as in `Strs.Strip`.
- Routes.SearchNotes: the query is stripped of whitespace below U+0100 only, and lower-casing is ASCII only (`Strs.Lower`).
- ORM relationship collections (for example `project.members`) are read in table order.
- The text of `str(e)` in error details is not modelled; only the status code and the fixed details are.
- The websocket's concurrency, the personal send and welcome message (assumed to succeed), the JSON payload's field types and the close code are not modelled. A malformed frame is one input kind.
- update_task, delete_task, read_tasks, create_note, read_notes, create_project, delete_project, search_projects and search_tasks in routes.py are not part of this model.
- main.py, database.py, migrate_database.py, models.py and schemas.py supply only constants and column shapes.
- The browser client (classification, search debouncing, optimistic insert, summary state machine) is not part of this model.

## Findings

| source | as written | input that shows it | evidently intended | confidence | as-written member | corrected member |
|---|---|---|---|---|---|---|
| Downloads/notes/backend/project_files_routes.py:92-93 | The initial FileVersion takes `db_file.id` before any flush, so its file_id is NULL | Any successful create_project_file: the new file's history is empty | The initial version points at the new file | not executed | ProjectFiles.CreatedFileHistoryAsWritten | ProjectFiles.CreatedFileHistory |
| Downloads/notes/backend/project_files_routes.py:39-45 | With require_edit, a non-member on a public project reaches `member.role` with member None, and the request fails with 500 | Project 1 public, owned by user 1; user 2 asks to edit | 403 "Edit access denied" | not executed | ProjectFiles.AccessCrashExample | ProjectFiles.CheckAccess |
| Downloads/notes/backend/ai_routes.py:123-128 | The comment "  # Limit to 10k chars" is inside the f-string and is sent to Gemini | Any text given to ai_summarize | The prompt frames only the first 10 000 characters | not executed | Ai.SummaryPromptAsWrittenLeaks | Ai.SummaryPrompt |
| Downloads/notes/backend/websocket_routes.py:93-158 | Only WebSocketDisconnect is caught, so a frame that is not JSON ends the handler without disconnecting | User 1 on project 1, empty manager, one malformed frame | The socket and user are always unregistered | not executed | Websocket.StaleAfterMalformed | Websocket.SessionUnregisters |

Each finding has a corrected member, and the rest of the model uses it:

- `ProjectFiles.CreateFileSpec` links the initial version to the new file.
- The file handlers call `ProjectFiles.CheckAccess`.
- `Ai.SummarizeSpec` uses `Ai.SummaryPrompt`.
- `Websocket.Endpoint` implements `Websocket.Session`, which always closes.

An observation that is not a finding: edits logged by the file handlers never carry "content" (project_files_routes.py:184). As a result, total_lines_changed in the progress report is always 0 for them (`Analytics.HandlerEditsCountNoLines`).
