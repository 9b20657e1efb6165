# ScriptWriter editing session in Dafny

ScriptWriter is a small screenplay editor: a React single-page client
(`frontend/src/App.js`) over a REST server. This project models the client's
editing session and proves properties of that model. The session is a state
machine that keeps five things consistent:

- the cached document list;
- the selected document;
- the edit buffer (title and content);
- the single debounced autosave timer;
- the session, made of the logged-in flag, the display name, and the `token`
  and `username` entries in local storage.

The model has these parts:

- `Documents.dfy` holds the pure pieces over the document list:
  - the `find` that keeps the selection across a fetch;
  - the filter-and-prepend that inserts a created document;
  - the rule that decides what a fetch selects.
- `Storage.dfy` models local storage as a `map<string, string>`. It holds the
  checks the client makes on the two session entries.
- `Filename.dfy` holds the name under which an exported PDF is downloaded.
- `Gateway.dfy` describes the server as the editor sees it: the requests it
  issues, the replies it can get and the alerts it raises.
- `App.dfy` is the class `Editor.App`:
  - It has one field per React state variable. The refs are taken to equal
    the state they mirror.
  - Timers the browser holds are a map from timer handle to the draft the
    timer will save. `saveTimer` is `saveTimerRef`.
  - Every request issued is kept in the log `sent`, and every alert in the
    log `alerts`.
  - Each asynchronous handler is split at its `await`. The first half is a
    `Begin...` method that returns the request it issues. The second half is
    an `On...Reply` method whose reply is a parameter. Replies can therefore
    arrive in any order relative to user input.
  - `Valid()` is the invariant every transition keeps:
    - at most one autosave timer is pending, and it is the one
      `saveTimerRef` names;
    - the selection is an entry of the list;
    - a pending timer carries the current buffer and was armed for the
      current selection.
- `Scenarios.dfy` drives the editor from page load through short sequences
  of user input and server replies; each scenario's `ensures` states what the
  user observes.

## Model

| member | source | states |
|---|---|---|
| Documents.FindById | frontend/src/App.js:82 | the index found holds the id and no earlier entry does; none is found only when no entry has the id |
| Documents.Option.GetOr | frontend/src/App.js:137-138 | `x !== undefined ? x : fallback`: a value that was given is used, a missing one gives the fallback |
| Documents.ContentOrEmpty | frontend/src/App.js:99 | `content \|\| ''`: a null content gives the empty string, any other content is used as it is (also at lines 105, 256 and 381) |
| Documents.WithoutId | frontend/src/App.js:253 | the filtered list is no longer than the input; it keeps exactly the entries whose id differs |
| Documents.Prepend | frontend/src/App.js:253 | the created document comes first; every later entry is from the old list with a different id; every old entry with a different id is kept |
| Documents.Reconcile | frontend/src/App.js:75-116 | an empty list selects nothing; otherwise the selection is an entry of the list; it is the first entry with the live selection's id when that id is non-zero and present, and entry 0 otherwise |
| Documents.ReconcileStable | frontend/src/App.js:80-99 | reconciling against what a fetch selected selects it again, so a second identical fetch keeps the selection |
| Documents.ReconcileIsFirstMatch | frontend/src/App.js:82-84 | when entry i is the first with the live id, the fetch selects exactly that entry |
| Documents.CountIdZero | frontend/src/App.js:253 | a list without the id counts it zero times |
| Documents.PrependPlacesOnce | frontend/src/App.js:253 | after a create the new document is at index 0 and its id occurs exactly once |
| Documents.WithoutIdAppend | frontend/src/App.js:253 | the filter distributes over concatenation, so the surviving entries keep their relative order |
| Documents.WithoutIdAbsent | frontend/src/App.js:253 | filtering an id no entry has leaves the list unchanged |
| Documents.WithoutIdUnique | frontend/src/App.js:253 | filtering keeps ids unique |
| Documents.PrependKeepsIdsUnique | frontend/src/App.js:253 | a create never introduces a duplicate id into a list with unique ids |
| Filename.IsWhitespace | frontend/src/App.js:339 | the characters JavaScript's `\s` matches; space, tab, newline and carriage return are among them, `_` and `.` are not |
| Filename.ReplaceWhitespace | frontend/src/App.js:339 | `replace(/\s/g, '_')` keeps the length of the title |
| Filename.ReplaceWhitespaceAt | frontend/src/App.js:339 | the replacement keeps the length; each whitespace character becomes `_`; every other character stays in place |
| Filename.NoWhitespaceLeft | frontend/src/App.js:339 | the replaced title contains no whitespace |
| Filename.ReplaceWhitespaceIdle | frontend/src/App.js:339 | a title without whitespace is used unchanged |
| Filename.PdfFileName | frontend/src/App.js:339 | the name ends in `.pdf`; an empty title gives the stem `screenplay`; otherwise the stem is the title with each whitespace character replaced by `_` |
| Storage.Truthy | frontend/src/App.js:62 | the JavaScript truth test on `getItem`: an absent key (null) and the empty string are falsy, so the entry counts exactly when it is stored and non-empty (also at lines 146, 227, 282 and 319) |
| Storage.AuthToken | frontend/src/App.js:70 | the Bearer token sent is the stored `token` entry, which is non-empty (also at lines 162, 248, 289 and 328) |
| Gateway.IsAuthFailure | frontend/src/App.js:119-122 | a reply got an HTTP response and its status is 401 or 403 (also at lines 175-178, 261-264, 297-300 and 348-351) |
| Storage.RestoredUser | frontend/src/App.js:418-421 | a user is restored exactly when both entries are present, non-empty and not `'undefined'`, and the user restored is the stored name |
| Storage.Cleared | frontend/src/App.js:43-44 | neither session entry is left in storage |
| Storage.Stored | frontend/src/App.js:203-204 | both session entries hold the values given |
| Storage.ClearedRestoresNobody | frontend/src/App.js:43-44 | after logout a reload restores nobody and no call carries a token |
| Storage.StoredRestoresUser | frontend/src/App.js:203-204 | after a login with a real token and name, a reload restores that user, and the calls carry that token |
| Storage.ClearedKeepsOthers | frontend/src/App.js:43-44 | logout changes no other storage entry |
| Storage.StoredKeepsOthers | frontend/src/App.js:203-204 | login changes no other storage entry |
| Editor.ListCall | frontend/src/App.js:61-71 | a list request is issued exactly when a token is stored, and it carries that token |
| Editor.App.AtMostOneAutosave | frontend/src/App.js:391-412 | under the invariant at most one autosave timer is pending |
| Editor.App.constructor | frontend/src/App.js:8-23 | the page starts logged out with an empty registry, buffer and status, no timer, and the given storage |
| Editor.App.CancelAutosave | frontend/src/App.js:54-56 | the timer `saveTimerRef` names is cancelled, which leaves no autosave pending |
| Editor.App.RunAutosave | frontend/src/App.js:391-412 | with a selection, one fresh timer carrying the buffer replaces any pending one; without one, the old timer is cancelled and none is armed; the invariant holds afterwards |
| Editor.App.ForgetSession | frontend/src/App.js:43-47 | both storage entries are removed, and the session and the form fields are cleared |
| Editor.App.ResetEditor | frontend/src/App.js:48-56 | the list, selection, buffer and status are cleared and the pending autosave is cancelled |
| Editor.App.Logout | frontend/src/App.js:41-57 | the whole signed-out state holds, storage loses exactly the two session entries, and the invariant is kept |
| Editor.App.Expire | frontend/src/App.js:119-124 | a rejected token signs out and adds the session-expired alert |
| Editor.App.Show | frontend/src/App.js:94-116 | the selection becomes the one given; the buffer holds its title and `content \|\| ''`, or is empty without a selection; the autosave re-arms |
| Editor.App.FetchScreenplays | frontend/src/App.js:60-71 | a list request with the stored token is issued, or nothing without a token |
| Editor.App.OnFetchReply | frontend/src/App.js:72-128 | success replaces the list, reconciles against the live selection and reloads the buffer from it; a 401 or 403 signs out; any other failure only alerts |
| Editor.App.BeginSave | frontend/src/App.js:134-164 | with no selection or no token nothing is issued, and only a non-silent call alerts; otherwise one PUT goes to the selection read at call time, with the given title and content or else the buffer, and the status becomes `Saving...` |
| Editor.App.Settle | frontend/src/App.js:166-174 | the status shows the outcome and one status reset is scheduled |
| Editor.App.RejectSave | frontend/src/App.js:175-183 | a rejected token signs out even for a silent save; another failure alerts only when not silent and changes nothing else |
| Editor.App.OnSaveReply | frontend/src/App.js:165-184 | success shows `Saved!` and fetches; a 401 or 403 signs out; another failure shows `Save Failed!` and alerts only when not silent; one status reset is scheduled in each case |
| Editor.App.EditTitle | frontend/src/App.js:531-534 | the buffer title takes the input and the autosave re-arms with it |
| Editor.App.EditContent | frontend/src/App.js:541-544 | the buffer content takes the input and the autosave re-arms with it |
| Editor.App.OnAutosaveTimer | frontend/src/App.js:398-402 | a cancelled timer does nothing; the pending one issues one silent save of the draft it carries to the selection it was armed for |
| Editor.App.Select | frontend/src/App.js:362-387 | the pending autosave is cancelled; with no selection nothing is flushed; a different document gets one silent flush of the buffer to the old selection and then becomes the selection with its title and `content \|\| ''` and an empty status; choosing the selected id changes nothing else and issues nothing |
| Editor.App.BeginCreate | frontend/src/App.js:224-250 | without a token nothing is issued and the user is told; with a selection only the silent flush of the buffer is issued; otherwise the POST with the default title and content is issued; the token read is returned, and there is one exactly when the stored token is truthy |
| Editor.App.OnCreateFlushReply | frontend/src/App.js:237-250 | the flush's reply is handled as a silent save's, and only then is the POST issued, with the token `BeginCreate` returned |
| Editor.App.AdoptCreated | frontend/src/App.js:253-258 | the created document is prepended, selected and loaded, the status announces it and the autosave re-arms |
| Editor.App.OnCreateReply | frontend/src/App.js:251-270 | success prepends, selects and loads the new document; a 401 or 403 signs out; another failure only alerts |
| Editor.App.BeginDelete | frontend/src/App.js:273-290 | a declined confirmation does nothing; without a token the user is told; otherwise one DELETE of the id is issued |
| Editor.App.OnDeleteReply | frontend/src/App.js:291-306 | success leaves the list and the editor untouched and only fetches again; a 401 or 403 signs out; another failure only alerts |
| Editor.App.BeginPdf | frontend/src/App.js:311-331 | without a selection or a token nothing is issued and the user is told; otherwise the PDF of the selection is requested |
| Editor.App.OnPdfReply | frontend/src/App.js:333-356 | success downloads under the name made from the title in the buffer when the reply arrives; a 401 or 403 signs out; another failure only alerts |
| Editor.App.EditUsername | frontend/src/App.js:444 | the username field takes the input |
| Editor.App.EditPassword | frontend/src/App.js:450 | the password field takes the input |
| Editor.App.BeginAuth | frontend/src/App.js:190-198 | the form's username and password are posted to the login or register endpoint |
| Editor.App.SignIn | frontend/src/App.js:201-209 | the token and name are stored, the user is logged in under that name, and the form is cleared |
| Editor.App.OnAuthReply | frontend/src/App.js:200-219 | a 200 or 201 signs in and fetches with the new token; any other outcome leaves the session as it was; the server's message or a failure notice is shown |
| Editor.App.Restore | frontend/src/App.js:416-429 | a stored session restores the user and fetches; otherwise nothing changes |
| Editor.App.OnStatusTimer | frontend/src/App.js:167 | a pending status reset clears the status line |
| Scenarios.Opened | frontend/src/App.js:416-429 | a page with a stored session restores it, fetches once and selects the first document, with its autosave armed |
| Scenarios.Edited | frontend/src/App.js:541-544 | after the content of the first document is edited, exactly one timer is pending and it carries that edit |
| Scenarios.SwitchFlushesEditToOldDocument | frontend/src/App.js:362-387 | switching before the debounce elapses flushes the edit once to the document left; the timer armed for it then saves nothing; the buffer shows the new document's content |
| Scenarios.DebounceSavesLastEdit | frontend/src/App.js:391-412 | of two quick edits only the second timer saves, and it saves the second value |
| Scenarios.CreateIntoEmptyRegistry | frontend/src/App.js:224-258 | with nothing selected the POST is issued at once and the new document becomes the only entry, the selection and the buffer |
| Scenarios.RejectedAutosaveSignsOut | frontend/src/App.js:175-180 | a 401 on a silent autosave signs out; nothing is selected; a reload restores nobody; the user is told once |
| Scenarios.LateFetchKeepsLiveSelection | frontend/src/App.js:80-84 | a list fetch is issued; its reply, arriving after the user switched documents, keeps the document switched to |
| Scenarios.DeleteKeepsPendingAutosave | frontend/src/App.js:273-294 | deleting the selected document leaves its autosave armed, so the timer can still save to the deleted id |
| Scenarios.UntitledPdfName | frontend/src/App.js:339 | an untitled document downloads as `screenplay.pdf` |
| Scenarios.LoginThenReload | frontend/src/App.js:190-211 | a login sends the form, fetches with the token received, and a reload afterwards restores the same user |
| Scenarios.IdleDocumentKeepsSaving | frontend/src/App.js:96-112 | with a document open and no edits, the autosave saves it, the success fetches the list, and the list reply arms a timer again carrying the same title and content (the save is at lines 153-170, the re-arm at 391-412) |
| Scenarios.CreateAfterRejectedFlush | frontend/src/App.js:224-250 | a create with a document selected first flushes it; when the flush is rejected with 403 the user is logged out and the POST still goes out with the token read before |

## Behaviour as the code has it

In these places `App.js` behaves in ways a reader may not expect; the model
follows the code:

- A delete does not cancel the pending autosave. The timer can fire before
  the list is fetched again. It then saves the deleted id; see
  `Scenarios.DeleteKeepsPendingAutosave`.
- A create does not cancel the pending autosave either. The timer stays
  armed while the flush and the POST are in flight. It is replaced by the
  next edit, by the reply to the list fetch that a successful flush issues
  (`App.js:170`) if that reply arrives first, or by selecting the created
  document when the POST succeeds.
- An autosave timer carries the title and content of the render that armed
  it. It reads the selection when it fires. The invariant `Valid()` shows that
  this is always the selection the timer was armed for, because every change
  of selection re-arms the timer.
- A fetch reconciles against the selection live when the reply arrives. It
  reloads the buffer from the server's copy of that document, so the server's
  copy replaces text typed after the save was issued.
- The create's POST carries the token read when the create began, even when
  the flush before it was rejected and logged the user out; see
  `Scenarios.CreateAfterRejectedFlush`.
- A document left open without edits is saved about every two seconds. The
  autosave saves it; the save's success fetches the list (`App.js:170`); the
  list reply holds a new object for the same document, so the selection is
  set again (`App.js:96-97`), and that re-arms the autosave
  (`App.js:412`). The model has no clock, so it shows one turn of this loop;
  see `Scenarios.IdleDocumentKeepsSaving`.
- Selecting the document that is already selected still cancels the pending
  autosave and arms no new timer. A timer is armed again by the next edit,
  by any successful list reply that leaves a document selected, by a
  successful create reply, or by selecting another document.
- The selected id is tested for truthiness. The model reads this as
  "non-zero", because ids are integers.

## Left out

- `backend/server.js` as a whole. The server's behaviour is an input: every
  request may get any reply.
- The JSX rendering, the disabled states of the buttons, and the
  login/register toggle at `frontend/src/App.js:457`.
- The wording of alerts and status messages beyond the four status strings,
  and all `console` output. Alerts are kept as kinds in the `alerts` log.
- axios, `window.confirm` and the Blob and DOM download plumbing. A
  confirmation is a boolean parameter. A download is the file name it would
  use.
- Wall-clock timing. The 2000 ms debounce and the 2000 ms and 3000 ms status
  resets are discrete events. The status resets are counted, not ordered.
- React's render scheduling and reference-identity checks. Every assignment
  to the title, the content or the selection is taken to re-render and
  re-run the autosave effect. Server replies are always fresh objects, and a
  keystroke always changes the value, so this matches the running client.
- Editor.App.EditTitle: an input event that leaves the title unchanged
  re-arms in the model, though React would not re-render.
- Editor.App.EditContent: the same holds for the content.
- Editor.App.OnAuthReply: a 2xx body without a `user` object makes
  `App.js:201-202` throw into the catch branch. The model takes the body as
  well-formed. The name it stores is `user.username`, written
  `Credentials.username`.
- Editor.App.OnFetchReply: a list body that is not an array of rows is not
  modelled; the reply's data is always a sequence of rows. In `App.js` a null
  or undefined body throws at line 75 into the catch branch, while other
  non-array bodies take the empty or non-empty path according to what their
  `length` and `[0]` give (an object body, for instance, resets the editor
  and is stored as the list).
- Unmounting the component, whose effect cleanup would cancel the timer.
- React's development-mode double run of effects.
