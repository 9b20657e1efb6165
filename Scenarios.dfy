/** End-to-end scenarios that drive the editor on a fresh page, each
    scenario's ensures stating what the user would observe: which requests go
    out and what is selected. The server's replies are chosen by the caller. */
module Scenarios {
  import opened Documents
  import opened Storage
  import opened Gateway
  import opened Editor
  import opened Filename

  /** A page loaded with a stored session: the mount restores the user and
      fetches, and the list reply `list` arrives. The first entry is selected
      and loaded, and its autosave is armed. */
  method Opened(token: string, user: string, list: seq<Screenplay>) returns (app: App)
    requires token !in {"", Placeholder} && user !in {"", Placeholder} && list != []
    ensures fresh(app) && app.Valid()
    ensures app.storage == Stored(map[], token, user) && Truthy(app.storage, TokenKey) && app.storage[TokenKey] == token
    ensures app.isLoggedIn && app.userDisplayName == user && app.sent == [ListRequest(token)]
    ensures app.screenplays == list && app.current == Some(list[0]) && app.armedFor == list[0].id
    ensures app.editingTitle == list[0].title && app.editingContent == ContentOrEmpty(list[0])
    ensures app.saveTimer.Some? && app.timers.Keys == {app.saveTimer.value}
    ensures app.alerts == []
  {
    StoredRestoresUser(map[], token, user);
    app := new App(Stored(map[], token, user));
    var _ := app.Restore();
    app.OnFetchReply(Success(200, list));
  }

  /** `Opened`, after which the content of the first document is edited to
      `x`: one timer, `t`, is pending with that edit. */
  method Edited(token: string, user: string, list: seq<Screenplay>, x: string) returns (app: App, t: TimerId)
    requires token !in {"", Placeholder} && user !in {"", Placeholder} && list != []
    ensures fresh(app) && app.Valid()
    ensures Truthy(app.storage, TokenKey) && app.storage[TokenKey] == token && app.storage == Stored(map[], token, user)
    ensures app.screenplays == list && app.current == Some(list[0]) && app.armedFor == list[0].id
    ensures app.editingTitle == list[0].title && app.editingContent == x
    ensures app.saveTimer == Some(t) && app.nextTimer == t + 1 && app.timers == map[t := Draft(list[0].title, x)]
    ensures app.alerts == []
  {
    app := Opened(token, user, list);
    app.EditContent(x);
    t := app.saveTimer.value;
  }

  /** Switching documents before the debounce elapses flushes the edit to the
      document being left, and the timer armed for it can no longer save. */
  method SwitchFlushesEditToOldDocument(token: string, user: string, a: Screenplay, b: Screenplay, x: string)
    returns (flush: Option<Request>, late: Option<Request>, shown: string)
    requires token !in {"", Placeholder} && user !in {"", Placeholder} && a.id != b.id
    ensures flush == Some(UpdateRequest(token, a.id, a.title, x))
    ensures late.None?
    ensures shown == ContentOrEmpty(b)
  {
    var app, t := Edited(token, user, [a, b], x);
    flush := app.Select(b);
    late := app.OnAutosaveTimer(t);
    shown := app.editingContent;
  }

  /** Of several quick edits only the last timer saves, with the last values. */
  method DebounceSavesLastEdit(token: string, user: string, a: Screenplay, x: string, y: string)
    returns (first: Option<Request>, last: Option<Request>)
    requires token !in {"", Placeholder} && user !in {"", Placeholder}
    ensures first.None?
    ensures last == Some(UpdateRequest(token, a.id, a.title, y))
  {
    var app, t1 := Edited(token, user, [a], x);
    app.EditContent(y);
    var t2 := app.saveTimer.value;
    assert t2 == t1 + 1 && app.timers == map[t2 := Draft(a.title, y)];
    first := app.OnAutosaveTimer(t1);
    assert app.timers == map[t2 := Draft(a.title, y)] && app.current == Some(a);
    last := app.OnAutosaveTimer(t2);
  }

  /** A user whose registry is empty creates a document: with nothing
      selected the create is posted at once, and the reply becomes the only
      entry, the selection and the buffer. */
  method CreateIntoEmptyRegistry(token: string, user: string, sp: Screenplay)
    returns (post: Option<Request>, list: seq<Screenplay>, sel: Option<Screenplay>, title: string, content: string)
    requires token !in {"", Placeholder} && user !in {"", Placeholder}
    ensures post == Some(CreateRequest(token, NewTitle, NewContent))
    ensures list == [sp] && sel == Some(sp)
    ensures title == sp.title && content == ContentOrEmpty(sp)
  {
    StoredRestoresUser(map[], token, user);
    var app := new App(Stored(map[], token, user));
    var _ := app.Restore();
    app.OnFetchReply(Success(200, []));
    assert app.current.None? && app.screenplays == [] && app.storage[TokenKey] == token;
    var read;
    post, read := app.BeginCreate();
    assert Prepend([], sp) == [sp];
    app.OnCreateReply(Success(201, sp));
    list, sel, title, content := app.screenplays, app.current, app.editingTitle, app.editingContent;
  }

  /** A restored session whose token the server rejects on a silent autosave
      is logged out: nothing is selected and a reload restores nobody. */
  method RejectedAutosaveSignsOut(token: string, user: string, a: Screenplay, x: string)
    returns (save: Option<Request>, loggedIn: bool, sel: Option<Screenplay>, reloadUser: string, told: seq<Notice>)
    requires token !in {"", Placeholder} && user !in {"", Placeholder}
    ensures save == Some(UpdateRequest(token, a.id, a.title, x))
    ensures !loggedIn && sel.None? && reloadUser == ""
    ensures told == [SessionExpired]
  {
    var app, t := Edited(token, user, [a], x);
    save := app.OnAutosaveTimer(t);
    assert save == Some(UpdateRequest(token, a.id, a.title, x)) && app.alerts == [];
    var _ := app.OnSaveReply(true, HttpError(401));
    ClearedRestoresNobody(Stored(map[], token, user));
    loggedIn, sel, reloadUser, told := app.isLoggedIn, app.current, RestoredUser(app.storage), app.alerts;
  }

  /** A list reply that arrives after the user switched keeps the document the
      user switched to, not the one selected when the fetch was issued. */
  method LateFetchKeepsLiveSelection(token: string, user: string, a: Screenplay, b: Screenplay)
    returns (fetch: Option<Request>, sel: Option<Screenplay>)
    requires token !in {"", Placeholder} && user !in {"", Placeholder} && a.id != b.id && b.id != 0
    ensures fetch == Some(ListRequest(token))
    ensures sel == Some(b)
  {
    var app := Opened(token, user, [a, b]);
    fetch := app.FetchScreenplays();
    var _ := app.Select(b);
    ReconcileIsFirstMatch([a, b], Some(b), 1);
    app.OnFetchReply(Success(200, [a, b]));
    sel := app.current;
  }

  /** Deleting the selected document leaves its pending autosave armed: if the
      timer fires before the list is fetched again, a save of the deleted id
      is issued. */
  method DeleteKeepsPendingAutosave(token: string, user: string, a: Screenplay, x: string)
    returns (del: Option<Request>, late: Option<Request>)
    requires token !in {"", Placeholder} && user !in {"", Placeholder}
    ensures del == Some(DeleteRequest(token, a.id))
    ensures late == Some(UpdateRequest(token, a.id, a.title, x))
  {
    var app, t := Edited(token, user, [a], x);
    del := app.BeginDelete(a.id, true);
    var _ := app.OnDeleteReply(Success(200, ()));
    assert t in app.timers && app.timers[t] == Draft(a.title, x) && app.current == Some(a);
    late := app.OnAutosaveTimer(t);
  }

  /** The PDF of an untitled document is downloaded as `screenplay.pdf`. */
  method UntitledPdfName(token: string, user: string, a: Screenplay)
    returns (req: Option<Request>, name: Option<string>)
    requires token !in {"", Placeholder} && user !in {"", Placeholder} && a.title == ""
    ensures req == Some(PdfRequest(token, a.id))
    ensures name == Some("screenplay.pdf")
  {
    var app := Opened(token, user, [a]);
    req := app.BeginPdf();
    name := app.OnPdfReply(Success(200, ()));
    assert PdfFileName("") == "screenplay.pdf";
  }

  /** Logging in from an empty page sends the form, fetches with the token
      received, and a reload afterwards restores the same user. */
  method LoginThenReload(name: string, secret: string, cred: Credentials)
    returns (auth: Request, fetch: Option<Request>, reloadUser: string)
    requires cred.token !in {"", Placeholder} && cred.username !in {"", Placeholder}
    ensures auth == AuthRequest(false, name, secret)
    ensures fetch == Some(ListRequest(cred.token))
    ensures reloadUser == cred.username
  {
    var app := new App(map[]);
    app.EditUsername(name);
    app.EditPassword(secret);
    auth := app.BeginAuth(false);
    fetch := app.OnAuthReply(Success(200, cred));
    StoredRestoresUser(map[], cred.token, cred.username);
    reloadUser := RestoredUser(app.storage);
  }

  /** A document left open without edits is saved and fetched again and
      again: the autosave saves it, the save's success fetches the list, and
      the list reply selects a fresh copy of the document, which arms the
      autosave once more. */
  method IdleDocumentKeepsSaving(token: string, user: string, a: Screenplay)
    returns (save: Option<Request>, refetch: Option<Request>, again: Option<Draft>)
    requires token !in {"", Placeholder} && user !in {"", Placeholder}
    ensures save == Some(UpdateRequest(token, a.id, a.title, ContentOrEmpty(a)))
    ensures refetch == Some(ListRequest(token))
    ensures again == Some(Draft(a.title, ContentOrEmpty(a)))
  {
    var app := Opened(token, user, [a]);
    save := app.OnAutosaveTimer(app.saveTimer.value);
    refetch := app.OnSaveReply(true, Success(200, a));
    assert app.current == Some(a) && app.screenplays == [a];
    app.OnFetchReply(Success(200, [a]));
    again := if app.saveTimer.Some? && app.saveTimer.value in app.timers
             then Some(app.timers[app.saveTimer.value]) else None;
  }

  /** A create whose flush is rejected still posts, with the token read when
      the create began, after the user has been logged out. */
  method CreateAfterRejectedFlush(token: string, user: string, a: Screenplay, x: string)
    returns (flush: Option<Request>, post: Request, loggedIn: bool)
    requires token !in {"", Placeholder} && user !in {"", Placeholder}
    ensures flush == Some(UpdateRequest(token, a.id, a.title, x))
    ensures post == CreateRequest(token, NewTitle, NewContent)
    ensures !loggedIn
  {
    var app, _ := Edited(token, user, [a], x);
    var read;
    flush, read := app.BeginCreate();
    var refetch;
    refetch, post := app.OnCreateFlushReply(read.value, HttpError(403));
    loggedIn := app.isLoggedIn;
  }
}
