/** The editing session of the single-page editor: the cached document list,
    the selected document, the edit buffer, the debounced autosave timer and
    the session kept in local storage. Every asynchronous handler is split at
    its await into a Begin/issue method and an On...Reply method whose reply is
    a parameter, so replies may arrive in any order relative to user input.
    React refs are taken to equal the state they mirror after each transition. */
module Editor {
  import opened Documents
  import opened Storage
  import opened Gateway
  import opened Filename

  /** A browser timer handle, as `setTimeout` returns it. */
  type TimerId = nat

  /** What a pending autosave timer saves: the buffer of the render that armed it. */
  datatype Draft = Draft(title: string, content: string)

  const Saving := "Saving..."
  const Saved := "Saved!"
  const SaveFailedStatus := "Save Failed!"
  const Created := "New script created!"

  /** The selection, if any, is an entry of the list. */
  ghost predicate Listed(sel: Option<Screenplay>, list: seq<Screenplay>) {
    sel.Some? ==> sel.value in list
  }

  /** The requests an issuing step added to the log. */
  function Issued(r: Option<Request>): seq<Request> {
    if r.Some? then [r.value] else []
  }

  /** The list request `fetchScreenplays` issues from the given storage, if any. */
  function ListCall(storage: map<string, string>): (r: Option<Request>)
    ensures r.Some? <==> Truthy(storage, TokenKey)
    ensures r.Some? ==> r.value.ListRequest? && r.value.token == storage[TokenKey]
  {
    if Truthy(storage, TokenKey) then Some(ListRequest(AuthToken(storage))) else None
  }

  class App {
    // session
    var storage: map<string, string>
    var isLoggedIn: bool
    var isRegistering: bool
    var username: string
    var password: string
    var userDisplayName: string
    // document registry
    var screenplays: seq<Screenplay>
    var current: Option<Screenplay>
    // edit buffer
    var editingTitle: string
    var editingContent: string
    var saveStatus: string
    // autosave scheduler: saveTimerRef, and the autosave timers the browser holds
    var saveTimer: Option<TimerId>
    var timers: map<TimerId, Draft>
    var nextTimer: TimerId
    /** Status-reset timers (`setTimeout(() => setSaveStatus(''), ...)`) not yet fired. */
    var statusResets: nat
    /** Every request issued, in order, and every alert shown, in order. */
    var sent: seq<Request>
    var alerts: seq<Notice>
    /** The id selected when the pending autosave timer was armed. */
    ghost var armedFor: int

    function Handle(): set<TimerId>
      reads this`saveTimer
    {
      if saveTimer.Some? then {saveTimer.value} else {}
    }

    /** Every pending autosave timer is the one saveTimerRef names. */
    ghost predicate TimersTracked()
      reads this`timers, this`saveTimer, this`nextTimer
    {
      timers.Keys <= Handle() && (saveTimer.Some? ==> saveTimer.value < nextTimer)
    }

    ghost predicate Valid()
      reads this`timers, this`saveTimer, this`nextTimer, this`current, this`screenplays, this`armedFor, this`editingTitle, this`editingContent
    {
      && TimersTracked()
      && Listed(current, screenplays)
      && (timers != map[] ==>
            && current.Some? && current.value.id == armedFor
            && saveTimer.Some? && saveTimer.value in timers
            && timers[saveTimer.value] == Draft(editingTitle, editingContent))
    }

    /** The session part of the state `handleLogout` leaves. */
    ghost predicate SessionCleared()
      reads this`storage, this`isLoggedIn, this`username, this`password, this`userDisplayName
    {
      && TokenKey !in storage && UsernameKey !in storage
      && !isLoggedIn && username == "" && password == "" && userDisplayName == ""
    }

    /** The editor part of the state `handleLogout` leaves. */
    ghost predicate EditorCleared()
      reads this`screenplays, this`current, this`editingTitle, this`editingContent, this`saveStatus, this`timers
    {
      && screenplays == [] && current.None? && editingTitle == "" && editingContent == ""
      && saveStatus == "" && timers == map[]
    }

    /** The state `handleLogout` leaves. */
    ghost predicate SignedOut()
      reads this`storage, this`isLoggedIn, this`username, this`password, this`userDisplayName, this`screenplays, this`current, this`editingTitle, this`editingContent, this`saveStatus, this`timers
    {
      SessionCleared() && EditorCleared()
    }

    /** The timer just armed, numbered `t`, carries the buffer and the selection. */
    ghost predicate Armed(t: TimerId)
      reads this`current, this`saveTimer, this`nextTimer, this`timers, this`editingTitle, this`editingContent, this`armedFor
    {
      && current.Some? && saveTimer == Some(t) && nextTimer == t + 1
      && timers == map[t := Draft(editingTitle, editingContent)] && armedFor == current.value.id
    }

    twostate predicate SessionKept()
      reads this`storage, this`isLoggedIn, this`username, this`password, this`userDisplayName
    {
      && storage == old(storage) && isLoggedIn == old(isLoggedIn) && username == old(username)
      && password == old(password) && userDisplayName == old(userDisplayName)
    }

    twostate predicate EditorKept()
      reads this`screenplays, this`current, this`editingTitle, this`editingContent, this`saveStatus, this`timers
    {
      && screenplays == old(screenplays) && current == old(current) && editingTitle == old(editingTitle)
      && editingContent == old(editingContent) && saveStatus == old(saveStatus) && timers == old(timers)
    }

    twostate predicate HandleKept()
      reads this`saveTimer, this`nextTimer
    {
      saveTimer == old(saveTimer) && nextTimer == old(nextTimer)
    }

    /** A 401 or 403: the whole session is cleared and the user is told. */
    twostate predicate ForcedOut()
      reads this`storage, this`isLoggedIn, this`username, this`password, this`userDisplayName, this`screenplays, this`current, this`editingTitle, this`editingContent, this`saveStatus, this`timers, this`alerts
    {
      SignedOut() && storage == Cleared(old(storage)) && alerts == old(alerts) + [SessionExpired]
    }

    /** After the autosave effect: a fresh timer if a document is selected,
        none otherwise. */
    twostate predicate Rearmed()
      reads this`current, this`saveTimer, this`nextTimer, this`timers, this`editingTitle, this`editingContent, this`armedFor
    {
      if current.Some? then Armed(old(nextTimer)) else timers == map[] && HandleKept()
    }

    /** What a save reply does to everything but the request log. */
    twostate predicate SaveHandled(silent: bool, reply: Reply<Screenplay>, new refetch: Option<Request>)
      reads this`storage, this`isLoggedIn, this`username, this`password, this`userDisplayName,
            this`screenplays, this`current, this`editingTitle, this`editingContent, this`saveStatus,
            this`timers, this`saveTimer, this`nextTimer, this`statusResets, this`alerts
    {
      && statusResets == old(statusResets) + 1 && HandleKept()
      && (reply.Success? ==>
            saveStatus == Saved && SessionKept() && screenplays == old(screenplays) && current == old(current)
            && editingTitle == old(editingTitle) && editingContent == old(editingContent) && timers == old(timers)
            && alerts == old(alerts) && refetch == ListCall(storage))
      && (IsAuthFailure(reply) ==> ForcedOut() && refetch.None?)
      && (!reply.Success? && !IsAuthFailure(reply) ==>
            saveStatus == SaveFailedStatus && SessionKept() && screenplays == old(screenplays) && current == old(current)
            && editingTitle == old(editingTitle) && editingContent == old(editingContent) && timers == old(timers)
            && refetch.None? && alerts == old(alerts) + (if silent then [] else [SaveFailed]))
    }

    /** At most one autosave is pending. */
    lemma AtMostOneAutosave()
      requires Valid()
      ensures |timers| <= 1
    {
      if saveTimer.Some? {
        assert timers.Keys <= {saveTimer.value};
        if timers != map[] {
          assert timers.Keys == {saveTimer.value};
        }
      } else {
        assert timers.Keys == {};
      }
    }

    /** The page loads with the given local storage and nothing else. */
    constructor (initial: map<string, string>)
      ensures Valid()
      ensures storage == initial && !isLoggedIn && !isRegistering && username == "" && password == ""
      ensures userDisplayName == "" && screenplays == [] && current.None?
      ensures editingTitle == "" && editingContent == "" && saveStatus == ""
      ensures saveTimer.None? && timers == map[] && statusResets == 0 && sent == [] && alerts == []
    {
      storage := initial;
      isLoggedIn, isRegistering := false, false;
      username, password, userDisplayName := "", "", "";
      screenplays, current := [], None;
      editingTitle, editingContent, saveStatus := "", "", "";
      saveTimer, timers, nextTimer := None, map[], 1;
      statusResets, sent, alerts := 0, [], [];
      armedFor := 0;
    }

    /** `if (saveTimerRef.current) clearTimeout(saveTimerRef.current)` */
    method CancelAutosave()
      requires TimersTracked()
      modifies this`timers
      ensures timers == old(timers) - Handle() && timers == map[]
      ensures TimersTracked()
    {
      if saveTimer.Some? {
        timers := timers - {saveTimer.value};
      }
    }

    /** The autosave effect, run after every render in which the title, the
        content or the selection was assigned. The cleanup of the previous run
        cancels its timer; then, if a document is selected, the timer is
        cancelled again and a new one is armed carrying this render's buffer. */
    method RunAutosave()
      requires TimersTracked() && Listed(current, screenplays)
      modifies this`timers, this`saveTimer, this`nextTimer, this`armedFor
      ensures Valid() && Rearmed()
    {
      CancelAutosave();
      if current.Some? {
        CancelAutosave();
        var t := nextTimer;
        nextTimer := nextTimer + 1;
        timers := timers[t := Draft(editingTitle, editingContent)];
        saveTimer := Some(t);
        armedFor := current.value.id;
      }
    }

    /** `handleLogout`: forget the session in storage and in memory, empty the
        registry, the selection and the buffer, and cancel the autosave. */
    method Logout()
      requires Valid()
      modifies this`storage, this`isLoggedIn, this`username, this`password, this`userDisplayName,
               this`screenplays, this`current, this`editingTitle, this`editingContent, this`saveStatus,
               this`timers
      ensures Valid() && SignedOut()
      ensures storage == Cleared(old(storage))
    {
      ForgetSession();
      ResetEditor();
    }

    method ForgetSession()
      modifies this`storage, this`isLoggedIn, this`username, this`password, this`userDisplayName
      ensures SessionCleared() && storage == Cleared(old(storage))
    {
      storage := Cleared(storage);
      isLoggedIn := false;
      username, password, userDisplayName := "", "", "";
    }

    method ResetEditor()
      requires TimersTracked()
      modifies this`screenplays, this`current, this`editingTitle, this`editingContent, this`saveStatus, this`timers
      ensures EditorCleared() && TimersTracked()
    {
      screenplays, current := [], None;
      editingTitle, editingContent, saveStatus := "", "", "";
      CancelAutosave();
      // The effect cleanup that follows the cleared selection cancels the same handle again.
    }

    /** A 401 or 403 on any authenticated call: `handleLogout()`, then the
        session-expired alert. */
    method Expire()
      requires Valid()
      modifies this`storage, this`isLoggedIn, this`username, this`password, this`userDisplayName,
               this`screenplays, this`current, this`editingTitle, this`editingContent, this`saveStatus,
               this`timers, this`alerts
      ensures Valid() && ForcedOut()
    {
      Logout();
      alerts := alerts + [SessionExpired];
    }

    /** Make `sel` the selection and load it into the buffer (`content || ''`),
        or empty the buffer when nothing is selected; the autosave effect then
        runs for the new render. */
    method Show(sel: Option<Screenplay>)
      requires TimersTracked() && Listed(sel, screenplays)
      modifies this`current, this`editingTitle, this`editingContent,
               this`timers, this`saveTimer, this`nextTimer, this`armedFor
      ensures Valid() && Rearmed() && current == sel
      ensures editingTitle == (if sel.Some? then sel.value.title else "")
      ensures editingContent == (if sel.Some? then ContentOrEmpty(sel.value) else "")
    {
      current := sel;
      if sel.Some? {
        editingTitle, editingContent := sel.value.title, ContentOrEmpty(sel.value);
      } else {
        editingTitle, editingContent := "", "";
      }
      RunAutosave();
    }

    /** `fetchScreenplays` up to its await: a list request if a token is stored. */
    method FetchScreenplays() returns (req: Option<Request>)
      modifies this`sent
      ensures req == ListCall(storage)
      ensures sent == old(sent) + Issued(req)
    {
      req := ListCall(storage);
      sent := sent + Issued(req);
    }

    /** `fetchScreenplays` after its await. The selection it reconciles
        against is the one live when the reply arrives. */
    method OnFetchReply(reply: Reply<seq<Screenplay>>)
      requires Valid()
      modifies this`storage, this`isLoggedIn, this`username, this`password, this`userDisplayName,
               this`screenplays, this`current, this`editingTitle, this`editingContent, this`saveStatus,
               this`timers, this`saveTimer, this`nextTimer, this`armedFor, this`alerts
      ensures Valid()
      ensures reply.Success? ==>
        && screenplays == reply.data
        && current == Reconcile(reply.data, old(current))
        && editingTitle == (if current.Some? then current.value.title else "")
        && editingContent == (if current.Some? then ContentOrEmpty(current.value) else "")
        && Rearmed() && SessionKept() && saveStatus == old(saveStatus) && alerts == old(alerts)
      ensures IsAuthFailure(reply) ==> ForcedOut() && HandleKept()
      ensures !reply.Success? && !IsAuthFailure(reply) ==>
        SessionKept() && EditorKept() && HandleKept() && alerts == old(alerts) + [FetchFailed]
    {
      if reply.Success? {
        var live := current;
        screenplays := reply.data;
        Show(Reconcile(reply.data, live));
      } else if IsAuthFailure(reply) {
        Expire();
      } else {
        alerts := alerts + [FetchFailed];
      }
    }

    /** `handleSaveScreenplay` up to its await. The target is the selection
        read at call time; the title and content are the arguments when given,
        the buffer otherwise. Without a selection or a token nothing is issued
        and only a non-silent call alerts. */
    method BeginSave(silent: bool, title: Option<string>, content: Option<string>) returns (req: Option<Request>)
      requires Valid()
      modifies this`saveStatus, this`sent, this`alerts
      ensures Valid()
      ensures current.None? ==>
        req.None? && saveStatus == old(saveStatus) && alerts == old(alerts) + (if silent then [] else [NoSelectionToSave])
      ensures current.Some? && !Truthy(storage, TokenKey) ==>
        req.None? && saveStatus == old(saveStatus) && alerts == old(alerts) + (if silent then [] else [MustLogInToSave])
      ensures current.Some? && Truthy(storage, TokenKey) ==>
        && req == Some(UpdateRequest(storage[TokenKey], current.value.id, title.GetOr(editingTitle), content.GetOr(editingContent)))
        && saveStatus == Saving && alerts == old(alerts)
      ensures sent == old(sent) + Issued(req)
    {
      req := None;
      if current.None? {
        if !silent {
          alerts := alerts + [NoSelectionToSave];
        }
        return;
      }
      if !Truthy(storage, TokenKey) {
        if !silent {
          alerts := alerts + [MustLogInToSave];
        }
        return;
      }
      saveStatus := Saving;
      req := Some(UpdateRequest(AuthToken(storage), current.value.id, title.GetOr(editingTitle), content.GetOr(editingContent)));
      sent := sent + [req.value];
    }

    /** `handleSaveScreenplay` after its await. Success refreshes the list; a
        401 or 403 logs out even when the save was silent; any other failure
        alerts only when the save was not silent. */
    method OnSaveReply(silent: bool, reply: Reply<Screenplay>) returns (refetch: Option<Request>)
      requires Valid()
      modifies this`storage, this`isLoggedIn, this`username, this`password, this`userDisplayName,
               this`screenplays, this`current, this`editingTitle, this`editingContent, this`saveStatus,
               this`timers, this`statusResets, this`sent, this`alerts
      ensures Valid()
      ensures SaveHandled(silent, reply, refetch)
      ensures sent == old(sent) + Issued(refetch)
    {
      refetch := None;
      if reply.Success? {
        Settle(Saved);
        refetch := FetchScreenplays();
      } else {
        Settle(SaveFailedStatus);
        RejectSave(silent, IsAuthFailure(reply));
      }
    }

    /** A failed save: a rejected token logs out; any other failure alerts
        only when the save was not silent. */
    method RejectSave(silent: bool, expired: bool)
      requires Valid()
      modifies this`storage, this`isLoggedIn, this`username, this`password, this`userDisplayName,
               this`screenplays, this`current, this`editingTitle, this`editingContent, this`saveStatus,
               this`timers, this`alerts
      ensures Valid()
      ensures expired ==> ForcedOut()
      ensures !expired ==> SessionKept() && EditorKept() && alerts == old(alerts) + (if silent then [] else [SaveFailed])
    {
      if expired {
        Expire();
      } else if !silent {
        alerts := alerts + [SaveFailed];
      }
    }

    /** Show a save's outcome and schedule its reset. */
    method Settle(status: string)
      modifies this`saveStatus, this`statusResets
      ensures saveStatus == status && statusResets == old(statusResets) + 1
    {
      saveStatus := status;
      statusResets := statusResets + 1;
    }

    /** The title or content input's onChange: the buffer takes the new value
        and the autosave effect re-arms. */
    method EditTitle(v: string)
      requires Valid()
      modifies this`editingTitle, this`timers, this`saveTimer, this`nextTimer, this`armedFor
      ensures Valid() && editingTitle == v && Rearmed()
    {
      editingTitle := v;
      RunAutosave();
    }

    method EditContent(v: string)
      requires Valid()
      modifies this`editingContent, this`timers, this`saveTimer, this`nextTimer, this`armedFor
      ensures Valid() && editingContent == v && Rearmed()
    {
      editingContent := v;
      RunAutosave();
    }

    /** The autosave timer `t` fires. A cancelled timer does nothing; the
        pending one issues one silent save of the values it carries, to the
        selection read now, which is the one it was armed for. */
    method OnAutosaveTimer(t: TimerId) returns (req: Option<Request>)
      requires Valid()
      modifies this`timers, this`saveStatus, this`sent, this`alerts
      ensures Valid()
      ensures t !in old(timers) ==>
        req.None? && timers == old(timers) && saveStatus == old(saveStatus) && sent == old(sent) && alerts == old(alerts)
      ensures t in old(timers) ==>
        && timers == map[] && alerts == old(alerts)
        && current.Some? && current.value.id == armedFor
        && old(timers)[t] == Draft(editingTitle, editingContent)
        && req == (if Truthy(storage, TokenKey)
                   then Some(UpdateRequest(storage[TokenKey], armedFor, old(timers)[t].title, old(timers)[t].content))
                   else None)
        && (req.Some? ==> saveStatus == Saving) && (req.None? ==> saveStatus == old(saveStatus))
      ensures sent == old(sent) + Issued(req)
    {
      if t in timers {
        var draft := timers[t];
        timers := timers - {t};
        req := BeginSave(true, Some(draft.title), Some(draft.content));
      } else {
        req := None;
      }
    }

    /** `handleSelectScreenplay`: cancel the pending autosave; when a different
        document is chosen, flush the buffer silently to the old selection and
        then show the chosen document. Choosing the selected one changes
        nothing else. */
    method Select(sp: Screenplay) returns (flush: Option<Request>)
      requires Valid() && sp in screenplays
      modifies this`current, this`editingTitle, this`editingContent, this`saveStatus,
               this`timers, this`saveTimer, this`nextTimer, this`armedFor, this`sent, this`alerts
      ensures Valid()
      ensures alerts == old(alerts) && sent == old(sent) + Issued(flush)
      ensures old(current).None? ==> flush.None?
      ensures old(current).Some? && old(current).value.id != sp.id ==>
        flush == (if Truthy(storage, TokenKey)
                  then Some(UpdateRequest(storage[TokenKey], old(current).value.id, old(editingTitle), old(editingContent)))
                  else None)
      ensures old(current).None? || old(current).value.id != sp.id ==>
        && current == Some(sp) && editingTitle == sp.title && editingContent == ContentOrEmpty(sp)
        && saveStatus == "" && Armed(old(nextTimer))
      ensures old(current).Some? && old(current).value.id == sp.id ==>
        && flush.None? && current == old(current) && editingTitle == old(editingTitle)
        && editingContent == old(editingContent) && saveStatus == old(saveStatus)
        && timers == map[] && HandleKept()
    {
      CancelAutosave();
      flush := None;
      if current.Some? && current.value.id != sp.id {
        flush := BeginSave(true, Some(editingTitle), Some(editingContent));
      }
      if current.None? || current.value.id != sp.id {
        saveStatus := "";
        Show(Some(sp));
      }
    }

    /** `handleNewScreenplay` up to its first await. Without a token nothing is
        issued. With a selection only the silent flush is issued: the create
        waits for its reply (see OnCreateFlushReply). Otherwise the create
        itself is issued. `token` is the token read here, which the create
        carries even when it is posted later. */
    method BeginCreate() returns (req: Option<Request>, token: Option<string>)
      requires Valid()
      modifies this`saveStatus, this`sent, this`alerts
      ensures Valid()
      ensures !Truthy(storage, TokenKey) ==>
        req.None? && saveStatus == old(saveStatus) && alerts == old(alerts) + [MustLogInToCreate]
      ensures Truthy(storage, TokenKey) && current.Some? ==>
        && req == Some(UpdateRequest(storage[TokenKey], current.value.id, editingTitle, editingContent))
        && saveStatus == Saving && alerts == old(alerts)
      ensures Truthy(storage, TokenKey) && current.None? ==>
        req == Some(CreateRequest(storage[TokenKey], NewTitle, NewContent)) && saveStatus == old(saveStatus) && alerts == old(alerts)
      ensures sent == old(sent) + Issued(req)
      ensures token == (if Truthy(storage, TokenKey) then Some(storage[TokenKey]) else None)
    {
      if !Truthy(storage, TokenKey) {
        alerts := alerts + [MustLogInToCreate];
        return None, None;
      }
      token := Some(AuthToken(storage));
      if current.Some? {
        req := BeginSave(true, Some(editingTitle), Some(editingContent));
      } else {
        req := Some(CreateRequest(token.value, NewTitle, NewContent));
        sent := sent + [req.value];
      }
    }

    /** `handleNewScreenplay` once its flush has settled: the save reply is
        handled as any silent save's, then the create is issued with the token
        BeginCreate returned, even if the flush logged out. */
    method OnCreateFlushReply(token: string, reply: Reply<Screenplay>) returns (refetch: Option<Request>, post: Request)
      requires Valid()
      modifies this`storage, this`isLoggedIn, this`username, this`password, this`userDisplayName,
               this`screenplays, this`current, this`editingTitle, this`editingContent, this`saveStatus,
               this`timers, this`statusResets, this`sent, this`alerts
      ensures Valid()
      ensures SaveHandled(true, reply, refetch)
      ensures post == CreateRequest(token, NewTitle, NewContent)
      ensures sent == old(sent) + Issued(refetch) + [post]
    {
      refetch := OnSaveReply(true, reply);
      post := CreateRequest(token, NewTitle, NewContent);
      sent := sent + [post];
    }

    /** `handleNewScreenplay` after the create's await: the new document goes
        to the front of the list, replacing any entry with its id, and becomes
        the selection and the buffer. */
    method OnCreateReply(reply: Reply<Screenplay>)
      requires Valid()
      modifies this`storage, this`isLoggedIn, this`username, this`password, this`userDisplayName,
               this`screenplays, this`current, this`editingTitle, this`editingContent, this`saveStatus,
               this`timers, this`saveTimer, this`nextTimer, this`armedFor, this`statusResets, this`alerts
      ensures Valid()
      ensures reply.Success? ==>
        && screenplays == Prepend(old(screenplays), reply.data)
        && current == Some(reply.data) && editingTitle == reply.data.title
        && editingContent == ContentOrEmpty(reply.data)
        && saveStatus == Created && statusResets == old(statusResets) + 1
        && Armed(old(nextTimer)) && SessionKept() && alerts == old(alerts)
      ensures IsAuthFailure(reply) ==> ForcedOut() && HandleKept() && statusResets == old(statusResets)
      ensures !reply.Success? && !IsAuthFailure(reply) ==>
        && SessionKept() && EditorKept() && HandleKept() && statusResets == old(statusResets)
        && alerts == old(alerts) + [CreateFailed]
    {
      if reply.Success? {
        AdoptCreated(reply.data);
      } else if IsAuthFailure(reply) {
        Expire();
      } else {
        alerts := alerts + [CreateFailed];
      }
    }

    /** The successful create: prepend, announce and select the new document. */
    method AdoptCreated(sp: Screenplay)
      requires Valid()
      modifies this`screenplays, this`current, this`editingTitle, this`editingContent, this`saveStatus,
               this`timers, this`saveTimer, this`nextTimer, this`armedFor, this`statusResets
      ensures Valid()
      ensures screenplays == Prepend(old(screenplays), sp)
      ensures current == Some(sp) && editingTitle == sp.title && editingContent == ContentOrEmpty(sp)
      ensures saveStatus == Created && statusResets == old(statusResets) + 1 && Armed(old(nextTimer))
    {
      screenplays := Prepend(screenplays, sp);
      saveStatus := Created;
      statusResets := statusResets + 1;
      Show(Some(sp));
    }

    /** `handleDeleteScreenplay` up to its await. A declined confirmation does
        nothing at all. The pending autosave is left alone. */
    method BeginDelete(id: int, confirmed: bool) returns (req: Option<Request>)
      modifies this`sent, this`alerts
      ensures !confirmed ==> req.None? && alerts == old(alerts)
      ensures confirmed && !Truthy(storage, TokenKey) ==> req.None? && alerts == old(alerts) + [MustLogInToDelete]
      ensures confirmed && Truthy(storage, TokenKey) ==>
        req == Some(DeleteRequest(storage[TokenKey], id)) && alerts == old(alerts)
      ensures sent == old(sent) + Issued(req)
    {
      req := None;
      if !confirmed {
        return;
      }
      if !Truthy(storage, TokenKey) {
        alerts := alerts + [MustLogInToDelete];
        return;
      }
      req := Some(DeleteRequest(AuthToken(storage), id));
      sent := sent + [req.value];
    }

    /** `handleDeleteScreenplay` after its await. Success never edits the list
        locally; it only fetches it again. */
    method OnDeleteReply(reply: Reply<()>) returns (refetch: Option<Request>)
      requires Valid()
      modifies this`storage, this`isLoggedIn, this`username, this`password, this`userDisplayName,
               this`screenplays, this`current, this`editingTitle, this`editingContent, this`saveStatus,
               this`timers, this`sent, this`alerts
      ensures Valid()
      ensures reply.Success? ==>
        SessionKept() && EditorKept() && alerts == old(alerts) + [Deleted] && refetch == ListCall(storage)
      ensures IsAuthFailure(reply) ==> ForcedOut() && refetch.None?
      ensures !reply.Success? && !IsAuthFailure(reply) ==>
        SessionKept() && EditorKept() && alerts == old(alerts) + [DeleteFailed] && refetch.None?
      ensures sent == old(sent) + Issued(refetch)
    {
      refetch := None;
      if reply.Success? {
        alerts := alerts + [Deleted];
        refetch := FetchScreenplays();
      } else if IsAuthFailure(reply) {
        Expire();
      } else {
        alerts := alerts + [DeleteFailed];
      }
    }

    /** `handlePDFSave` up to its await. */
    method BeginPdf() returns (req: Option<Request>)
      modifies this`sent, this`alerts
      ensures current.None? ==> req.None? && alerts == old(alerts) + [NoSelectionForPdf]
      ensures current.Some? && !Truthy(storage, TokenKey) ==> req.None? && alerts == old(alerts) + [MustLogInForPdf]
      ensures current.Some? && Truthy(storage, TokenKey) ==>
        req == Some(PdfRequest(storage[TokenKey], current.value.id)) && alerts == old(alerts)
      ensures sent == old(sent) + Issued(req)
    {
      req := None;
      if current.None? {
        alerts := alerts + [NoSelectionForPdf];
        return;
      }
      if !Truthy(storage, TokenKey) {
        alerts := alerts + [MustLogInForPdf];
        return;
      }
      req := Some(PdfRequest(AuthToken(storage), current.value.id));
      sent := sent + [req.value];
    }

    /** `handlePDFSave` after its await: the download is named after the
        title in the buffer when the reply arrives. */
    method OnPdfReply(reply: Reply<()>) returns (download: Option<string>)
      requires Valid()
      modifies this`storage, this`isLoggedIn, this`username, this`password, this`userDisplayName,
               this`screenplays, this`current, this`editingTitle, this`editingContent, this`saveStatus,
               this`timers, this`alerts
      ensures Valid()
      ensures reply.Success? ==>
        SessionKept() && EditorKept() && download == Some(PdfFileName(editingTitle)) && alerts == old(alerts) + [PdfStarted]
      ensures IsAuthFailure(reply) ==> ForcedOut() && download.None?
      ensures !reply.Success? && !IsAuthFailure(reply) ==>
        SessionKept() && EditorKept() && download.None? && alerts == old(alerts) + [PdfFailed]
    {
      download := None;
      if reply.Success? {
        download := Some(PdfFileName(editingTitle));
        alerts := alerts + [PdfStarted];
      } else if IsAuthFailure(reply) {
        Expire();
      } else {
        alerts := alerts + [PdfFailed];
      }
    }

    /** The login form's inputs. */
    method EditUsername(v: string)
      modifies this`username
      ensures username == v
    {
      username := v;
    }

    method EditPassword(v: string)
      modifies this`password
      ensures password == v
    {
      password := v;
    }

    /** `handleAuth` up to its await: the form's values are sent. */
    method BeginAuth(register: bool) returns (req: Request)
      modifies this`sent
      ensures req == AuthRequest(register, username, password) && sent == old(sent) + [req]
    {
      req := AuthRequest(register, username, password);
      sent := sent + [req];
    }

    /** `handleAuth` after its await. A 200 or 201 stores the token and the
        name, logs in, clears the form and fetches; any failure leaves the
        session as it was. */
    method OnAuthReply(reply: Reply<Credentials>) returns (fetch: Option<Request>)
      modifies this`storage, this`isLoggedIn, this`userDisplayName, this`username, this`password,
               this`isRegistering, this`sent, this`alerts
      ensures reply.Success? && reply.status in {200, 201} ==>
        && storage == Stored(old(storage), reply.data.token, reply.data.username)
        && isLoggedIn && userDisplayName == reply.data.username
        && username == "" && password == "" && !isRegistering
        && fetch == (if reply.data.token != "" then Some(ListRequest(reply.data.token)) else None)
      ensures !(reply.Success? && reply.status in {200, 201}) ==>
        SessionKept() && isRegistering == old(isRegistering) && fetch.None?
      ensures alerts == old(alerts) + [if reply.Success? then ServerMessage(reply.data.message) else AuthFailed]
      ensures sent == old(sent) + Issued(fetch)
    {
      fetch := None;
      match reply
      case Success(status, cred) =>
        if status == 200 || status == 201 {
          SignIn(cred);
          fetch := FetchScreenplays();
        }
        alerts := alerts + [ServerMessage(cred.message)];
      case _ =>
        alerts := alerts + [AuthFailed];
    }

    /** A login or registration accepted: store the token and the name, show
        the user as logged in and clear the form. */
    method SignIn(cred: Credentials)
      modifies this`storage, this`isLoggedIn, this`userDisplayName, this`username, this`password,
               this`isRegistering
      ensures storage == Stored(old(storage), cred.token, cred.username)
      ensures isLoggedIn && userDisplayName == cred.username && username == "" && password == "" && !isRegistering
    {
      storage := Stored(storage, cred.token, cred.username);
      isLoggedIn := true;
      userDisplayName := cred.username;
      username, password := "", "";
      isRegistering := false;
    }

    /** The mount effect that restores a stored session without asking the
        server, and fetches when it does. */
    method Restore() returns (fetch: Option<Request>)
      modifies this`isLoggedIn, this`userDisplayName, this`sent
      ensures RestoredUser(storage) != "" ==>
        isLoggedIn && userDisplayName == RestoredUser(storage) && fetch == Some(ListRequest(storage[TokenKey]))
      ensures RestoredUser(storage) == "" ==>
        isLoggedIn == old(isLoggedIn) && userDisplayName == old(userDisplayName) && fetch.None?
      ensures sent == old(sent) + Issued(fetch)
    {
      fetch := None;
      var user := RestoredUser(storage);
      if user != "" {
        isLoggedIn := true;
        userDisplayName := user;
        fetch := FetchScreenplays();
      }
    }

    /** One of the status-reset timers fires and clears the status line. */
    method OnStatusTimer()
      modifies this`saveStatus, this`statusResets
      ensures old(statusResets) > 0 ==> statusResets == old(statusResets) - 1 && saveStatus == ""
      ensures old(statusResets) == 0 ==> statusResets == 0 && saveStatus == old(saveStatus)
    {
      if statusResets > 0 {
        statusResets := statusResets - 1;
        saveStatus := "";
      }
    }
  }
}
