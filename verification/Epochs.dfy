// The browser store against a server that answers in any order: session and
// matter epochs, the scopes that operations capture, and what a late answer may
// still do. A dispatched action is taken to be applied at once.

module Epochs {
  import opened Basics

  // ---- The visible state and its reducer ----

  datatype Boot = BootLoading | Unauthenticated | BootReady | BootFailed

  // The matter on screen; `fromServer` is false for the built-in placeholder.
  datatype Shown = Shown(caseId: Option<Id>, fromServer: bool, content: seq<nat>)

  const EMPTY_MATTER := Shown(None, false, [])

  datatype App = App(sessionReviewer: Option<Id>, boot: Boot, cases: seq<Id>, shown: Shown)

  datatype Payload = Payload(caseId: Id, content: seq<nat>)

  datatype Action =
    | CaseLoaded(payload: Payload) | CaseRefreshed(payload: Payload) | MatterChanged(change: nat)
    | CasesLoaded(cases: seq<Id>) | EmptyWorkspace | BootStarted | BootError
    | SessionEstablished(reviewer: Id, mustChange: bool) | SessionRevalidated(reviewer: Id, mustChange: bool)
    | SessionCleared | SessionDetail

  predicate MatterAction(a: Action)
  {
    a.CaseLoaded? || a.CaseRefreshed? || a.MatterChanged? || a.CasesLoaded? || a.EmptyWorkspace?
  }

  // No matter data enters a store nobody is signed in to.
  function Reduce(app: App, a: Action): App
  {
    if app.sessionReviewer.None? && MatterAction(a) then app
    else match a
      case CaseLoaded(p) => app.(boot := BootReady, shown := Shown(Some(p.caseId), true, p.content))
      case CaseRefreshed(p) => app.(boot := BootReady, shown := Shown(Some(p.caseId), true, p.content))
      case MatterChanged(change) => app.(shown := app.shown.(content := app.shown.content + [change], fromServer := true))
      case CasesLoaded(cases) => app.(cases := cases)
      case EmptyWorkspace => app.(boot := BootReady, shown := EMPTY_MATTER)
      case BootStarted => app.(boot := BootLoading)
      case BootError => app.(boot := BootFailed)
      case SessionEstablished(reviewer, mustChange) =>
        app.(sessionReviewer := Some(reviewer), boot := if mustChange then BootReady else app.boot)
      case SessionRevalidated(reviewer, mustChange) =>
        app.(sessionReviewer := Some(reviewer), boot := if mustChange then BootReady else app.boot)
      case SessionCleared => App(None, Unauthenticated, [], EMPTY_MATTER)
      case SessionDetail => app
  }

  // ---- Scopes ----

  // The matter reference: none, the empty workspace, or a matter.
  datatype Current = NoMatter | NoMatters | Matter(id: Id)

  datatype SessionScope = SessionScope(sessionEpoch: nat, reviewer: Id)

  datatype CaseScope = CaseScope(session: SessionScope, caseEpoch: nat, caseId: Id)

  // What an operation resumes with when its answer arrives.
  datatype Pending =
    | AwaitBoot(attempt: nat)
    | AwaitLogin(attempt: nat)
    | AwaitCases(scope: SessionScope, created: Option<Id>)
    | AwaitCase(load: CaseScope)
    | AwaitWrite(write: CaseScope, refreshes: bool)
    | AwaitRefresh(refresh: CaseScope)
    | AwaitCreate(scope: SessionScope)
    | AwaitPassword(scope: SessionScope, forced: bool)
    | AwaitRevalidation(scope: SessionScope)
    | AwaitDetail(scope: SessionScope)
    | AwaitExpiry(scope: SessionScope)
    | AwaitLogout

  datatype Reply =
    | SessionReply(reviewer: Id, mustChange: bool, expired: bool) | CasesReply(cases: seq<Id>) | CaseReply(payload: Payload)
    | CreatedReply(caseId: Id) | ChangeReply(change: nat) | DoneReply | Unauthorized | Conflict409 | OtherFailure

  datatype Store = Store(attempt: nat, logoutInFlight: bool, sessionEpoch: nat, reviewer: Option<Id>,
                         caseEpoch: nat, current: Current, app: App, pending: map<nat, Pending>)

  const START := Store(0, false, 0, None, 0, NoMatter, App(None, BootLoading, [], Shown(None, false, [])), map[])

  datatype Event =
    | Boot(op: nat) | Login(op: nat) | Switch(op: nat, caseId: Id) | Create(op: nat) | Logout(op: nat)
    | Write(op: nat, refreshes: bool) | Detail(op: nat) | Revalidate(op: nat) | ChangePassword(op: nat, forced: bool)
    | WatchExpiry(op: nat)
    | Deliver(answered: nat, next: nat, reply: Reply)

  predicate SessionCurrent(s: Store, scope: SessionScope)
  {
    s.sessionEpoch == scope.sessionEpoch && s.reviewer == Some(scope.reviewer)
  }

  predicate CaseCurrent(s: Store, scope: CaseScope)
  {
    SessionCurrent(s, scope.session) && s.caseEpoch == scope.caseEpoch && s.current == Matter(scope.caseId)
  }

  function SessionScopeOf(s: Store): Option<SessionScope>
  {
    if s.reviewer.None? then None else Some(SessionScope(s.sessionEpoch, s.reviewer.value))
  }

  function CaseScopeOf(s: Store, caseId: Option<Id>): Option<CaseScope>
  {
    if s.reviewer.None? || caseId.None? || s.current != Matter(caseId.value) then None
    else Some(CaseScope(SessionScope(s.sessionEpoch, s.reviewer.value), s.caseEpoch, caseId.value))
  }

  // ---- The building blocks ----

  function Dispatched(s: Store, a: Action): Store { s.(app := Reduce(s.app, a)) }

  function SessionBegun(s: Store, reviewer: Id): Store
  {
    s.(sessionEpoch := s.sessionEpoch + 1, reviewer := Some(reviewer), caseEpoch := s.caseEpoch + 1, current := NoMatter)
  }

  function SessionEnded(s: Store): Store
  {
    Dispatched(s.(attempt := s.attempt + 1, sessionEpoch := s.sessionEpoch + 1, reviewer := None,
                  caseEpoch := s.caseEpoch + 1, current := NoMatter), SessionCleared)
  }

  function Waiting(s: Store, op: nat, p: Pending): Store { s.(pending := s.pending[op := p]) }

  function CaseRequested(s: Store, current: Current): Store { s.(caseEpoch := s.caseEpoch + 1, current := current) }

  function LoadStarted(s: Store, op: nat, caseId: Id, scope: SessionScope): Store
  {
    if !SessionCurrent(s, scope) then s
    else Waiting(CaseRequested(s, Matter(caseId)), op, AwaitCase(CaseScope(scope, s.caseEpoch + 1, caseId)))
  }

  function FirstLoadStarted(s: Store, op: nat, cases: seq<Id>, scope: SessionScope): Store
  {
    if cases != [] then LoadStarted(s, op, cases[0], scope)
    else if !SessionCurrent(s, scope) then s
    else Dispatched(CaseRequested(s, NoMatters), EmptyWorkspace)
  }

  // ---- Starting operations ----

  function Started(s: Store, e: Event): Store
  {
    match e
    case Boot(op) => Waiting(Dispatched(s.(attempt := s.attempt + 1), BootStarted), op, AwaitBoot(s.attempt + 1))
    case Login(op) =>
      if s.logoutInFlight then s else Waiting(s.(attempt := s.attempt + 1), op, AwaitLogin(s.attempt + 1))
    case Switch(op, caseId) =>
      (match SessionScopeOf(s)
       case None => s
       case Some(scope) => LoadStarted(Dispatched(s, BootStarted), op, caseId, scope))
    case Create(op) => (match SessionScopeOf(s) case None => s case Some(scope) => Waiting(s, op, AwaitCreate(scope)))
    case Logout(op) =>
      if s.logoutInFlight then s
      else Waiting(Dispatched(SessionEnded(s.(logoutInFlight := true)), BootStarted), op, AwaitLogout)
    case Write(op, refreshes) =>
      (match CaseScopeOf(s, s.app.shown.caseId) case None => s case Some(scope) => Waiting(s, op, AwaitWrite(scope, refreshes)))
    case Detail(op) => (match SessionScopeOf(s) case None => s case Some(scope) => Waiting(s, op, AwaitDetail(scope)))
    case Revalidate(op) => (match SessionScopeOf(s) case None => s case Some(scope) => Waiting(s, op, AwaitRevalidation(scope)))
    case ChangePassword(op, forced) =>
      (match SessionScopeOf(s) case None => s case Some(scope) => Waiting(s, op, AwaitPassword(scope, forced)))
    case WatchExpiry(op) => (match SessionScopeOf(s) case None => s case Some(scope) => Waiting(s, op, AwaitExpiry(scope)))
    case Deliver(_, _, _) => s
  }

  // ---- Resuming operations ----

  function OnSession(s: Store, next: nat, attempt: nat, reply: Reply, booting: bool): Store
  {
    if s.attempt != attempt then s
    else if reply.SessionReply? then
      if reply.expired then SessionEnded(s)
      else
        var begun := Dispatched(SessionBegun(s, reply.reviewer), SessionEstablished(reply.reviewer, reply.mustChange));
        if reply.mustChange then begun
        else
          var loading := if booting then begun else Dispatched(begun, BootStarted);
          Waiting(loading, next, AwaitCases(SessionScope(loading.sessionEpoch, reply.reviewer), None))
    else if !booting then s
    else if reply == Unauthorized then SessionEnded(s)
    else Dispatched(s, BootError)
  }

  function OnCases(s: Store, next: nat, scope: SessionScope, created: Option<Id>, reply: Reply): Store
  {
    if !SessionCurrent(s, scope) then s
    else if reply.CasesReply? then
      var listed := Dispatched(s, CasesLoaded(reply.cases));
      if created.Some? then LoadStarted(Dispatched(listed, BootStarted), next, created.value, scope)
      else FirstLoadStarted(listed, next, reply.cases, scope)
    else if created.Some? then s
    else if reply == Unauthorized then SessionEnded(s)
    else Dispatched(s, BootError)
  }

  function OnCase(s: Store, scope: CaseScope, reply: Reply): Store
  {
    if !CaseCurrent(s, scope) then s
    else if reply.CaseReply? then
      if reply.payload.caseId != scope.caseId then s
      else Dispatched(s.(current := Matter(reply.payload.caseId)), CaseLoaded(reply.payload))
    else if reply == Unauthorized then SessionEnded(s)
    else Dispatched(s, BootError)
  }

  // A failure counts only while it still belongs to the active operation.
  function OnFailure(s: Store, current: bool, reply: Reply): Store
  {
    if current && reply == Unauthorized then SessionEnded(s) else s
  }

  function OnWrite(s: Store, next: nat, scope: CaseScope, refreshes: bool, reply: Reply): Store
  {
    if !CaseCurrent(s, scope) then s
    else if reply.ChangeReply? then Dispatched(s, MatterChanged(reply.change))
    else if refreshes && reply == Conflict409 then Waiting(s, next, AwaitRefresh(scope))
    else OnFailure(s, true, reply)
  }

  function OnRefresh(s: Store, scope: CaseScope, reply: Reply): Store
  {
    if !CaseCurrent(s, scope) then s
    else if reply.CaseReply? then
      if reply.payload.caseId != scope.caseId then s else Dispatched(s, CaseRefreshed(reply.payload))
    else OnFailure(s, true, reply)
  }

  function OnCreate(s: Store, next: nat, scope: SessionScope, reply: Reply): Store
  {
    if !SessionCurrent(s, scope) then s
    else if reply.CreatedReply? then Waiting(s, next, AwaitCases(scope, Some(reply.caseId)))
    else s
  }

  function OnPassword(s: Store, next: nat, scope: SessionScope, forced: bool, reply: Reply): Store
  {
    if !SessionCurrent(s, scope) then s
    else if reply == DoneReply then
      var changed := Dispatched(s, SessionDetail);
      if forced then Waiting(Dispatched(changed, BootStarted), next, AwaitCases(scope, None)) else changed
    else OnFailure(s, true, reply)
  }

  function OnRevalidation(s: Store, scope: SessionScope, reply: Reply): Store
  {
    if !SessionCurrent(s, scope) then s
    else if reply.SessionReply? then
      if reply.expired || reply.reviewer != scope.reviewer then SessionEnded(s)
      else Dispatched(s, SessionRevalidated(reply.reviewer, reply.mustChange))
    else OnFailure(s, true, reply)
  }

  function OnLogout(s: Store): Store
  {
    var done := s.(logoutInFlight := false);
    if done.reviewer.None? then Dispatched(done, SessionCleared) else done
  }

  function Resumed(s: Store, p: Pending, next: nat, reply: Reply): Store
  {
    match p
    case AwaitBoot(attempt) => OnSession(s, next, attempt, reply, true)
    case AwaitLogin(attempt) => OnSession(s, next, attempt, reply, false)
    case AwaitCases(scope, created) => OnCases(s, next, scope, created, reply)
    case AwaitCase(scope) => OnCase(s, scope, reply)
    case AwaitWrite(scope, refreshes) => OnWrite(s, next, scope, refreshes, reply)
    case AwaitRefresh(scope) => OnRefresh(s, scope, reply)
    case AwaitCreate(scope) => OnCreate(s, next, scope, reply)
    case AwaitPassword(scope, forced) => OnPassword(s, next, scope, forced, reply)
    case AwaitRevalidation(scope) => OnRevalidation(s, scope, reply)
    case AwaitDetail(scope) => OnFailure(s, SessionCurrent(s, scope), reply)
    case AwaitExpiry(scope) => if SessionCurrent(s, scope) then SessionEnded(s) else s
    case AwaitLogout => OnLogout(s)
  }

  function OpOf(e: Event): nat { if e.Deliver? then e.next else e.op }

  predicate Enabled(s: Store, e: Event)
  {
    OpOf(e) !in s.pending && (e.Deliver? ==> e.answered in s.pending)
  }

  function Turn(s: Store, e: Event): Store
    requires Enabled(s, e)
  {
    if e.Deliver? then Resumed(s.(pending := s.pending - {e.answered}), s.pending[e.answered], e.next, e.reply)
    else Started(s, e)
  }

  // ---- The provider, which mutates its references between awaits ----

  class StoreProvider {
    var attempt: nat
    var logoutInFlight: bool
    var sessionEpoch: nat
    var reviewer: Option<Id>
    var caseEpoch: nat
    var current: Current
    var app: App
    var pending: map<nat, Pending>

    ghost function View(): Store
      reads this
    {
      Store(attempt, logoutInFlight, sessionEpoch, reviewer, caseEpoch, current, app, pending)
    }

    constructor ()
      ensures View() == START
    {
      attempt, logoutInFlight, sessionEpoch, reviewer := 0, false, 0, None;
      caseEpoch, current, app, pending := 0, NoMatter, START.app, map[];
    }

    method Dispatch(a: Action)
      modifies this`app
      ensures View() == Dispatched(old(View()), a)
    {
      app := Reduce(app, a);
    }

    method Await(op: nat, p: Pending)
      modifies this`pending
      ensures View() == Waiting(old(View()), op, p)
    {
      pending := pending[op := p];
    }

    method BeginSession(id: Id) returns (scope: SessionScope)
      modifies this
      ensures View() == SessionBegun(old(View()), id) && scope == SessionScope(sessionEpoch, id)
    {
      sessionEpoch := sessionEpoch + 1;
      reviewer := Some(id);
      caseEpoch := caseEpoch + 1;
      current := NoMatter;
      scope := SessionScope(sessionEpoch, id);
    }

    method ClearServerSession()
      modifies this
      ensures View() == SessionEnded(old(View()))
    {
      attempt := attempt + 1;
      sessionEpoch := sessionEpoch + 1;
      reviewer := None;
      caseEpoch := caseEpoch + 1;
      current := NoMatter;
      Dispatch(SessionCleared);
    }

    method CaptureSessionScope() returns (scope: Option<SessionScope>)
      ensures scope == SessionScopeOf(View())
    {
      scope := if reviewer.None? then None else Some(SessionScope(sessionEpoch, reviewer.value));
    }

    method CaptureCaseScope(caseId: Option<Id>) returns (scope: Option<CaseScope>)
      ensures scope == CaseScopeOf(View(), caseId)
    {
      var session := CaptureSessionScope();
      if session.None? || caseId.None? || current != Matter(caseId.value) {
        return None;
      }
      scope := Some(CaseScope(session.value, caseEpoch, caseId.value));
    }

    method IsSessionScopeCurrent(scope: SessionScope) returns (yes: bool)
      ensures yes == SessionCurrent(View(), scope)
    {
      yes := sessionEpoch == scope.sessionEpoch && reviewer == Some(scope.reviewer);
    }

    method IsCaseScopeCurrent(scope: CaseScope) returns (yes: bool)
      ensures yes == CaseCurrent(View(), scope)
    {
      yes := IsSessionScopeCurrent(scope.session);
      yes := yes && caseEpoch == scope.caseEpoch && current == Matter(scope.caseId);
    }

    // None when the session has moved on since the scope was captured.
    method BeginCaseRequest(target: Current, scope: SessionScope) returns (begun: bool)
      modifies this
      ensures begun == SessionCurrent(old(View()), scope)
      ensures View() == if begun then CaseRequested(old(View()), target) else old(View())
    {
      begun := IsSessionScopeCurrent(scope);
      if begun {
        caseEpoch := caseEpoch + 1;
        current := target;
      }
    }

    method LoadCase(op: nat, caseId: Id, scope: SessionScope)
      modifies this
      ensures View() == LoadStarted(old(View()), op, caseId, scope)
    {
      var begun := BeginCaseRequest(Matter(caseId), scope);
      if begun {
        Await(op, AwaitCase(CaseScope(scope, caseEpoch, caseId)));
      }
    }

    method LoadFirstCase(op: nat, cases: seq<Id>, scope: SessionScope)
      modifies this
      ensures View() == FirstLoadStarted(old(View()), op, cases, scope)
    {
      if cases != [] {
        LoadCase(op, cases[0], scope);
        return;
      }
      var begun := BeginCaseRequest(NoMatters, scope);
      if begun {
        Dispatch(EmptyWorkspace);
      }
    }

    method Start(e: Event)
      requires !e.Deliver?
      modifies this
      ensures View() == Started(old(View()), e)
    {
      match e {
        case Boot(op) =>
          attempt := attempt + 1;
          Dispatch(BootStarted);
          Await(op, AwaitBoot(attempt));
        case Login(op) =>
          if !logoutInFlight {
            attempt := attempt + 1;
            Await(op, AwaitLogin(attempt));
          }
        case Switch(op, caseId) =>
          var scope := CaptureSessionScope();
          if scope.Some? {
            Dispatch(BootStarted);
            LoadCase(op, caseId, scope.value);
          }
        case Create(op) => AwaitWithin(op, scope => AwaitCreate(scope));
        case Logout(op) =>
          if !logoutInFlight {
            logoutInFlight := true;
            ClearServerSession();
            Dispatch(BootStarted);
            Await(op, AwaitLogout);
          }
        case Write(op, refreshes) =>
          var scope := CaptureCaseScope(app.shown.caseId);
          if scope.Some? {
            Await(op, AwaitWrite(scope.value, refreshes));
          }
        case Detail(op) => AwaitWithin(op, scope => AwaitDetail(scope));
        case Revalidate(op) => AwaitWithin(op, scope => AwaitRevalidation(scope));
        case ChangePassword(op, forced) => AwaitWithin(op, scope => AwaitPassword(scope, forced));
        case WatchExpiry(op) => AwaitWithin(op, scope => AwaitExpiry(scope));
      }
    }

    method AwaitWithin(op: nat, p: SessionScope -> Pending)
      modifies this
      ensures View() == match SessionScopeOf(old(View())) case None => old(View()) case Some(scope) => Waiting(old(View()), op, p(scope))
    {
      var scope := CaptureSessionScope();
      if scope.Some? {
        Await(op, p(scope.value));
      }
    }

    method ResumeSession(next: nat, mine: nat, reply: Reply, booting: bool)
      modifies this
      ensures View() == OnSession(old(View()), next, mine, reply, booting)
    {
      if attempt != mine {
        return;
      }
      if reply.SessionReply? {
        if reply.expired {
          ClearServerSession();
          return;
        }
        var scope := BeginSession(reply.reviewer);
        Dispatch(SessionEstablished(reply.reviewer, reply.mustChange));
        if reply.mustChange {
          return;
        }
        if !booting {
          Dispatch(BootStarted);
        }
        Await(next, AwaitCases(scope, None));
      } else if booting {
        if reply == Unauthorized {
          ClearServerSession();
        } else {
          Dispatch(BootError);
        }
      }
    }

    method ResumeCases(next: nat, scope: SessionScope, created: Option<Id>, reply: Reply)
      modifies this
      ensures View() == OnCases(old(View()), next, scope, created, reply)
    {
      var live := IsSessionScopeCurrent(scope);
      if !live {
        return;
      }
      if reply.CasesReply? {
        Dispatch(CasesLoaded(reply.cases));
        if created.Some? {
          Dispatch(BootStarted);
          LoadCase(next, created.value, scope);
        } else {
          LoadFirstCase(next, reply.cases, scope);
        }
      } else if created.None? {
        if reply == Unauthorized {
          ClearServerSession();
        } else {
          Dispatch(BootError);
        }
      }
    }

    method ResumeCase(scope: CaseScope, reply: Reply)
      modifies this
      ensures View() == OnCase(old(View()), scope, reply)
    {
      var live := IsCaseScopeCurrent(scope);
      if !live {
        return;
      }
      if reply.CaseReply? {
        if reply.payload.caseId == scope.caseId {
          current := Matter(reply.payload.caseId);
          Dispatch(CaseLoaded(reply.payload));
        }
      } else if reply == Unauthorized {
        ClearServerSession();
      } else {
        Dispatch(BootError);
      }
    }

    method ResumeWrite(next: nat, scope: CaseScope, refreshes: bool, reply: Reply)
      modifies this
      ensures View() == OnWrite(old(View()), next, scope, refreshes, reply)
    {
      var live := IsCaseScopeCurrent(scope);
      if !live {
        return;
      }
      if reply.ChangeReply? {
        Dispatch(MatterChanged(reply.change));
      } else if refreshes && reply == Conflict409 {
        Await(next, AwaitRefresh(scope));
      } else if reply == Unauthorized {
        ClearServerSession();
      }
    }

    method ResumeRefresh(scope: CaseScope, reply: Reply)
      modifies this
      ensures View() == OnRefresh(old(View()), scope, reply)
    {
      var live := IsCaseScopeCurrent(scope);
      if !live {
        return;
      }
      if reply.CaseReply? {
        if reply.payload.caseId == scope.caseId {
          Dispatch(CaseRefreshed(reply.payload));
        }
      } else if reply == Unauthorized {
        ClearServerSession();
      }
    }

    method ResumeInSession(p: Pending, next: nat, reply: Reply)
      requires p.AwaitCreate? || p.AwaitPassword? || p.AwaitRevalidation? || p.AwaitDetail? || p.AwaitExpiry?
      modifies this
      ensures View() == Resumed(old(View()), p, next, reply)
    {
      var live := IsSessionScopeCurrent(p.scope);
      if !live {
        return;
      }
      match p {
        case AwaitCreate(scope) =>
          if reply.CreatedReply? {
            Await(next, AwaitCases(scope, Some(reply.caseId)));
          }
        case AwaitPassword(scope, forced) =>
          if reply == DoneReply {
            Dispatch(SessionDetail);
            if forced {
              Dispatch(BootStarted);
              Await(next, AwaitCases(scope, None));
            }
          } else if reply == Unauthorized {
            ClearServerSession();
          }
        case AwaitRevalidation(scope) =>
          if reply.SessionReply? && !reply.expired && reply.reviewer == scope.reviewer {
            Dispatch(SessionRevalidated(reply.reviewer, reply.mustChange));
          } else if reply.SessionReply? || reply == Unauthorized {
            ClearServerSession();
          }
        case AwaitDetail(_) =>
          if reply == Unauthorized {
            ClearServerSession();
          }
        case AwaitExpiry(_) => ClearServerSession();
      }
    }

    method ResumeLogout()
      modifies this
      ensures View() == OnLogout(old(View()))
    {
      logoutInFlight := false;
      if reviewer.None? {
        Dispatch(SessionCleared);
      }
    }

    // One turn of the event loop.
    method Handle(e: Event)
      requires Enabled(View(), e)
      modifies this
      ensures View() == Turn(old(View()), e)
    {
      if !e.Deliver? {
        Start(e);
        return;
      }
      var p := pending[e.answered];
      pending := pending - {e.answered};
      match p {
        case AwaitBoot(mine) => ResumeSession(e.next, mine, e.reply, true);
        case AwaitLogin(mine) => ResumeSession(e.next, mine, e.reply, false);
        case AwaitCases(scope, created) => ResumeCases(e.next, scope, created, e.reply);
        case AwaitCase(scope) => ResumeCase(scope, e.reply);
        case AwaitWrite(scope, refreshes) => ResumeWrite(e.next, scope, refreshes, e.reply);
        case AwaitRefresh(scope) => ResumeRefresh(scope, e.reply);
        case AwaitLogout => ResumeLogout();
        case _ => ResumeInSession(p, e.next, e.reply);
      }
    }
  }
}
