// Every interleaving of operations and answers: what a late answer can do.

module EpochRuns {
  import opened Basics
  import opened Epochs

  ghost predicate Run(stores: seq<Store>, events: seq<Event>)
  {
    && |stores| == |events| + 1 && stores[0] == START
    && forall i :: 0 <= i < |events| ==> Enabled(stores[i], events[i]) && stores[i + 1] == Turn(stores[i], events[i])
  }

  // ---- The turns that start something new ----

  // A session established, a session ended, or a matter requested.
  datatype Shift = Began | Ended | Requested

  function UnauthorizedShift(current: bool, reply: Reply): Option<Shift>
  {
    if current && reply == Unauthorized then Some(Ended) else None
  }

  function SessionShift(s: Store, attempt: nat, reply: Reply, booting: bool): Option<Shift>
  {
    if s.attempt != attempt then None
    else if reply.SessionReply? then Some(if reply.expired then Ended else Began)
    else if booting && reply == Unauthorized then Some(Ended)
    else None
  }

  function AnswerShift(s: Store, p: Pending, reply: Reply): Option<Shift>
  {
    match p
    case AwaitBoot(attempt) => SessionShift(s, attempt, reply, true)
    case AwaitLogin(attempt) => SessionShift(s, attempt, reply, false)
    case AwaitCases(scope, created) =>
      if SessionCurrent(s, scope) && reply.CasesReply? then Some(Requested)
      else UnauthorizedShift(SessionCurrent(s, scope) && created.None?, reply)
    case AwaitCase(scope) => UnauthorizedShift(CaseCurrent(s, scope), reply)
    case AwaitWrite(scope, _) => UnauthorizedShift(CaseCurrent(s, scope), reply)
    case AwaitRefresh(scope) => UnauthorizedShift(CaseCurrent(s, scope), reply)
    case AwaitCreate(_) => None
    case AwaitPassword(scope, _) => UnauthorizedShift(SessionCurrent(s, scope), reply)
    case AwaitRevalidation(scope) =>
      if SessionCurrent(s, scope) && reply.SessionReply? then
        if reply.expired || reply.reviewer != scope.reviewer then Some(Ended) else None
      else UnauthorizedShift(SessionCurrent(s, scope), reply)
    case AwaitDetail(scope) => UnauthorizedShift(SessionCurrent(s, scope), reply)
    case AwaitExpiry(scope) => if SessionCurrent(s, scope) then Some(Ended) else None
    case AwaitLogout => None
  }

  function ShiftIn(s: Store, e: Event): Option<Shift>
    requires Enabled(s, e)
  {
    match e
    case Switch(_, _) => if s.reviewer.Some? then Some(Requested) else None
    case Logout(_) => if s.logoutInFlight then None else Some(Ended)
    case Deliver(answered, _, reply) => AnswerShift(s, s.pending[answered], reply)
    case _ => None
  }

  // Epochs count exactly these turns; all other turns keep session and matter.
  predicate Counts(s: Store, t: Store, shift: Option<Shift>)
  {
    && t.caseEpoch == s.caseEpoch + (if shift.Some? then 1 else 0)
    && t.sessionEpoch == s.sessionEpoch + (if shift.Some? && !shift.value.Requested? then 1 else 0)
    && (shift.None? ==> t.current == s.current)
    && (shift.None? || shift.value.Requested? ==> t.reviewer == s.reviewer)
  }

  function CaseScopeIn(p: Pending): Option<CaseScope>
  {
    match p
    case AwaitCase(scope) => Some(scope)
    case AwaitWrite(scope, _) => Some(scope)
    case AwaitRefresh(scope) => Some(scope)
    case _ => None
  }

  function SessionScopeIn(p: Pending): Option<SessionScope>
  {
    match p
    case AwaitCases(scope, _) => Some(scope)
    case AwaitCreate(scope) => Some(scope)
    case AwaitPassword(scope, _) => Some(scope)
    case AwaitRevalidation(scope) => Some(scope)
    case AwaitDetail(scope) => Some(scope)
    case AwaitExpiry(scope) => Some(scope)
    case _ => None
  }

  // A new wait starts with a current scope; a load is a requested matter.
  predicate StartsCurrent(t: Store, p: Pending, shift: Option<Shift>)
  {
    && (CaseScopeIn(p).Some? ==> CaseCurrent(t, CaseScopeIn(p).value))
    && (SessionScopeIn(p).Some? ==> SessionCurrent(t, SessionScopeIn(p).value))
    && (p.AwaitCase? ==> shift == Some(Requested))
  }

  // At most one wait is added, under `op`; the others are untouched.
  ghost predicate OneWait(s: Store, t: Store, op: nat, shift: Option<Shift>)
  {
    && (forall x :: x in t.pending && x != op ==> x in s.pending && t.pending[x] == s.pending[x])
    && (op !in s.pending && op in t.pending ==> StartsCurrent(t, t.pending[op], shift))
  }

  predicate ShowsCurrent(s: Store) { s.app.shown.caseId.Some? && s.current == Matter(s.app.shown.caseId.value) }

  // The screen knows who is signed in, and shows nothing to nobody.
  predicate ScreenSignedIn(s: Store)
  {
    && s.app.sessionReviewer == s.reviewer
    && (s.reviewer.None? ==> s.app.shown == EMPTY_MATTER && s.app.cases == [] && s.current == NoMatter)
  }

  predicate ScreenKept(s: Store, t: Store, shift: Option<Shift>)
  {
    ScreenSignedIn(s) ==>
      ScreenSignedIn(t) && (shift.None? ==> t.app.shown.caseId == s.app.shown.caseId || ShowsCurrent(t))
  }

  ghost predicate Tame(s: Store, t: Store, op: nat, shift: Option<Shift>)
  {
    Counts(s, t, shift) && OneWait(s, t, op, shift) && ScreenKept(s, t, shift)
  }

  lemma SessionIsTame(s: Store, op: nat, attempt: nat, reply: Reply, booting: bool)
    requires op !in s.pending
    ensures Tame(s, OnSession(s, op, attempt, reply, booting), op, SessionShift(s, attempt, reply, booting))
  {
  }

  lemma LoadIsTame(s: Store, op: nat, caseId: Id, scope: SessionScope)
    requires op !in s.pending && SessionCurrent(s, scope)
    ensures Tame(s, LoadStarted(s, op, caseId, scope), op, Some(Requested))
  {
  }

  lemma DispatchIsTame(s: Store, a: Action, op: nat)
    requires a.BootStarted? || a.BootError? || a.CasesLoaded? || a.SessionDetail? || a.MatterChanged?
    requires op !in s.pending
    ensures Tame(s, Dispatched(s, a), op, None)
    ensures SessionScopeOf(Dispatched(s, a)) == SessionScopeOf(s) && Dispatched(s, a).pending == s.pending
    ensures Dispatched(s, a).app.shown.caseId == s.app.shown.caseId
  {
  }

  lemma EndIsTame(s: Store, op: nat)
    requires op !in s.pending
    ensures Tame(s, SessionEnded(s), op, Some(Ended))
  {
  }

  lemma TameThenTame(s: Store, t: Store, u: Store, op: nat, shift: Option<Shift>)
    requires op !in s.pending && op !in t.pending && Tame(s, t, op, None) && Tame(t, u, op, shift)
    requires t.app.shown.caseId == s.app.shown.caseId
    ensures Tame(s, u, op, shift)
  {
  }

  lemma CasesAreTame(s: Store, op: nat, scope: SessionScope, created: Option<Id>, reply: Reply)
    requires op !in s.pending
    ensures Tame(s, OnCases(s, op, scope, created, reply), op, AnswerShift(s, AwaitCases(scope, created), reply))
  {
    hide Tame, Reduce, LoadStarted;
    if SessionCurrent(s, scope) && reply.CasesReply? {
      var listed := Dispatched(s, CasesLoaded(reply.cases));
      DispatchIsTame(s, CasesLoaded(reply.cases), op);
      if created.Some? {
        DispatchIsTame(listed, BootStarted, op);
        LoadIsTame(Dispatched(listed, BootStarted), op, created.value, scope);
        TameThenTame(listed, Dispatched(listed, BootStarted), LoadStarted(Dispatched(listed, BootStarted), op, created.value, scope), op, Some(Requested));
        TameThenTame(s, listed, LoadStarted(Dispatched(listed, BootStarted), op, created.value, scope), op, Some(Requested));
      } else {
        FirstLoadIsTame(listed, op, reply.cases, scope);
        TameThenTame(s, listed, FirstLoadStarted(listed, op, reply.cases, scope), op, Some(Requested));
      }
    } else {
      StillIsTame(s, op);
      EndIsTame(s, op);
      DispatchIsTame(s, BootError, op);
    }
  }

  lemma FirstLoadIsTame(s: Store, op: nat, cases: seq<Id>, scope: SessionScope)
    requires op !in s.pending && SessionCurrent(s, scope)
    ensures Tame(s, FirstLoadStarted(s, op, cases, scope), op, Some(Requested))
  {
    if cases != [] { LoadIsTame(s, op, cases[0], scope); }
  }

  lemma StillIsTame(s: Store, op: nat)
    requires op !in s.pending
    ensures Tame(s, s, op, None)
  {
  }

  lemma FailureIsTame(s: Store, op: nat, current: bool, reply: Reply)
    requires op !in s.pending
    ensures Tame(s, OnFailure(s, current, reply), op, UnauthorizedShift(current, reply))
  {
    hide Tame, SessionEnded;
    StillIsTame(s, op);
    EndIsTame(s, op);
  }

  lemma CaseIsTame(s: Store, op: nat, scope: CaseScope, reply: Reply)
    requires op !in s.pending
    ensures Tame(s, OnCase(s, scope, reply), op, UnauthorizedShift(CaseCurrent(s, scope), reply))
  {
    hide SessionEnded;
    EndIsTame(s, op);
  }

  lemma WriteIsTame(s: Store, op: nat, scope: CaseScope, refreshes: bool, reply: Reply)
    requires op !in s.pending
    ensures Tame(s, OnWrite(s, op, scope, refreshes, reply), op, UnauthorizedShift(CaseCurrent(s, scope), reply))
  {
    hide SessionEnded;
    FailureIsTame(s, op, true, reply);
  }

  lemma RefreshIsTame(s: Store, op: nat, scope: CaseScope, reply: Reply)
    requires op !in s.pending
    ensures Tame(s, OnRefresh(s, scope, reply), op, UnauthorizedShift(CaseCurrent(s, scope), reply))
  {
    hide SessionEnded;
    FailureIsTame(s, op, true, reply);
  }

  lemma PasswordIsTame(s: Store, op: nat, scope: SessionScope, forced: bool, reply: Reply)
    requires op !in s.pending
    ensures Tame(s, OnPassword(s, op, scope, forced, reply), op, UnauthorizedShift(SessionCurrent(s, scope), reply))
  {
    hide SessionEnded;
    FailureIsTame(s, op, true, reply);
  }

  lemma RevalidationIsTame(s: Store, op: nat, scope: SessionScope, reply: Reply)
    requires op !in s.pending
    ensures Tame(s, OnRevalidation(s, scope, reply), op, AnswerShift(s, AwaitRevalidation(scope), reply))
  {
    hide SessionEnded;
    EndIsTame(s, op);
    FailureIsTame(s, op, true, reply);
  }

  lemma AnswerIsTame(s: Store, p: Pending, op: nat, reply: Reply)
    requires op !in s.pending
    ensures Tame(s, Resumed(s, p, op, reply), op, AnswerShift(s, p, reply))
  {
    hide SessionEnded, OnSession, OnCases, OnCase, OnWrite, OnRefresh, OnPassword, OnRevalidation, OnFailure;
    match p
    case AwaitBoot(attempt) => SessionIsTame(s, op, attempt, reply, true);
    case AwaitLogin(attempt) => SessionIsTame(s, op, attempt, reply, false);
    case AwaitCases(scope, created) => CasesAreTame(s, op, scope, created, reply);
    case AwaitCase(scope) => CaseIsTame(s, op, scope, reply);
    case AwaitWrite(scope, refreshes) => WriteIsTame(s, op, scope, refreshes, reply);
    case AwaitRefresh(scope) => RefreshIsTame(s, op, scope, reply);
    case AwaitCreate(scope) =>
    case AwaitPassword(scope, forced) => PasswordIsTame(s, op, scope, forced, reply);
    case AwaitRevalidation(scope) => RevalidationIsTame(s, op, scope, reply);
    case AwaitDetail(scope) => FailureIsTame(s, op, SessionCurrent(s, scope), reply);
    case AwaitExpiry(scope) => EndIsTame(s, op);
    case AwaitLogout =>
  }

  lemma StartIsTame(s: Store, e: Event)
    requires !e.Deliver? && e.op !in s.pending
    ensures Tame(s, Started(s, e), e.op, ShiftIn(s, e))
  {
    hide SessionEnded;
    if e.Switch? && s.reviewer.Some? {
      var scope := SessionScopeOf(s).value;
      DispatchIsTame(s, BootStarted, e.op);
      LoadIsTame(Dispatched(s, BootStarted), e.op, e.caseId, scope);
      TameThenTame(s, Dispatched(s, BootStarted), LoadStarted(Dispatched(s, BootStarted), e.op, e.caseId, scope), e.op, Some(Requested));
    } else if e.Logout? {
      SignOutIsTame(s, e.op);
    }
  }

  lemma SignOutIsTame(s: Store, op: nat)
    requires op !in s.pending
    ensures Tame(s, Started(s, Logout(op)), op, ShiftIn(s, Logout(op)))
  {
  }

  lemma TurnIsTame(s: Store, e: Event)
    requires Enabled(s, e)
    ensures Tame(s, Turn(s, e), OpOf(e), ShiftIn(s, e))
  {
    hide Started, Resumed;
    if e.Deliver? {
      var t := s.(pending := s.pending - {e.answered});
      AnswerIsTame(t, s.pending[e.answered], e.next, e.reply);
    } else {
      hide AnswerShift;
      StartIsTame(s, e);
    }
  }

  lemma EpochsCountShifts(s: Store, e: Event)
    requires Enabled(s, e)
    ensures Counts(s, Turn(s, e), ShiftIn(s, e))
  {
    hide Turn, ShiftIn;
    TurnIsTame(s, e);
  }

  ghost predicate QuietBetween(stores: seq<Store>, events: seq<Event>, i: nat, n: nat)
    requires Run(stores, events) && n <= |events|
  {
    forall j :: i <= j < n ==> ShiftIn(stores[j], events[j]).None?
  }

  ghost predicate SessionKeptBetween(stores: seq<Store>, events: seq<Event>, i: nat, n: nat)
    requires Run(stores, events) && n <= |events|
  {
    forall j :: i <= j < n ==> ShiftIn(stores[j], events[j]) in {None, Some(Requested)}
  }

  lemma {:induction false} EpochsBetween(stores: seq<Store>, events: seq<Event>, i: nat, n: nat)
    requires Run(stores, events) && i <= n <= |events|
    ensures stores[i].caseEpoch <= stores[n].caseEpoch && stores[i].sessionEpoch <= stores[n].sessionEpoch
    ensures stores[i].caseEpoch == stores[n].caseEpoch <==> QuietBetween(stores, events, i, n)
    ensures stores[i].sessionEpoch == stores[n].sessionEpoch <==> SessionKeptBetween(stores, events, i, n)
    ensures QuietBetween(stores, events, i, n) ==> stores[i].current == stores[n].current
    ensures SessionKeptBetween(stores, events, i, n) ==> stores[i].reviewer == stores[n].reviewer
    decreases n
  {
    hide Turn, ShiftIn;
    if i < n {
      EpochsBetween(stores, events, i, n - 1);
      assert stores[n - 1 + 1] == Turn(stores[n - 1], events[n - 1]);
      EpochsCountShifts(stores[n - 1], events[n - 1]);
      assert SessionKeptBetween(stores, events, i, n - 1) && ShiftIn(stores[n - 1], events[n - 1]) in {None, Some(Requested)}
             <==> SessionKeptBetween(stores, events, i, n);
      assert QuietBetween(stores, events, i, n - 1) && ShiftIn(stores[n - 1], events[n - 1]).None? <==> QuietBetween(stores, events, i, n);
    }
  }

  // Epochs determine the session and the matter: coming back to a matter is
  // never mistaken for not having left it.
  lemma EpochFixesMatter(stores: seq<Store>, events: seq<Event>, i: nat, n: nat)
    requires Run(stores, events) && i <= n <= |events| && stores[i].caseEpoch == stores[n].caseEpoch
    ensures stores[i].current == stores[n].current && stores[i].sessionEpoch == stores[n].sessionEpoch
    ensures stores[i].reviewer == stores[n].reviewer
  {
    hide Run, QuietBetween, SessionKeptBetween;
    EpochsBetween(stores, events, i, n);
    QuietKeepsSession(stores, events, i, n);
  }

  lemma QuietKeepsSession(stores: seq<Store>, events: seq<Event>, i: nat, n: nat)
    requires Run(stores, events) && i <= n <= |events| && QuietBetween(stores, events, i, n)
    ensures SessionKeptBetween(stores, events, i, n)
  {
    hide ShiftIn;
  }

  // ---- A waiting operation keeps its scope, and started with a current one ----

  lemma WaitingStays(s: Store, e: Event, op: nat)
    requires Enabled(s, e) && op in s.pending && op in Turn(s, e).pending
    ensures Turn(s, e).pending[op] == s.pending[op]
  {
    hide Turn, ShiftIn;
    TurnIsTame(s, e);
  }

  lemma CaptureIsCurrent(s: Store, e: Event, op: nat)
    requires Enabled(s, e) && op !in s.pending && op in Turn(s, e).pending
    ensures StartsCurrent(Turn(s, e), Turn(s, e).pending[op], ShiftIn(s, e))
  {
    hide Turn, ShiftIn;
    TurnIsTame(s, e);
  }

  // `op` was started by event i and is still unanswered before event n.
  ghost predicate WaitsFrom(stores: seq<Store>, events: seq<Event>, op: nat, i: nat, n: nat)
    requires Run(stores, events) && i < n <= |events|
  {
    op !in stores[i].pending && forall j :: i < j <= n ==> op in stores[j].pending
  }

  lemma {:induction false} WaitsUnchanged(stores: seq<Store>, events: seq<Event>, op: nat, i: nat, n: nat)
    requires Run(stores, events) && i < n <= |events| && WaitsFrom(stores, events, op, i, n)
    ensures stores[n].pending[op] == stores[i + 1].pending[op]
    decreases n
  {
    hide Turn;
    if i + 1 < n {
      WaitsUnchanged(stores, events, op, i, n - 1);
      assert stores[n - 1 + 1] == Turn(stores[n - 1], events[n - 1]);
      WaitingStays(stores[n - 1], events[n - 1], op);
    }
  }

  // A matter operation is still current exactly when, since it was started, no
  // session began or ended and no other matter was requested.
  lemma CurrentMeansQuiet(stores: seq<Store>, events: seq<Event>, op: nat, i: nat, n: nat)
    requires Run(stores, events) && i < n <= |events| && WaitsFrom(stores, events, op, i, n)
    requires CaseScopeIn(stores[n].pending[op]).Some?
    ensures CaseCurrent(stores[n], CaseScopeIn(stores[n].pending[op]).value) <==> QuietBetween(stores, events, i + 1, n)
  {
    hide Turn, QuietBetween, SessionKeptBetween;
    WaitsUnchanged(stores, events, op, i, n);
    assert stores[i + 1] == Turn(stores[i], events[i]);
    CaptureIsCurrent(stores[i], events[i], op);
    EpochsBetween(stores, events, i + 1, n);
    if QuietBetween(stores, events, i + 1, n) { QuietKeepsSession(stores, events, i + 1, n); }
  }

  // A session operation, exactly when no session began or ended.
  lemma CurrentMeansSessionKept(stores: seq<Store>, events: seq<Event>, op: nat, i: nat, n: nat)
    requires Run(stores, events) && i < n <= |events| && WaitsFrom(stores, events, op, i, n)
    requires SessionScopeIn(stores[n].pending[op]).Some?
    ensures SessionCurrent(stores[n], SessionScopeIn(stores[n].pending[op]).value) <==> SessionKeptBetween(stores, events, i + 1, n)
  {
    hide Turn, QuietBetween, SessionKeptBetween;
    WaitsUnchanged(stores, events, op, i, n);
    assert stores[i + 1] == Turn(stores[i], events[i]);
    CaptureIsCurrent(stores[i], events[i], op);
    EpochsBetween(stores, events, i + 1, n);
  }

  // ---- Late answers ----

  function Dropped(s: Store, op: nat): Store { s.(pending := s.pending - {op}) }

  // Whatever a superseded operation is answered, a refusal of the session
  // included, nothing but its own waiting entry goes.
  lemma LateAnswerIsInert(stores: seq<Store>, events: seq<Event>, i: nat, n: nat)
    requires Run(stores, events) && i < n < |events| && events[n].Deliver?
    requires WaitsFrom(stores, events, events[n].answered, i, n)
    requires var p := stores[n].pending[events[n].answered];
      || (CaseScopeIn(p).Some? && !QuietBetween(stores, events, i + 1, n))
      || (SessionScopeIn(p).Some? && !SessionKeptBetween(stores, events, i + 1, n))
    ensures stores[n + 1] == Dropped(stores[n], events[n].answered)
  {
    hide QuietBetween, SessionKeptBetween, Reduce;
    var p := stores[n].pending[events[n].answered];
    if CaseScopeIn(p).Some? { CurrentMeansQuiet(stores, events, events[n].answered, i, n); }
    else { CurrentMeansSessionKept(stores, events, events[n].answered, i, n); }
    assert stores[n + 1] == Turn(stores[n], events[n]);
  }

  // A matter load is applied exactly when nothing superseded it.
  lemma LoadAppliesExactly(stores: seq<Store>, events: seq<Event>, i: nat, n: nat)
    requires Run(stores, events) && i < n < |events| && events[n].Deliver? && events[n].reply.CaseReply?
    requires WaitsFrom(stores, events, events[n].answered, i, n)
    requires stores[n].pending[events[n].answered].AwaitCase?
    requires events[n].reply.payload.caseId == stores[n].pending[events[n].answered].load.caseId
    ensures var p := events[n].reply.payload;
      && (QuietBetween(stores, events, i + 1, n) ==> stores[n + 1].app.shown == Shown(Some(p.caseId), true, p.content))
      && (!QuietBetween(stores, events, i + 1, n) ==> stores[n + 1] == Dropped(stores[n], events[n].answered))
  {
    hide QuietBetween, SessionKeptBetween, Turn;
    if QuietBetween(stores, events, i + 1, n) {
      CurrentMeansQuiet(stores, events, events[n].answered, i, n);
      SignedInAgrees(stores, events, n);
      assert stores[n + 1] == Turn(stores[n], events[n]);
      CurrentLoadApplies(stores[n], events[n]);
    } else {
      LateAnswerIsInert(stores, events, i, n);
    }
  }

  lemma CurrentLoadApplies(s: Store, e: Event)
    requires Enabled(s, e) && e.Deliver? && e.reply.CaseReply? && s.pending[e.answered].AwaitCase?
    requires CaseCurrent(s, s.pending[e.answered].load) && e.reply.payload.caseId == s.pending[e.answered].load.caseId
    requires s.app.sessionReviewer == s.reviewer
    ensures Turn(s, e).app.shown == Shown(Some(e.reply.payload.caseId), true, e.reply.payload.content)
  {
  }

  // The latest matter load wins, in whatever order the answers come.
  lemma LatestLoadWins(stores: seq<Store>, events: seq<Event>, i: nat, j: nat, n: nat, later: nat)
    requires Run(stores, events) && i < j < n < |events| && events[n].Deliver?
    requires WaitsFrom(stores, events, events[n].answered, i, n) && stores[n].pending[events[n].answered].AwaitCase?
    requires later !in stores[j].pending && later in stores[j + 1].pending && stores[j + 1].pending[later].AwaitCase?
    ensures stores[n + 1] == Dropped(stores[n], events[n].answered)
  {
    hide SessionKeptBetween, Turn, ShiftIn;
    assert stores[j + 1] == Turn(stores[j], events[j]);
    LoadIsShift(stores[j], events[j], later);
    assert !QuietBetween(stores, events, i + 1, n);
    LateAnswerIsInert(stores, events, i, n);
  }

  lemma LoadIsShift(s: Store, e: Event, op: nat)
    requires Enabled(s, e) && op !in s.pending && op in Turn(s, e).pending && Turn(s, e).pending[op].AwaitCase?
    ensures ShiftIn(s, e) == Some(Requested)
  {
    hide Turn, ShiftIn;
    CaptureIsCurrent(s, e, op);
  }

  // A sign-out answer never clears a session established since.
  lemma LateSignOutSparesSession(s: Store, e: Event)
    requires Enabled(s, e) && e.Deliver? && s.pending[e.answered].AwaitLogout? && s.reviewer.Some?
    ensures Turn(s, e) == Dropped(s, e.answered).(logoutInFlight := false)
  {
  }

  // ---- Authentication attempts ----

  // A boot, a sign-in sent while no sign-out is in flight, or a session ended.
  predicate NewAttempt(s: Store, e: Event)
    requires Enabled(s, e)
  {
    e.Boot? || (e.Login? && !s.logoutInFlight) || ShiftIn(s, e) == Some(Ended)
  }

  function AttemptIn(p: Pending): Option<nat>
  {
    match p
    case AwaitBoot(attempt) => Some(attempt)
    case AwaitLogin(attempt) => Some(attempt)
    case _ => None
  }

  lemma AnswerCountsAttempt(s: Store, p: Pending, op: nat, reply: Reply)
    ensures Resumed(s, p, op, reply).attempt == s.attempt + (if AnswerShift(s, p, reply) == Some(Ended) then 1 else 0)
    ensures op !in s.pending && op in Resumed(s, p, op, reply).pending ==> AttemptIn(Resumed(s, p, op, reply).pending[op]).None?
  {
    hide Reduce;
  }

  lemma StartCountsAttempt(s: Store, e: Event)
    requires !e.Deliver? && Enabled(s, e)
    ensures Started(s, e).attempt == s.attempt + (if NewAttempt(s, e) then 1 else 0)
    ensures e.op in Started(s, e).pending && AttemptIn(Started(s, e).pending[e.op]).Some? ==>
              AttemptIn(Started(s, e).pending[e.op]) == Some(Started(s, e).attempt)
  {
    hide Reduce;
  }

  // The attempt counter counts exactly those turns, and a new authentication
  // wait carries its latest value.
  lemma AttemptsCount(s: Store, e: Event)
    requires Enabled(s, e)
    ensures Turn(s, e).attempt == s.attempt + (if NewAttempt(s, e) then 1 else 0)
    ensures forall op :: op !in s.pending && op in Turn(s, e).pending && AttemptIn(Turn(s, e).pending[op]).Some? ==>
              AttemptIn(Turn(s, e).pending[op]) == Some(Turn(s, e).attempt)
  {
    hide Started, Resumed, AnswerShift, AttemptIn;
    TurnIsTame(s, e);
    if e.Deliver? {
      AnswerCountsAttempt(s.(pending := s.pending - {e.answered}), s.pending[e.answered], e.next, e.reply);
      SameShift(s, e);
    } else {
      StartCountsAttempt(s, e);
    }
  }

  // Whether an answer shifts anything does not depend on its own waiting entry.
  lemma SameShift(s: Store, e: Event)
    requires Enabled(s, e) && e.Deliver?
    ensures AnswerShift(s.(pending := s.pending - {e.answered}), s.pending[e.answered], e.reply) == ShiftIn(s, e)
  {
  }

  ghost predicate LatestBetween(stores: seq<Store>, events: seq<Event>, i: nat, n: nat)
    requires Run(stores, events) && n <= |events|
  {
    forall j :: i <= j < n ==> !NewAttempt(stores[j], events[j])
  }

  lemma {:induction false} AttemptsBetween(stores: seq<Store>, events: seq<Event>, i: nat, n: nat)
    requires Run(stores, events) && i <= n <= |events|
    ensures stores[i].attempt <= stores[n].attempt
    ensures stores[i].attempt == stores[n].attempt <==> LatestBetween(stores, events, i, n)
    decreases n
  {
    hide Turn, NewAttempt;
    if i < n {
      AttemptsBetween(stores, events, i, n - 1);
      assert stores[n - 1 + 1] == Turn(stores[n - 1], events[n - 1]);
      AttemptsCount(stores[n - 1], events[n - 1]);
      assert LatestBetween(stores, events, i, n - 1) && !NewAttempt(stores[n - 1], events[n - 1]) <==> LatestBetween(stores, events, i, n);
    }
  }

  // A boot or a sign-in is still the latest attempt exactly when, since it was
  // sent, none other was and no session ended.
  lemma AttemptMeansLatest(stores: seq<Store>, events: seq<Event>, op: nat, i: nat, n: nat)
    requires Run(stores, events) && i < n <= |events| && WaitsFrom(stores, events, op, i, n)
    requires AttemptIn(stores[n].pending[op]).Some?
    ensures AttemptIn(stores[n].pending[op]) == Some(stores[n].attempt) <==> LatestBetween(stores, events, i + 1, n)
  {
    hide Turn, LatestBetween;
    WaitsUnchanged(stores, events, op, i, n);
    assert stores[i + 1] == Turn(stores[i], events[i]);
    AttemptsCount(stores[i], events[i]);
    AttemptsBetween(stores, events, i + 1, n);
  }

  lemma OldAttemptDrops(s: Store, e: Event)
    requires Enabled(s, e) && e.Deliver? && AttemptIn(s.pending[e.answered]).Some?
    requires AttemptIn(s.pending[e.answered]) != Some(s.attempt)
    ensures Turn(s, e) == Dropped(s, e.answered)
  {
  }

  lemma LatestAttemptSignsIn(s: Store, e: Event)
    requires Enabled(s, e) && e.Deliver? && AttemptIn(s.pending[e.answered]) == Some(s.attempt)
    requires e.reply.SessionReply? && !e.reply.expired
    ensures Turn(s, e).reviewer == Some(e.reply.reviewer) && Turn(s, e).app.sessionReviewer == Some(e.reply.reviewer)
    ensures Turn(s, e).sessionEpoch == s.sessionEpoch + 1
  {
  }

  // Whatever answers an authentication that something superseded since it was
  // sent, an established session included, nothing but its waiting entry goes.
  lemma LateAuthenticationIsInert(stores: seq<Store>, events: seq<Event>, i: nat, n: nat)
    requires Run(stores, events) && i < n < |events| && events[n].Deliver?
    requires WaitsFrom(stores, events, events[n].answered, i, n)
    requires AttemptIn(stores[n].pending[events[n].answered]).Some? && !LatestBetween(stores, events, i + 1, n)
    ensures stores[n + 1] == Dropped(stores[n], events[n].answered)
  {
    hide LatestBetween, Turn;
    AttemptMeansLatest(stores, events, events[n].answered, i, n);
    assert stores[n + 1] == Turn(stores[n], events[n]);
    OldAttemptDrops(stores[n], events[n]);
  }

  // A session answer signs its reviewer in exactly when nothing superseded it.
  lemma AuthenticationAppliesExactly(stores: seq<Store>, events: seq<Event>, i: nat, n: nat)
    requires Run(stores, events) && i < n < |events| && events[n].Deliver?
    requires WaitsFrom(stores, events, events[n].answered, i, n)
    requires AttemptIn(stores[n].pending[events[n].answered]).Some?
    requires events[n].reply.SessionReply? && !events[n].reply.expired
    ensures stores[n + 1].sessionEpoch == stores[n].sessionEpoch + 1 <==> LatestBetween(stores, events, i + 1, n)
    ensures LatestBetween(stores, events, i + 1, n) ==>
              && stores[n + 1].reviewer == Some(events[n].reply.reviewer)
              && stores[n + 1].app.sessionReviewer == Some(events[n].reply.reviewer)
  {
    hide LatestBetween, Turn;
    AttemptMeansLatest(stores, events, events[n].answered, i, n);
    assert stores[n + 1] == Turn(stores[n], events[n]);
    if LatestBetween(stores, events, i + 1, n) { LatestAttemptSignsIn(stores[n], events[n]); }
    else { OldAttemptDrops(stores[n], events[n]); }
  }

  // A sign-in that has only been sent supersedes nothing: until it is answered,
  // answers to the session it will replace still land. What counts is the
  // session that begins, as `CurrentMeansQuiet` says.
  lemma PendingSignInSupersedesNothing(s: Store, op: nat, scope: CaseScope)
    requires op !in s.pending && CaseCurrent(s, scope)
    ensures CaseCurrent(Turn(s, Login(op)), scope) && ShiftIn(s, Login(op)).None?
    ensures !s.logoutInFlight ==> Turn(s, Login(op)).pending[op] == AwaitLogin(s.attempt + 1)
  {
  }

  // ---- What is on screen ----

  ghost predicate ScreenHonest(s: Store)
  {
    && ScreenSignedIn(s)
    && (forall op :: op in s.pending ==> LandsAt(s, s.pending[op]))
    && (forall op :: op in s.pending && CaseScopeIn(s.pending[op]).Some? ==> CaseScopeIn(s.pending[op]).value.caseEpoch <= s.caseEpoch)
    && (forall op :: op in s.pending && CaseScopeIn(s.pending[op]).Some? ==> EpochsAgree(s, CaseScopeIn(s.pending[op]).value))
  }

  // While a write is current, the matter on screen is the one it was made for.
  predicate LandsAt(s: Store, p: Pending)
  {
    match p
    case AwaitWrite(scope, _) => CaseCurrent(s, scope) ==> s.app.shown.caseId == Some(scope.caseId)
    case AwaitRefresh(scope) => CaseCurrent(s, scope) ==> s.app.shown.caseId == Some(scope.caseId)
    case _ => true
  }

  // Equal matter epochs already make the whole scope current.
  predicate EpochsAgree(s: Store, scope: CaseScope) { scope.caseEpoch == s.caseEpoch ==> CaseCurrent(s, scope) }

  lemma NewWriteLands(s: Store, e: Event, op: nat)
    requires Enabled(s, e) && ScreenHonest(s) && op !in s.pending && op in Turn(s, e).pending
    ensures LandsAt(Turn(s, e), Turn(s, e).pending[op])
  {
    hide Reduce, SessionEnded, OnSession, OnCases, OnCase, OnRefresh, OnPassword, OnRevalidation, OnFailure,
         LoadStarted, SessionScopeOf;
    assert op == OpOf(e) by { hide Turn, ShiftIn; TurnIsTame(s, e); }
    if e.Deliver? {
      assert LandsAt(s, s.pending[e.answered]);
      NewAfterAnswer(s.(pending := s.pending - {e.answered}), s.pending[e.answered], e.next, e.reply);
    } else if !e.Write? {
      NoWriteStarted(s, e);
    }
  }

  // Only a refused write starts a refresh, and no answer starts a write.
  lemma NewAfterAnswer(s: Store, p: Pending, op: nat, reply: Reply)
    requires op !in s.pending && op in Resumed(s, p, op, reply).pending
    ensures var q := Resumed(s, p, op, reply).pending[op];
      && !q.AwaitWrite?
      && (q.AwaitRefresh? ==> p.AwaitWrite? && q == AwaitRefresh(p.write) && Resumed(s, p, op, reply).app == s.app
                              && CaseCurrent(s, p.write))
  {
    hide Reduce;
  }

  lemma NoWriteStarted(s: Store, e: Event)
    requires !e.Deliver? && !e.Write? && e.op !in s.pending && e.op in Started(s, e).pending
    ensures !Started(s, e).pending[e.op].AwaitWrite? && !Started(s, e).pending[e.op].AwaitRefresh?
  {
    hide Reduce;
  }

  lemma ScreenStaysHonest(s: Store, e: Event)
    requires Enabled(s, e) && ScreenHonest(s)
    ensures ScreenHonest(Turn(s, e))
  {
    hide Turn, ShiftIn, CaseCurrent;
    var next := Turn(s, e);
    TurnIsTame(s, e);
    forall op | op in next.pending
      ensures LandsAt(next, next.pending[op])
      ensures CaseScopeIn(next.pending[op]).Some? ==>
                CaseScopeIn(next.pending[op]).value.caseEpoch <= next.caseEpoch && EpochsAgree(next, CaseScopeIn(next.pending[op]).value)
    {
      if op in s.pending {
        WaitingStays(s, e, op);
        OldWaitLands(s, e, op);
      } else {
        CaptureIsCurrent(s, e, op);
        NewWriteLands(s, e, op);
        if CaseScopeIn(next.pending[op]).Some? { CurrentEpoch(next, CaseScopeIn(next.pending[op]).value); }
      }
    }
  }

  lemma CurrentEpoch(s: Store, scope: CaseScope)
    requires CaseCurrent(s, scope)
    ensures scope.caseEpoch == s.caseEpoch
  {
  }

  lemma OldWaitLands(s: Store, e: Event, op: nat)
    requires Enabled(s, e) && ScreenHonest(s) && op in s.pending
    ensures LandsAt(Turn(s, e), s.pending[op])
    ensures CaseScopeIn(s.pending[op]).Some? ==>
              var scope := CaseScopeIn(s.pending[op]).value;
              scope.caseEpoch <= Turn(s, e).caseEpoch && EpochsAgree(Turn(s, e), scope)
  {
    hide Turn, ShiftIn;
    var p := s.pending[op];
    EpochsCountShifts(s, e);
    if CaseScopeIn(p).Some? {
      assert LandsAt(s, p) && EpochsAgree(s, CaseScopeIn(p).value);
      TurnIsTame(s, e);
    }
  }

  lemma {:induction false} EveryScreenIsHonest(stores: seq<Store>, events: seq<Event>, n: nat)
    requires Run(stores, events) && n < |stores|
    ensures ScreenHonest(stores[n])
  {
    hide Turn, ScreenHonest;
    if n == 0 {
      StartIsHonest();
    } else {
      EveryScreenIsHonest(stores, events, n - 1);
      assert stores[n - 1 + 1] == Turn(stores[n - 1], events[n - 1]);
      ScreenStaysHonest(stores[n - 1], events[n - 1]);
    }
  }

  lemma StartIsHonest()
    ensures ScreenHonest(START)
  {
  }

  lemma SignedInAgrees(stores: seq<Store>, events: seq<Event>, n: nat)
    requires Run(stores, events) && n < |stores|
    ensures stores[n].app.sessionReviewer == stores[n].reviewer
  {
    EveryScreenIsHonest(stores, events, n);
  }

  // Nobody signed in: no matter of the server's is on screen.
  lemma SignedOutShowsNothing(stores: seq<Store>, events: seq<Event>, n: nat)
    requires Run(stores, events) && n < |stores| && stores[n].app.sessionReviewer.None?
    ensures !stores[n].app.shown.fromServer && stores[n].app.cases == []
  {
    EveryScreenIsHonest(stores, events, n);
  }

  // A write's answer changes the screen only when the matter on screen is the
  // one it was written to.
  lemma WritesLandInTheirMatter(stores: seq<Store>, events: seq<Event>, n: nat)
    requires Run(stores, events) && n < |events| && events[n].Deliver?
    requires stores[n].pending[events[n].answered].AwaitWrite?
    requires stores[n + 1].app != stores[n].app && stores[n + 1].reviewer == stores[n].reviewer
    ensures stores[n].app.shown.caseId == Some(stores[n].pending[events[n].answered].write.caseId) == stores[n + 1].app.shown.caseId
  {
    EveryScreenIsHonest(stores, events, n);
    assert LandsAt(stores[n], stores[n].pending[events[n].answered]);
    assert stores[n + 1] == Turn(stores[n], events[n]);
  }
}
