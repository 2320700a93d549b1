// Rates and one-time use over whole runs of sign-ins and factor checks, sweeps
// included.

module ThrottleRuns {
  import opened Basics
  import opened Throttles

  datatype Event =
    | SignIn(username: string, digest: string, password: Password, now: int)
    | CheckFactor(reviewer: string, secret: string, code: string, now: int)
    | ResetFactor(reviewer: string, now: int)

  // At the very second of the epoch the earliest time step would be negative.
  predicate ClockStarted(now: int) { now >= SECOND }

  function Matched(codes: Generator, e: Event): Option<nat>
    requires e.CheckFactor? && ClockStarted(e.now)
  {
    MatchingCounter(codes, e.secret, e.code, e.now / SECOND)
  }

  function After(codes: Generator, table: Table, e: Event): Table
    requires ClockStarted(e.now)
  {
    match e
    case SignIn(username, digest, password, now) => LoginTable(table, username, digest, password, now)
    case CheckFactor(reviewer, _, _, now) => MfaTable(table, reviewer, Matched(codes, e), now)
    case ResetFactor(reviewer, _) => Cleared(table, MfaKey(reviewer))
  }

  // From an empty table, under a clock that never runs back.
  ghost predicate Run(codes: Generator, tables: seq<Table>, events: seq<Event>)
  {
    && |tables| == |events| + 1 && tables[0] == map[]
    && (forall i :: 0 <= i < |events| ==> ClockStarted(events[i].now) && tables[i + 1] == After(codes, tables[i], events[i]))
    && (forall i, j :: 0 <= i <= j < |events| ==> events[i].now <= events[j].now)
  }

  // ---- Which rows an event touches ----

  function RowAt(table: Table, key: Key): Option<ThrottleRow>
  {
    if Text(key) in table then Some(table[Text(key)]) else None
  }

  function SweptRow(row: Option<ThrottleRow>, now: int): Option<ThrottleRow>
  {
    if row.Some? && Stale(row.value, now) then None else row
  }

  function RowOr(row: Option<ThrottleRow>, now: int): ThrottleRow
  {
    row.GetOr(ThrottleRow(0, None, now))
  }

  lemma SourceRowAfterSignIn(table: Table, username: string, digest: string, password: Password, now: int, d: string)
    ensures var after := LoginTable(table, username, digest, password, now);
            var swept := SweptRow(RowAt(table, SourceKey(d)), now);
      && RowAt(after, SourceKey(d)) == (if d == digest then Some(SourceRow(RowOr(swept, now), now)) else swept)
      && (d == digest ==> SourceAdmitted(Swept(table, now), digest, now) == SourceAdmits(RowOr(swept, now), now))
  {
    hide Text;
    DifferentKeys(SourceKey(d), LoginKey(username));
    if d != digest { DifferentKeys(SourceKey(d), SourceKey(digest)); }
  }

  lemma SourceRowAfterFactor(table: Table, reviewer: string, matched: Option<nat>, now: int, d: string)
    ensures RowAt(MfaTable(table, reviewer, matched, now), SourceKey(d)) == RowAt(table, SourceKey(d))
    ensures RowAt(Cleared(table, MfaKey(reviewer)), SourceKey(d)) == RowAt(table, SourceKey(d))
  {
    hide Text;
    DifferentKeys(SourceKey(d), MfaKey(reviewer));
    if matched.Some? { DifferentKeys(SourceKey(d), UsedKey(reviewer, matched.value)); }
  }

  lemma OtherRowsAfterSignIn(table: Table, username: string, digest: string, password: Password, now: int, key: Key)
    requires key.MfaKey? || key.UsedKey?
    ensures RowAt(LoginTable(table, username, digest, password, now), key) == SweptRow(RowAt(table, key), now)
  {
    hide Text;
    DifferentKeys(key, LoginKey(username));
    DifferentKeys(key, SourceKey(digest));
  }

  lemma UsedRowAfterFactor(table: Table, reviewer: string, matched: Option<nat>, now: int, key: Key)
    requires key.UsedKey?
    ensures RowAt(table, key).Some? ==> RowAt(MfaTable(table, reviewer, matched, now), key) == RowAt(table, key)
    ensures RowAt(Cleared(table, MfaKey(reviewer)), key) == RowAt(table, key)
    ensures MfaOutcome(table, reviewer, matched, now) == MfaAccepted && matched.Some? && key == UsedKey(reviewer, matched.value) ==>
              RowAt(MfaTable(table, reviewer, matched, now), key) == Some(ThrottleRow(0, None, now))
  {
    hide Text;
    DifferentKeys(key, MfaKey(reviewer));
    if matched.Some? {
      if key != UsedKey(reviewer, matched.value) { DifferentKeys(key, UsedKey(reviewer, matched.value)); }
    }
  }

  // ---- A code is accepted once (section 5.2 of RFC 6238) ----

  ghost predicate AcceptedAt(codes: Generator, tables: seq<Table>, events: seq<Event>, i: nat, reviewer: string,
                             counter: nat)
    requires Run(codes, tables, events) && i < |events|
  {
    && events[i].CheckFactor? && events[i].reviewer == reviewer && Matched(codes, events[i]) == Some(counter)
    && MfaOutcome(tables[i], reviewer, Some(counter), events[i].now) == MfaAccepted
  }

  // The used-code row survives every sweep for as long as its code could match.
  lemma {:induction false} UsedRowKept(codes: Generator, tables: seq<Table>, events: seq<Event>, i: nat, j: nat,
                                       reviewer: string, counter: nat)
    requires Run(codes, tables, events) && i < j < |tables|
    requires AcceptedAt(codes, tables, events, i, reviewer, counter)
    requires events[j - 1].now <= events[i].now + STALE_WINDOW
    ensures RowAt(tables[j], UsedKey(reviewer, counter)) == Some(ThrottleRow(0, None, events[i].now))
    decreases j
  {
    hide RowAt, MfaTable, LoginTable, Cleared, MfaOutcome, MatchingCounter;
    var key := UsedKey(reviewer, counter);
    var e := events[j - 1];
    assert tables[j] == After(codes, tables[j - 1], e);
    if i + 1 == j {
      UsedRowAfterFactor(tables[i], reviewer, Some(counter), e.now, key);
    } else {
      UsedRowKept(codes, tables, events, i, j - 1, reviewer, counter);
      match e
      case SignIn(username, digest, password, now) =>
        OtherRowsAfterSignIn(tables[j - 1], username, digest, password, now, key);
      case CheckFactor(r, _, _, now) => UsedRowAfterFactor(tables[j - 1], r, Matched(codes, e), now, key);
      case ResetFactor(r, _) => UsedRowAfterFactor(tables[j - 1], r, None, e.now, key);
    }
  }

  // The window in which one counter can match is far shorter than the sweep age.
  lemma MatchesAreClose(codes: Generator, a: Event, b: Event, counter: nat)
    requires a.CheckFactor? && b.CheckFactor? && ClockStarted(a.now) && ClockStarted(b.now)
    requires Matched(codes, a) == Some(counter) && Matched(codes, b) == Some(counter)
    ensures b.now - a.now < 91 * SECOND
  {
    assert a.now / SECOND - 60 < counter * MFA_PERIOD_SECONDS <= a.now / SECOND + 30;
    assert b.now / SECOND - 60 < counter * MFA_PERIOD_SECONDS <= b.now / SECOND + 30;
  }

  lemma CodeAcceptedOnce(codes: Generator, tables: seq<Table>, events: seq<Event>, i: nat, j: nat, reviewer: string,
                         counter: nat)
    requires Run(codes, tables, events) && i < |events| && j < |events|
    requires AcceptedAt(codes, tables, events, i, reviewer, counter)
    requires AcceptedAt(codes, tables, events, j, reviewer, counter)
    ensures i == j
  {
    hide MatchingCounter, MfaTable, LoginTable;
    if i != j {
      var first, second := if i < j then i else j, if i < j then j else i;
      MatchesAreClose(codes, events[first], events[second], counter);
      assert events[second - 1].now <= events[second].now;
      UsedRowKept(codes, tables, events, first, second, reviewer, counter);
    }
  }

  // ---- Rates ----

  // How many windows can open in a stretch of time.
  function Windows(x: int): (n: nat)
  {
    if x < 0 then 0 else x / LOCKOUT + 1
  }

  lemma WindowsGrow(x: int, y: int)
    requires x <= y
    ensures Windows(x) <= Windows(y)
  {
  }

  lemma OneMoreWindow(x: int)
    requires x >= 0
    ensures Windows(x) == Windows(x - LOCKOUT) + 1
  {
  }

  function Later(a: int, b: int): int { if a < b then b else a }

  // What one source can still be granted between t and the end, at most.
  function SourceCredit(row: Option<ThrottleRow>, t: int, end: int): int
  {
    match row
    case None => 30 * Windows(end - t)
    case Some(r) =>
      if r.lockedUntil.Some? then 30 * Windows(end - Later(r.lockedUntil.value, t))
      else (if r.failures < 30 then 30 - r.failures else 0) + 30 * Windows(end - Later(r.updatedAt + SOURCE_WINDOW, t))
  }

  predicate NotAhead(row: Option<ThrottleRow>, t: int) { row.Some? ==> row.value.updatedAt <= t }

  lemma SourceCreditFalls(row: Option<ThrottleRow>, t: int, u: int, end: int)
    requires t <= u
    ensures SourceCredit(row, u, end) <= SourceCredit(row, t, end)
  {
    hide Windows;
    WindowsGrow(end - u, end - t);
    if row.Some? {
      var r := row.value;
      WindowsGrow(end - Later(r.updatedAt + SOURCE_WINDOW, u), end - Later(r.updatedAt + SOURCE_WINDOW, t));
      if r.lockedUntil.Some? { WindowsGrow(end - Later(r.lockedUntil.value, u), end - Later(r.lockedUntil.value, t)); }
    }
  }

  lemma SweepGrantsNothing(row: Option<ThrottleRow>, now: int, end: int)
    ensures SourceCredit(SweptRow(row, now), now, end) <= SourceCredit(row, now, end)
  {
  }

  // Each admission is paid for.
  lemma SourceStep(row: Option<ThrottleRow>, now: int, end: int)
    requires NotAhead(row, now) && now <= end
    ensures var base := RowOr(row, now); var after := SourceRow(base, now);
            (if SourceAdmits(base, now) then 1 else 0) + SourceCredit(Some(after), now, end) <= SourceCredit(row, now, end)
    ensures NotAhead(Some(SourceRow(RowOr(row, now), now)), now)
  {
    hide Windows;
    OneMoreWindow(end - now);
    var base := RowOr(row, now);
    WindowsGrow(end - (now + LOCKOUT), end - Later(base.updatedAt + SOURCE_WINDOW, now));
    if base.lockedUntil.Some? { WindowsGrow(end - (now + LOCKOUT), end - now); }
  }

  lemma SourceCreditAtMost(row: Option<ThrottleRow>, t: int, end: int)
    requires t <= end
    ensures SourceCredit(row, t, end) <= 30 * (Windows(end - t) + 1)
  {
    hide Windows;
    if row.Some? {
      var r := row.value;
      WindowsGrow(end - Later(r.updatedAt + SOURCE_WINDOW, t), end - t);
      if r.lockedUntil.Some? { WindowsGrow(end - Later(r.lockedUntil.value, t), end - t); }
    }
  }

  predicate Admits(table: Table, e: Event, digest: string)
  {
    e.SignIn? && e.digest == digest && SourceAdmitted(Swept(table, e.now), digest, e.now)
  }

  ghost function Admissions(codes: Generator, tables: seq<Table>, events: seq<Event>, lo: nat, hi: nat,
                            digest: string): nat
    requires Run(codes, tables, events) && lo <= hi <= |events|
    decreases hi
  {
    if lo == hi then 0
    else Admissions(codes, tables, events, lo, hi - 1, digest) + if Admits(tables[hi - 1], events[hi - 1], digest) then 1 else 0
  }

  lemma SourceEvent(codes: Generator, table: Table, e: Event, end: int, digest: string)
    requires ClockStarted(e.now) && e.now <= end && NotAhead(RowAt(table, SourceKey(digest)), e.now)
    ensures var row, after := RowAt(table, SourceKey(digest)), RowAt(After(codes, table, e), SourceKey(digest));
      && (if Admits(table, e, digest) then 1 else 0) + SourceCredit(after, e.now, end) <= SourceCredit(row, e.now, end)
      && NotAhead(after, e.now)
  {
    hide RowAt, SourceRow, SourceAdmits, SourceCredit, LoginTable, MfaTable, Cleared, SourceAdmitted, Swept, Stale,
         MatchingCounter;
    var row := RowAt(table, SourceKey(digest));
    match e
    case SignIn(username, d, password, now) =>
      SourceRowAfterSignIn(table, username, d, password, now, digest);
      SweepGrantsNothing(row, now, end);
      if d == digest { SourceStep(SweptRow(row, now), now, end); }
    case CheckFactor(reviewer, _, _, now) => SourceRowAfterFactor(table, reviewer, Matched(codes, e), now, digest);
    case ResetFactor(reviewer, _) => SourceRowAfterFactor(table, reviewer, None, e.now, digest);
  }

  lemma {:induction false} RowsNotAhead(codes: Generator, tables: seq<Table>, events: seq<Event>, n: nat,
                                        digest: string)
    requires Run(codes, tables, events) && n < |events|
    ensures NotAhead(RowAt(tables[n], SourceKey(digest)), events[n].now)
  {
    hide After;
    if n > 0 {
      RowsNotAhead(codes, tables, events, n - 1, digest);
      assert tables[n - 1 + 1] == After(codes, tables[n - 1], events[n - 1]);
      SourceEvent(codes, tables[n - 1], events[n - 1], events[n - 1].now, digest);
    }
  }

  lemma {:induction false} AdmissionsPaid(codes: Generator, tables: seq<Table>, events: seq<Event>, lo: nat, hi: nat,
                                          digest: string, end: int)
    requires Run(codes, tables, events) && lo < hi <= |events| && events[hi - 1].now <= end
    ensures Admissions(codes, tables, events, lo, hi, digest)
            + SourceCredit(RowAt(tables[hi], SourceKey(digest)), events[hi - 1].now, end)
            <= SourceCredit(RowAt(tables[lo], SourceKey(digest)), events[lo].now, end)
    decreases hi
  {
    hide After, SourceCredit, RowAt, Admits;
    var n := hi - 1;
    assert tables[n + 1] == After(codes, tables[n], events[n]);
    RowsNotAhead(codes, tables, events, n, digest);
    SourceEvent(codes, tables[n], events[n], end, digest);
    if lo < n {
      assert events[n - 1].now <= events[n].now;
      AdmissionsPaid(codes, tables, events, lo, n, digest, end);
      SourceCreditFalls(RowAt(tables[n], SourceKey(digest)), events[n - 1].now, events[n].now, end);
    } else {
      assert Admissions(codes, tables, events, lo, n, digest) == 0;
    }
  }

  // One source gets at most 30 * (L / 60 + 2) sign-ins admitted in L seconds.
  lemma SourceRateBound(codes: Generator, tables: seq<Table>, events: seq<Event>, lo: nat, hi: nat, digest: string,
                        seconds: nat)
    requires Run(codes, tables, events) && lo < hi <= |events|
    requires events[hi - 1].now - events[lo].now <= seconds * SECOND
    ensures Admissions(codes, tables, events, lo, hi, digest) <= 30 * (seconds / 60 + 2)
  {
    hide SourceCredit, RowAt, Admits, After;
    var end := events[lo].now + seconds * SECOND;
    AdmissionsPaid(codes, tables, events, lo, hi, digest, end);
    SourceCreditAtMost(RowAt(tables[lo], SourceKey(digest)), events[lo].now, end);
    CreditNotNegative(RowAt(tables[hi], SourceKey(digest)), events[hi - 1].now, end);
    MinutesOf(seconds);
  }

  lemma CreditNotNegative(row: Option<ThrottleRow>, t: int, end: int)
    ensures SourceCredit(row, t, end) >= 0
  {
  }

  lemma MinutesOf(seconds: nat)
    ensures Windows(seconds * SECOND) == seconds / 60 + 1
  {
    var q, r := seconds / 60, seconds % 60;
    assert seconds == 60 * q + r;
    assert seconds * SECOND == q * LOCKOUT + r * SECOND;
    assert (seconds * SECOND) / LOCKOUT == q;
  }

  // One source's row after attempts at the given times.
  function AfterAttempts(start: int, times: seq<int>): ThrottleRow
  {
    if times == [] then ThrottleRow(0, None, start)
    else SourceRow(AfterAttempts(start, times[..|times| - 1]), times[|times| - 1])
  }

  // The bound is not met by refusing too soon: of the attempts in one window
  // exactly the first thirty are admitted.
  lemma {:induction false} WindowAdmitsThirty(start: int, times: seq<int>)
    requires forall i :: 0 <= i < |times| ==> start <= times[i] < start + SOURCE_WINDOW
    ensures forall k :: 0 <= k < |times| ==> (SourceAdmits(AfterAttempts(start, times[..k]), times[k]) <==> k < 30)
    ensures var row := AfterAttempts(start, times);
            if |times| <= 30 then row == ThrottleRow(|times|, None, start)
            else row.lockedUntil.Some? && row.lockedUntil.value >= start + LOCKOUT
  {
    if times != [] {
      var n := |times| - 1;
      WindowAdmitsThirty(start, times[..n]);
      forall k | 0 <= k < |times| ensures SourceAdmits(AfterAttempts(start, times[..k]), times[k]) <==> k < 30 {
        if k < n { assert times[..n][..k] == times[..k]; }
      }
    }
  }

  // ---- Wrong factor codes ----

  // What one reviewer can still get wrong between t and the end. A row that
  // stays quiet for an hour may be swept, which forgives its failures.
  function MfaCredit(row: Option<ThrottleRow>, t: int, end: int): int
  {
    match row
    case None => 5 * Windows(end - t)
    case Some(r) =>
      if r.lockedUntil.Some? then 5 * Windows(end - Later(r.lockedUntil.value, t))
      else
        var now := (if t <= end && r.failures < 5 then 5 - r.failures else 0) + 5 * Windows(end - t - LOCKOUT);
        var swept := 5 * Windows(end - Later(r.updatedAt + STALE_WINDOW, t));
        Later(now, swept)
  }

  // An unlocked row has failures to spare.
  predicate MfaRowOk(row: Option<ThrottleRow>, t: int)
  {
    row.Some? ==> row.value.updatedAt <= t && (row.value.lockedUntil.None? ==> row.value.failures < 5)
  }

  lemma MfaCreditFalls(row: Option<ThrottleRow>, t: int, u: int, end: int)
    requires t <= u && MfaRowOk(row, t)
    ensures MfaCredit(row, u, end) <= MfaCredit(row, t, end)
  {
    hide Windows;
    WindowsGrow(end - u, end - t);
    WindowsGrow(end - u - LOCKOUT, end - t - LOCKOUT);
    if row.Some? {
      var r := row.value;
      WindowsGrow(end - Later(r.updatedAt + STALE_WINDOW, u), end - Later(r.updatedAt + STALE_WINDOW, t));
      if r.lockedUntil.Some? { WindowsGrow(end - Later(r.lockedUntil.value, u), end - Later(r.lockedUntil.value, t)); }
    }
  }

  lemma MfaSweepGrantsNothing(row: Option<ThrottleRow>, now: int, end: int)
    requires MfaRowOk(row, now)
    ensures MfaCredit(SweptRow(row, now), now, end) <= MfaCredit(row, now, end)
    ensures MfaRowOk(SweptRow(row, now), now)
  {
    hide Windows;
  }

  // The row a failed, evaluated attempt leaves.
  function WrongRow(row: ThrottleRow, now: int): ThrottleRow
  {
    var w := MfaWindow(row, now);
    ThrottleRow(w.failures + 1, if w.failures + 1 >= MFA_MAX_FAILED then Some(now + LOCKOUT) else None, now)
  }

  lemma WrongIsPaid(row: Option<ThrottleRow>, now: int, end: int)
    requires MfaRowOk(row, now) && now <= end && !LockedAt(RowOr(row, now), now)
    ensures 1 + MfaCredit(Some(WrongRow(RowOr(row, now), now)), now, end) <= MfaCredit(row, now, end)
    ensures MfaRowOk(Some(WrongRow(RowOr(row, now), now)), now)
  {
    hide Windows;
    OneMoreWindow(end - now);
    WindowsGrow(end - now - STALE_WINDOW, end - now - LOCKOUT);
  }

  lemma MfaFetchIsFree(row: Option<ThrottleRow>, now: int, end: int)
    requires MfaRowOk(row, now) && now <= end
    ensures MfaCredit(Some(RowOr(row, now)), now, end) <= MfaCredit(row, now, end)
    ensures MfaRowOk(Some(RowOr(row, now)), now)
  {
    hide Windows;
    OneMoreWindow(end - now);
    WindowsGrow(end - now - STALE_WINDOW, end - now - LOCKOUT);
  }

  predicate Wrong(codes: Generator, table: Table, e: Event, reviewer: string)
    requires ClockStarted(e.now)
  {
    e.CheckFactor? && e.reviewer == reviewer &&
    MfaOutcome(table, reviewer, Matched(codes, e), e.now) in {MfaInvalid, MfaInvalidAndLocked}
  }

  // Neither a success nor an administrator's reset.
  predicate KeepsCount(codes: Generator, table: Table, e: Event, reviewer: string)
    requires ClockStarted(e.now)
  {
    match e
    case CheckFactor(r, _, _, now) => r == reviewer ==> MfaOutcome(table, r, Matched(codes, e), now) != MfaAccepted
    case ResetFactor(r, _) => r != reviewer
    case SignIn(_, _, _, _) => true
  }

  lemma MfaRowAfterFactor(table: Table, r: string, matched: Option<nat>, now: int, reviewer: string)
    ensures r != reviewer ==> RowAt(MfaTable(table, r, matched, now), MfaKey(reviewer)) == RowAt(table, MfaKey(reviewer))
    ensures r != reviewer ==> RowAt(Cleared(table, MfaKey(r)), MfaKey(reviewer)) == RowAt(table, MfaKey(reviewer))
    ensures r == reviewer ==>
      var before, after := RowOr(RowAt(table, MfaKey(reviewer)), now), RowAt(MfaTable(table, r, matched, now), MfaKey(reviewer));
      match MfaOutcome(table, r, matched, now)
      case MfaLocked => after == Some(before)
      case MfaAccepted => true
      case _ => !LockedAt(before, now) && after == Some(WrongRow(before, now))
  {
    hide Text;
    if r != reviewer { DifferentKeys(MfaKey(reviewer), MfaKey(r)); }
    if matched.Some? { DifferentKeys(MfaKey(reviewer), UsedKey(r, matched.value)); }
  }

  lemma MfaEvent(codes: Generator, table: Table, e: Event, end: int, reviewer: string)
    requires ClockStarted(e.now) && e.now <= end && MfaRowOk(RowAt(table, MfaKey(reviewer)), e.now)
    requires KeepsCount(codes, table, e, reviewer)
    ensures var row, after := RowAt(table, MfaKey(reviewer)), RowAt(After(codes, table, e), MfaKey(reviewer));
      && (if Wrong(codes, table, e, reviewer) then 1 else 0) + MfaCredit(after, e.now, end) <= MfaCredit(row, e.now, end)
      && MfaRowOk(after, e.now)
  {
    hide RowAt, WrongRow, MfaCredit, LoginTable, MfaTable, Cleared, Stale, MatchingCounter, MfaOutcome, RowOr,
         MfaRowOk, LockedAt;
    var row := RowAt(table, MfaKey(reviewer));
    match e
    case SignIn(username, d, password, now) =>
      OtherRowsAfterSignIn(table, username, d, password, now, MfaKey(reviewer));
      MfaSweepGrantsNothing(row, now, end);
    case CheckFactor(r, _, _, now) =>
      MfaRowAfterFactor(table, r, Matched(codes, e), now, reviewer);
      if r == reviewer {
        MfaFetchIsFree(row, now, end);
        if Wrong(codes, table, e, reviewer) { WrongIsPaid(row, now, end); }
      }
    case ResetFactor(r, _) => MfaRowAfterFactor(table, r, None, e.now, reviewer);
  }

  lemma {:induction false} MfaRowsOk(codes: Generator, tables: seq<Table>, events: seq<Event>, n: nat, reviewer: string)
    requires Run(codes, tables, events) && n < |events|
    ensures MfaRowOk(RowAt(tables[n], MfaKey(reviewer)), events[n].now)
  {
    hide MfaTable, LoginTable, Cleared, MatchingCounter, MfaCredit;
    if n > 0 {
      MfaRowsOk(codes, tables, events, n - 1, reviewer);
      var e := events[n - 1];
      assert tables[n - 1 + 1] == After(codes, tables[n - 1], e);
      if KeepsCount(codes, tables[n - 1], e, reviewer) {
        MfaEvent(codes, tables[n - 1], e, e.now, reviewer);
      } else {
        ClearedRowGone(codes, tables[n - 1], e, reviewer);
      }
    }
  }

  lemma ClearedRowGone(codes: Generator, table: Table, e: Event, reviewer: string)
    requires ClockStarted(e.now) && !KeepsCount(codes, table, e, reviewer)
    ensures RowAt(After(codes, table, e), MfaKey(reviewer)).None?
  {
    hide Text, MatchingCounter;
  }

  ghost function WrongCodes(codes: Generator, tables: seq<Table>, events: seq<Event>, lo: nat, hi: nat,
                            reviewer: string): nat
    requires Run(codes, tables, events) && lo <= hi <= |events|
    decreases hi
  {
    if lo == hi then 0
    else WrongCodes(codes, tables, events, lo, hi - 1, reviewer) + if Wrong(codes, tables[hi - 1], events[hi - 1], reviewer) then 1 else 0
  }

  lemma {:induction false} WrongCodesPaid(codes: Generator, tables: seq<Table>, events: seq<Event>, lo: nat, hi: nat,
                                          reviewer: string, end: int)
    requires Run(codes, tables, events) && lo < hi <= |events| && events[hi - 1].now <= end
    requires forall i :: lo <= i < hi ==> KeepsCount(codes, tables[i], events[i], reviewer)
    ensures WrongCodes(codes, tables, events, lo, hi, reviewer)
            + MfaCredit(RowAt(tables[hi], MfaKey(reviewer)), events[hi - 1].now, end)
            <= MfaCredit(RowAt(tables[lo], MfaKey(reviewer)), events[lo].now, end)
    decreases hi
  {
    hide After, MfaCredit, RowAt, Wrong, KeepsCount;
    var n := hi - 1;
    assert tables[n + 1] == After(codes, tables[n], events[n]);
    MfaRowsOk(codes, tables, events, n, reviewer);
    assert events[n].now <= end;
    MfaEvent(codes, tables[n], events[n], end, reviewer);
    if lo < n {
      assert events[n - 1].now <= events[n].now;
      WrongCodesPaid(codes, tables, events, lo, n, reviewer, end);
      RowOkBetween(codes, tables, events, n, reviewer);
      MfaCreditFalls(RowAt(tables[n], MfaKey(reviewer)), events[n - 1].now, events[n].now, end);
    } else {
      assert WrongCodes(codes, tables, events, lo, n, reviewer) == 0;
    }
  }

  lemma RowOkBetween(codes: Generator, tables: seq<Table>, events: seq<Event>, n: nat, reviewer: string)
    requires Run(codes, tables, events) && 0 < n < |events|
    ensures MfaRowOk(RowAt(tables[n], MfaKey(reviewer)), events[n - 1].now)
  {
    hide MfaTable, LoginTable, Cleared, MatchingCounter, MfaCredit;
    MfaRowsOk(codes, tables, events, n - 1, reviewer);
    var e := events[n - 1];
    assert tables[n - 1 + 1] == After(codes, tables[n - 1], e);
    if KeepsCount(codes, tables[n - 1], e, reviewer) {
      MfaEvent(codes, tables[n - 1], e, e.now, reviewer);
    } else {
      ClearedRowGone(codes, tables[n - 1], e, reviewer);
    }
  }

  lemma MfaCreditAtMost(row: Option<ThrottleRow>, t: int, end: int)
    requires t <= end && MfaRowOk(row, t)
    ensures 0 <= MfaCredit(row, t, end) <= 5 * Windows(end - t)
  {
    hide Windows;
    OneMoreWindow(end - t);
    if row.Some? {
      var r := row.value;
      WindowsGrow(end - Later(r.updatedAt + STALE_WINDOW, t), end - t);
      if r.lockedUntil.Some? { WindowsGrow(end - Later(r.lockedUntil.value, t), end - t); }
    }
  }

  lemma MfaCreditNotNegative(row: Option<ThrottleRow>, t: int, end: int)
    ensures 0 <= MfaCredit(row, t, end)
  {
  }

  // Without a success or a reset in between, one reviewer gets at most
  // 5 * (L / 60 + 1) wrong codes evaluated in L seconds, whatever is swept.
  lemma WrongCodeBound(codes: Generator, tables: seq<Table>, events: seq<Event>, lo: nat, hi: nat, reviewer: string,
                       seconds: nat)
    requires Run(codes, tables, events) && lo < hi <= |events|
    requires events[hi - 1].now - events[lo].now <= seconds * SECOND
    requires forall i :: lo <= i < hi ==> KeepsCount(codes, tables[i], events[i], reviewer)
    ensures WrongCodes(codes, tables, events, lo, hi, reviewer) <= 5 * (seconds / 60 + 1)
  {
    hide MfaCredit, RowAt, Wrong, KeepsCount, After;
    var end := events[lo].now + seconds * SECOND;
    WrongCodesPaid(codes, tables, events, lo, hi, reviewer, end);
    MfaRowsOk(codes, tables, events, lo, reviewer);
    MfaCreditAtMost(RowAt(tables[lo], MfaKey(reviewer)), events[lo].now, end);
    MfaCreditNotNegative(RowAt(tables[hi], MfaKey(reviewer)), events[hi - 1].now, end);
    MinutesOf(seconds);
  }

  // ---- Wrong passwords ----

  // Four failures are free of delay; from the fifth on, each costs a lockout.
  // A row left quiet for an hour may be swept, which forgives its failures.
  function PasswordCredit(row: Option<ThrottleRow>, t: int, end: int): int
  {
    match row
    case None => 4 + Windows(end - t)
    case Some(r) =>
      var now := (if r.failures < 4 then 4 - r.failures else 0) +
                 Windows(end - if r.lockedUntil.Some? then Later(r.lockedUntil.value, t) else t);
      Later(now, if end < r.updatedAt + STALE_WINDOW then 0 else 4 + Windows(end - Later(r.updatedAt + STALE_WINDOW, t)))
  }

  predicate PasswordRowOk(row: Option<ThrottleRow>, t: int)
  {
    row.Some? ==> row.value.updatedAt <= t && (row.value.lockedUntil.Some? ==> row.value.failures >= 5)
  }

  lemma PasswordCreditFalls(row: Option<ThrottleRow>, t: int, u: int, end: int)
    requires t <= u
    ensures PasswordCredit(row, u, end) <= PasswordCredit(row, t, end)
  {
    hide Windows;
    WindowsGrow(end - u, end - t);
    if row.Some? {
      var r := row.value;
      WindowsGrow(end - Later(r.updatedAt + STALE_WINDOW, u), end - Later(r.updatedAt + STALE_WINDOW, t));
      if r.lockedUntil.Some? { WindowsGrow(end - Later(r.lockedUntil.value, u), end - Later(r.lockedUntil.value, t)); }
    }
  }

  lemma PasswordSweepGrantsNothing(row: Option<ThrottleRow>, now: int, end: int)
    requires PasswordRowOk(row, now) && now <= end
    ensures PasswordCredit(SweptRow(row, now), now, end) <= PasswordCredit(row, now, end)
    ensures PasswordRowOk(SweptRow(row, now), now)
  {
    hide Windows;
  }

  lemma PasswordFetchIsFree(row: Option<ThrottleRow>, now: int, end: int)
    requires PasswordRowOk(row, now) && now <= end
    ensures PasswordCredit(Some(RowOr(row, now)), now, end) <= PasswordCredit(row, now, end)
    ensures PasswordRowOk(Some(RowOr(row, now)), now)
  {
    hide Windows;
    WindowsGrow(end - now - STALE_WINDOW, end - now);
  }

  // An hour holds more windows than there are free failures.
  lemma HourHoldsWindows(x: int)
    requires x >= STALE_WINDOW
    ensures Windows(x - STALE_WINDOW) + 60 == Windows(x)
  {
    assert x / LOCKOUT == (x - STALE_WINDOW) / LOCKOUT + 60;
  }

  lemma WrongPasswordIsPaid(row: ThrottleRow, now: int, end: int)
    requires PasswordRowOk(Some(row), now) && now <= end && !LockedAt(row, now)
    ensures 1 + PasswordCredit(Some(FailureRow(row, now)), now, end) <= PasswordCredit(Some(row), now, end)
    ensures PasswordRowOk(Some(FailureRow(row, now)), now)
  {
    hide Windows;
    OneMoreWindow(end - now);
    if end >= now + STALE_WINDOW { HourHoldsWindows(end - now); }
  }

  lemma LoginRowAfter(table: Table, username: string, digest: string, password: Password, now: int, name: string)
    ensures var before := SweptRow(RowAt(table, LoginKey(name)), now);
            var after := RowAt(LoginTable(table, username, digest, password, now), LoginKey(name));
      if username != name then after == before
      else match LoginOutcome(table, username, digest, password, now)
        case SourceLimited => after == before
        case UsernameLocked => after == Some(RowOr(before, now))
        case Busy => after == Some(RowOr(before, now))
        case Unauthorized => !LockedAt(RowOr(before, now), now) && after == Some(FailureRow(RowOr(before, now), now))
        case SignedIn => after == None
  {
    hide Text, SourceRow, SourceAdmits;
    DifferentKeys(LoginKey(name), SourceKey(digest));
    if username != name { DifferentKeys(LoginKey(name), LoginKey(username)); }
  }

  lemma LoginRowAfterFactor(table: Table, reviewer: string, matched: Option<nat>, now: int, name: string)
    ensures RowAt(MfaTable(table, reviewer, matched, now), LoginKey(name)) == RowAt(table, LoginKey(name))
    ensures RowAt(Cleared(table, MfaKey(reviewer)), LoginKey(name)) == RowAt(table, LoginKey(name))
  {
    hide Text;
    DifferentKeys(LoginKey(name), MfaKey(reviewer));
    if matched.Some? { DifferentKeys(LoginKey(name), UsedKey(reviewer, matched.value)); }
  }

  predicate WrongPassword(table: Table, e: Event, name: string)
  {
    e.SignIn? && e.username == name && LoginOutcome(table, name, e.digest, e.password, e.now) == Unauthorized
  }

  predicate SignsIn(table: Table, e: Event, name: string)
  {
    e.SignIn? && e.username == name && LoginOutcome(table, name, e.digest, e.password, e.now) == SignedIn
  }

  lemma PasswordEvent(codes: Generator, table: Table, e: Event, end: int, name: string)
    requires ClockStarted(e.now) && e.now <= end && PasswordRowOk(RowAt(table, LoginKey(name)), e.now)
    ensures var row, after := RowAt(table, LoginKey(name)), RowAt(After(codes, table, e), LoginKey(name));
      && PasswordRowOk(after, e.now)
      && (!SignsIn(table, e, name) ==>
            (if WrongPassword(table, e, name) then 1 else 0) + PasswordCredit(after, e.now, end) <= PasswordCredit(row, e.now, end))
  {
    hide RowAt, PasswordCredit, LoginTable, LoginOutcome, MfaTable, Cleared, Stale, MatchingCounter, RowOr, LockedAt,
         FailureRow;
    var row := RowAt(table, LoginKey(name));
    match e
    case SignIn(username, digest, password, now) =>
      LoginRowAfter(table, username, digest, password, now, name);
      PasswordSweepGrantsNothing(row, now, end);
      var before := SweptRow(row, now);
      PasswordFetchIsFree(before, now, end);
      if WrongPassword(table, e, name) { WrongPasswordIsPaid(RowOr(before, now), now, end); }
    case CheckFactor(reviewer, _, _, now) => LoginRowAfterFactor(table, reviewer, Matched(codes, e), now, name);
    case ResetFactor(reviewer, _) => LoginRowAfterFactor(table, reviewer, None, e.now, name);
  }

  lemma {:induction false} PasswordRowsOk(codes: Generator, tables: seq<Table>, events: seq<Event>, n: nat,
                                          name: string)
    requires Run(codes, tables, events) && n < |events|
    ensures PasswordRowOk(RowAt(tables[n], LoginKey(name)), events[n].now)
  {
    hide After, SignsIn, WrongPassword, PasswordCredit;
    if n > 0 {
      PasswordRowsOk(codes, tables, events, n - 1, name);
      assert tables[n - 1 + 1] == After(codes, tables[n - 1], events[n - 1]);
      PasswordEvent(codes, tables[n - 1], events[n - 1], events[n - 1].now, name);
    }
  }

  ghost function WrongPasswords(codes: Generator, tables: seq<Table>, events: seq<Event>, lo: nat, hi: nat,
                                name: string): nat
    requires Run(codes, tables, events) && lo <= hi <= |events|
    decreases hi
  {
    if lo == hi then 0
    else WrongPasswords(codes, tables, events, lo, hi - 1, name) + if WrongPassword(tables[hi - 1], events[hi - 1], name) then 1 else 0
  }

  lemma {:induction false} WrongPasswordsPaid(codes: Generator, tables: seq<Table>, events: seq<Event>, lo: nat,
                                              hi: nat,
                                              name: string, end: int)
    requires Run(codes, tables, events) && lo < hi <= |events| && events[hi - 1].now <= end
    requires forall i :: lo <= i < hi ==> !SignsIn(tables[i], events[i], name)
    ensures WrongPasswords(codes, tables, events, lo, hi, name)
            + PasswordCredit(RowAt(tables[hi], LoginKey(name)), events[hi - 1].now, end)
            <= PasswordCredit(RowAt(tables[lo], LoginKey(name)), events[lo].now, end)
    decreases hi
  {
    hide After, PasswordCredit, RowAt, WrongPassword, SignsIn;
    var n := hi - 1;
    assert tables[n + 1] == After(codes, tables[n], events[n]);
    PasswordRowsOk(codes, tables, events, n, name);
    PasswordEvent(codes, tables[n], events[n], end, name);
    if lo < n {
      assert events[n - 1].now <= events[n].now;
      WrongPasswordsPaid(codes, tables, events, lo, n, name, end);
      PasswordCreditFalls(RowAt(tables[n], LoginKey(name)), events[n - 1].now, events[n].now, end);
    } else {
      assert WrongPasswords(codes, tables, events, lo, n, name) == 0;
    }
  }

  lemma PasswordCreditAtMost(row: Option<ThrottleRow>, t: int, end: int)
    requires t <= end
    ensures 0 <= PasswordCredit(row, t, end) <= 4 + Windows(end - t)
  {
    hide Windows;
    if row.Some? {
      var r := row.value;
      WindowsGrow(end - Later(r.updatedAt + STALE_WINDOW, t), end - t);
      if r.lockedUntil.Some? { WindowsGrow(end - Later(r.lockedUntil.value, t), end - t); }
    }
  }

  lemma PasswordCreditNotNegative(row: Option<ThrottleRow>, t: int, end: int)
    ensures 0 <= PasswordCredit(row, t, end)
  {
  }

  // Without a sign-in in between, one username gets at most 5 + L / 60 wrong
  // passwords checked in L seconds, from any number of sources.
  lemma WrongPasswordBound(codes: Generator, tables: seq<Table>, events: seq<Event>, lo: nat, hi: nat, name: string,
                           seconds: nat)
    requires Run(codes, tables, events) && lo < hi <= |events|
    requires events[hi - 1].now - events[lo].now <= seconds * SECOND
    requires forall i :: lo <= i < hi ==> !SignsIn(tables[i], events[i], name)
    ensures WrongPasswords(codes, tables, events, lo, hi, name) <= 5 + seconds / 60
  {
    hide PasswordCredit, RowAt, WrongPassword, SignsIn, After;
    var end := events[lo].now + seconds * SECOND;
    WrongPasswordsPaid(codes, tables, events, lo, hi, name, end);
    PasswordCreditAtMost(RowAt(tables[lo], LoginKey(name)), events[lo].now, end);
    PasswordCreditNotNegative(RowAt(tables[hi], LoginKey(name)), events[hi - 1].now, end);
    MinutesOf(seconds);
  }
}
