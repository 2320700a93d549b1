// The throttle table: failed sign-ins per username, admissions per network
// source, wrong codes per reviewer, and the one-time use of factor codes. One
// clock reading, in microseconds, serves each operation.

module Throttles {
  import opened Basics

  const SECOND := 1_000_000
  const MAX_FAILED_LOGINS := 5
  const LOCKOUT := 60 * SECOND
  const SOURCE_MAX_ATTEMPTS := 30
  const SOURCE_WINDOW := 60 * SECOND
  const MFA_MAX_FAILED := 5
  const MFA_PERIOD_SECONDS := 30
  const MFA_DIGITS := 6
  const STALE_WINDOW := 3600 * SECOND

  datatype ThrottleRow = ThrottleRow(failures: nat, lockedUntil: Option<int>, updatedAt: int)

  type Table = map<string, ThrottleRow>

  // ---- Key namespaces ----

  datatype Key = LoginKey(username: string) | SourceKey(digest: string) | MfaKey(reviewer: string)
               | UsedKey(reviewer: string, counter: nat)

  function Digit(n: nat): (c: char)
    requires n < 10
    ensures c != ':'
  {
    ['0', '1', '2', '3', '4', '5', '6', '7', '8', '9'][n]
  }

  function Decimal(n: nat): (s: string)
    ensures s != [] && ':' !in s
  {
    if n < 10 then [Digit(n)] else Decimal(n / 10) + [Digit(n % 10)]
  }

  function Text(key: Key): string
  {
    match key
    case LoginKey(username) => "login:" + username
    case SourceKey(digest) => "login-source:" + digest
    case MfaKey(reviewer) => "mfa:" + reviewer
    case UsedKey(reviewer, counter) => "mfa-used:" + reviewer + ":" + Decimal(counter)
  }

  lemma DigitInjective(m: nat, n: nat)
    requires m < 10 && n < 10 && Digit(m) == Digit(n)
    ensures m == n
  {
    var digits := ['0', '1', '2', '3', '4', '5', '6', '7', '8', '9'];
    assert forall i, j :: 0 <= i < j < 10 ==> digits[i] != digits[j];
  }

  lemma {:induction false} DecimalInjective(m: nat, n: nat)
    requires Decimal(m) == Decimal(n)
    ensures m == n
  {
    var s := Decimal(m);
    assert s[|s| - 1] == Digit(m % 10) == Digit(n % 10);
    DigitInjective(m % 10, n % 10);
    if m >= 10 && n >= 10 {
      assert Decimal(m / 10) == s[..|s| - 1] == Decimal(n / 10);
      DecimalInjective(m / 10, n / 10);
    }
  }

  // The last colon splits a used-code key in one way only.
  lemma SplitAtLastColon(a: string, x: string, b: string, y: string)
    requires a + ":" + x == b + ":" + y && ':' !in x && ':' !in y
    ensures a == b && x == y
  {
    var s := a + ":" + x;
    assert s[|a|] == ':' && s[|b|] == ':';
    forall i | |a| < i < |s| ensures s[i] != ':' { assert s[i] == x[i - |a| - 1]; }
    forall i | |b| < i < |s| ensures s[i] != ':' { assert s[i] == y[i - |b| - 1]; }
    assert |a| == |b|;
    assert a == s[..|a|] && b == s[..|b|];
    assert x == s[|a| + 1..] && y == s[|b| + 1..];
  }

  predicate SignInKey(key: Key) { key.LoginKey? || key.SourceKey? }

  lemma SignInKeysApart(j: Key, k: Key)
    requires SignInKey(j) && SignInKey(k) && Text(j) == Text(k)
    ensures j == k
  {
    var s := Text(j);
    assert s[5] == (if j.LoginKey? then ':' else '-');
    assert s[5] == (if k.LoginKey? then ':' else '-');
    if j.LoginKey? { assert j.username == s[6..] == k.username; } else { assert j.digest == s[13..] == k.digest; }
  }

  lemma FactorKeysApart(j: Key, k: Key)
    requires !SignInKey(j) && !SignInKey(k) && Text(j) == Text(k)
    ensures j == k
  {
    var s := Text(j);
    assert s[3] == (if j.MfaKey? then ':' else '-');
    assert s[3] == (if k.MfaKey? then ':' else '-');
    if j.MfaKey? { assert j.reviewer == s[4..] == k.reviewer; } else { UsedKeysApart(j, k); }
  }

  lemma UsedKeysApart(j: Key, k: Key)
    requires j.UsedKey? && k.UsedKey? && Text(j) == Text(k)
    ensures j == k
  {
    var s := Text(j);
    assert s[9..] == j.reviewer + ":" + Decimal(j.counter);
    assert s[9..] == k.reviewer + ":" + Decimal(k.counter);
    SplitAtLastColon(j.reviewer, Decimal(j.counter), k.reviewer, Decimal(k.counter));
    DecimalInjective(j.counter, k.counter);
  }

  lemma FirstLetter(key: Key)
    ensures |Text(key)| > 0 && Text(key)[0] == if SignInKey(key) then 'l' else 'm'
  {
  }

  // No attempted username, source or reviewer id can name another's row.
  lemma KeysNeverCollide(j: Key, k: Key)
    requires Text(j) == Text(k)
    ensures j == k
  {
    hide Text;
    FirstLetter(j);
    FirstLetter(k);
    if SignInKey(j) { SignInKeysApart(j, k); } else { FactorKeysApart(j, k); }
  }

  // ---- What each operation leaves ----

  function Ensured(table: Table, key: Key, now: int): (r: Table)
    ensures Text(key) in r
  {
    if Text(key) in table then table else table[Text(key) := ThrottleRow(0, None, now)]
  }

  predicate Stale(row: ThrottleRow, now: int)
  {
    row.updatedAt < now - STALE_WINDOW && (row.lockedUntil.None? || row.lockedUntil.value < now)
  }

  function Swept(table: Table, now: int): Table
  {
    map k | k in table && !Stale(table[k], now) :: table[k]
  }

  function Cleared(table: Table, key: Key): Table { table - {Text(key)} }

  predicate LockedAt(row: ThrottleRow, now: int) { row.lockedUntil.Some? && now < row.lockedUntil.value }

  // A lock that has elapsed opens a fresh window; so does an elapsed window.
  function SourceWindow(row: ThrottleRow, now: int): ThrottleRow
  {
    var open := if row.lockedUntil.Some? then ThrottleRow(0, None, now) else row;
    if now - open.updatedAt >= SOURCE_WINDOW then open.(failures := 0, updatedAt := now) else open
  }

  function SourceRow(row: ThrottleRow, now: int): ThrottleRow
  {
    if LockedAt(row, now) then row
    else
      var window := SourceWindow(row, now);
      if window.failures + 1 > SOURCE_MAX_ATTEMPTS
      then window.(failures := window.failures + 1, lockedUntil := Some(now + LOCKOUT))
      else window.(failures := window.failures + 1)
  }

  predicate SourceAdmits(row: ThrottleRow, now: int)
  {
    !LockedAt(row, now) && SourceWindow(row, now).failures < SOURCE_MAX_ATTEMPTS
  }

  function SourceConsumed(table: Table, digest: string, now: int): Table
  {
    var t := Ensured(table, SourceKey(digest), now);
    t[Text(SourceKey(digest)) := SourceRow(t[Text(SourceKey(digest))], now)]
  }

  predicate SourceAdmitted(table: Table, digest: string, now: int)
  {
    SourceAdmits(Ensured(table, SourceKey(digest), now)[Text(SourceKey(digest))], now)
  }

  function FailureRow(row: ThrottleRow, now: int): ThrottleRow
  {
    ThrottleRow(row.failures + 1, if row.failures + 1 >= MAX_FAILED_LOGINS then Some(now + LOCKOUT) else None, now)
  }

  function LoginFailed(table: Table, username: string, now: int): Table
  {
    var t := Ensured(table, LoginKey(username), now);
    t[Text(LoginKey(username)) := FailureRow(t[Text(LoginKey(username))], now)]
  }

  // What happens once the password check is reached.
  datatype Password = HashingBusy | Rejected | Accepted

  datatype LoginResult = SourceLimited | UsernameLocked | Busy | Unauthorized | SignedIn

  function LoginOutcome(table: Table, username: string, digest: string, password: Password, now: int): LoginResult
  {
    var swept := Swept(table, now);
    if !SourceAdmitted(swept, digest, now) then SourceLimited
    else
      var t := Ensured(SourceConsumed(swept, digest, now), LoginKey(username), now);
      if LockedAt(t[Text(LoginKey(username))], now) then UsernameLocked
      else match password case HashingBusy => Busy case Rejected => Unauthorized case Accepted => SignedIn
  }

  function LoginTable(table: Table, username: string, digest: string, password: Password, now: int): Table
  {
    var consumed := SourceConsumed(Swept(table, now), digest, now);
    match LoginOutcome(table, username, digest, password, now)
    case SourceLimited => consumed
    case UsernameLocked => Ensured(consumed, LoginKey(username), now)
    case Busy => Ensured(consumed, LoginKey(username), now)
    case Unauthorized => LoginFailed(consumed, username, now)
    case SignedIn => Cleared(consumed, LoginKey(username))
  }

  // ---- Factor codes (section 4 of RFC 6238) ----

  // The code a secret yields at a time-step counter.
  type Generator = (string, nat) -> string

  // The time step, rounded toward zero.
  function CounterAt(seconds: int): nat
    requires seconds > -MFA_PERIOD_SECONDS
  {
    if seconds < 0 then 0 else seconds / MFA_PERIOD_SECONDS
  }

  predicate WellFormedCode(code: string)
  {
    |code| == MFA_DIGITS && forall i :: 0 <= i < |code| ==> '0' <= code[i] <= '9'
  }

  // A step of drift either way, earliest first.
  predicate MatchesAt(codes: Generator, secret: string, code: string, seconds: int, drift: int)
    requires seconds >= 1 && -1 <= drift <= 1
  {
    codes(secret, CounterAt(seconds + drift * MFA_PERIOD_SECONDS)) == code
  }

  function MatchingCounter(codes: Generator, secret: string, code: string, seconds: int): (r: Option<nat>)
    requires seconds >= 1
    ensures r.Some? ==> WellFormedCode(code) && codes(secret, r.value) == code
    ensures r.None? <==> !WellFormedCode(code) || forall d :: -1 <= d <= 1 ==> !MatchesAt(codes, secret, code, seconds, d)
    ensures r.Some? ==> forall n: nat :: CounterAt(seconds - MFA_PERIOD_SECONDS) <= n < r.value ==> codes(secret, n) != code
    ensures r.Some? ==> seconds - 60 < r.value * MFA_PERIOD_SECONDS <= seconds + 30
  {
    if !WellFormedCode(code) then None
    else if MatchesAt(codes, secret, code, seconds, -1) then Some(CounterAt(seconds - MFA_PERIOD_SECONDS))
    else if MatchesAt(codes, secret, code, seconds, 0) then Some(CounterAt(seconds))
    else if MatchesAt(codes, secret, code, seconds, 1) then Some(CounterAt(seconds + MFA_PERIOD_SECONDS))
    else None
  }

  method FindMatchingCounter(codes: Generator, secret: string, code: string, seconds: int) returns (r: Option<nat>)
    requires seconds >= 1
    ensures r == MatchingCounter(codes, secret, code, seconds)
  {
    if !WellFormedCode(code) {
      return None;
    }
    for drift := -1 to 2
      invariant forall d :: -1 <= d < drift ==> !MatchesAt(codes, secret, code, seconds, d)
    {
      if codes(secret, CounterAt(seconds + drift * MFA_PERIOD_SECONDS)) == code {
        assert MatchesAt(codes, secret, code, seconds, drift);
        return Some(CounterAt(seconds + drift * MFA_PERIOD_SECONDS));
      }
    }
    assert !MatchesAt(codes, secret, code, seconds, 1);
    r := None;
  }

  datatype MfaResult = MfaLocked | MfaAccepted | MfaInvalid | MfaInvalidAndLocked

  function MfaWindow(row: ThrottleRow, now: int): ThrottleRow
  {
    if row.lockedUntil.Some? then ThrottleRow(0, None, now) else row
  }

  function MfaOutcome(table: Table, reviewer: string, matched: Option<nat>, now: int): MfaResult
  {
    var row := Ensured(table, MfaKey(reviewer), now)[Text(MfaKey(reviewer))];
    if LockedAt(row, now) then MfaLocked
    else if matched.Some? && Text(UsedKey(reviewer, matched.value)) !in table then MfaAccepted
    else if MfaWindow(row, now).failures + 1 >= MFA_MAX_FAILED then MfaInvalidAndLocked
    else MfaInvalid
  }

  function MfaTable(table: Table, reviewer: string, matched: Option<nat>, now: int): Table
  {
    var t := Ensured(table, MfaKey(reviewer), now);
    var row := MfaWindow(t[Text(MfaKey(reviewer))], now);
    match MfaOutcome(table, reviewer, matched, now)
    case MfaLocked => t
    case MfaAccepted =>
      if matched.None? then t
      else Cleared(t[Text(UsedKey(reviewer, matched.value)) := ThrottleRow(0, None, now)], MfaKey(reviewer))
    case MfaInvalid => t[Text(MfaKey(reviewer)) := ThrottleRow(row.failures + 1, None, now)]
    case MfaInvalidAndLocked =>
      t[Text(MfaKey(reviewer)) := ThrottleRow(row.failures + 1, Some(now + LOCKOUT), now)]
  }

  // ---- The operations as they update the stored rows ----

  class ThrottleStore {
    var rows: Table

    constructor ()
      ensures rows == map[]
    {
      rows := map[];
    }

    method FetchRow(key: Key, now: int) returns (row: ThrottleRow)
      modifies this
      ensures rows == Ensured(old(rows), key, now) && row == rows[Text(key)]
    {
      if Text(key) !in rows {
        rows := rows[Text(key) := ThrottleRow(0, None, now)];
      }
      row := rows[Text(key)];
    }

    method SweepStale(now: int)
      modifies this
      ensures rows == Swept(old(rows), now)
    {
      var todo := rows.Keys;
      ghost var before := rows;
      while todo != {}
        invariant todo <= before.Keys
        invariant forall k :: k in rows <==> k in before && (k in todo || !Stale(before[k], now))
        invariant forall k :: k in rows ==> rows[k] == before[k]
      {
        var k :| k in todo;
        todo := todo - {k};
        if Stale(rows[k], now) {
          rows := rows - {k};
        }
      }
    }

    method RecordLoginFailure(username: string, now: int)
      modifies this
      ensures rows == LoginFailed(old(rows), username, now)
    {
      var row := FetchRow(LoginKey(username), now);
      var failures := row.failures + 1;
      row := row.(failures := failures);
      row := row.(lockedUntil := if failures >= MAX_FAILED_LOGINS then Some(now + LOCKOUT) else None);
      row := row.(updatedAt := now);
      rows := rows[Text(LoginKey(username)) := row];
    }

    method ConsumeSourceAdmission(digest: string, now: int) returns (admitted: bool)
      modifies this
      ensures rows == SourceConsumed(old(rows), digest, now)
      ensures admitted == SourceAdmitted(old(rows), digest, now)
    {
      var key := Text(SourceKey(digest));
      var row := FetchRow(SourceKey(digest), now);
      ghost var fetched := row;
      if row.lockedUntil.Some? {
        if now < row.lockedUntil.value {
          assert rows[key := row] == rows;
          return false;
        }
        row := ThrottleRow(0, None, now);
      }
      if now - row.updatedAt >= SOURCE_WINDOW {
        row := row.(failures := 0, updatedAt := now);
      }
      assert row == SourceWindow(fetched, now);
      row := row.(failures := row.failures + 1);
      admitted := row.failures <= SOURCE_MAX_ATTEMPTS;
      if !admitted {
        row := row.(lockedUntil := Some(now + LOCKOUT));
      }
      rows := rows[key := row];
    }

    method ClearThrottle(key: Key)
      modifies this
      ensures rows == Cleared(old(rows), key)
    {
      rows := rows - {Text(key)};
    }

    method Login(username: string, digest: string, password: Password, now: int) returns (result: LoginResult)
      modifies this
      ensures rows == LoginTable(old(rows), username, digest, password, now)
      ensures result == LoginOutcome(old(rows), username, digest, password, now)
    {
      hide Swept, SourceConsumed, SourceAdmitted, Text, Cleared, FailureRow;
      SweepStale(now);
      var admitted := ConsumeSourceAdmission(digest, now);
      if !admitted {
        return SourceLimited;
      }
      var row := FetchRow(LoginKey(username), now);
      if row.lockedUntil.Some? && now < row.lockedUntil.value {
        return UsernameLocked;
      }
      match password {
        case HashingBusy => result := Busy;
        case Rejected =>
          RecordLoginFailure(username, now);
          result := Unauthorized;
        case Accepted =>
          ClearThrottle(LoginKey(username));
          assert rows == Cleared(SourceConsumed(Swept(old(rows), now), digest, now), LoginKey(username)) by {
            EnsureThenClear(SourceConsumed(Swept(old(rows), now), digest, now), LoginKey(username), now);
          }
          result := SignedIn;
      }
    }

    method VerifyMfaAttempt(reviewer: string, matched: Option<nat>, now: int) returns (result: MfaResult)
      modifies this
      ensures rows == MfaTable(old(rows), reviewer, matched, now)
      ensures result == MfaOutcome(old(rows), reviewer, matched, now)
    {
      hide Text;
      var key := Text(MfaKey(reviewer));
      var row := FetchRow(MfaKey(reviewer), now);
      if row.lockedUntil.Some? {
        if now < row.lockedUntil.value {
          return MfaLocked;
        }
        row := ThrottleRow(0, None, now);
      }
      if matched.Some? {
        var consumed := Text(UsedKey(reviewer, matched.value));
        assert consumed != key by { DifferentKeys(UsedKey(reviewer, matched.value), MfaKey(reviewer)); }
        if consumed !in rows {
          rows := rows[consumed := ThrottleRow(0, None, now)];
          ClearThrottle(MfaKey(reviewer));
          return MfaAccepted;
        }
      }
      row := row.(failures := row.failures + 1, updatedAt := now);
      if row.failures >= MFA_MAX_FAILED {
        row := row.(lockedUntil := Some(now + LOCKOUT));
        result := MfaInvalidAndLocked;
      } else {
        result := MfaInvalid;
      }
      rows := rows[key := row];
    }
  }

  lemma EnsureThenClear(table: Table, key: Key, now: int)
    ensures Cleared(Ensured(table, key, now), key) == Cleared(table, key)
  {
  }

  lemma DifferentKeys(j: Key, k: Key)
    requires j != k
    ensures Text(j) != Text(k)
  {
    if Text(j) == Text(k) { KeysNeverCollide(j, k); }
  }
}
