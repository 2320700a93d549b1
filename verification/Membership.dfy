// Matter membership and accounts: no matter loses its last active Senior
// counsel, and neither does the firm.

module Membership {
  import opened Basics
  import opened Domain

  datatype Account = Account(role: Role, active: bool)

  datatype Member = Member(role: Role, active: bool)

  // Members are keyed by matter, then reviewer.
  datatype Directory = Directory(cases: set<Id>, accounts: map<Id, Account>, members: map<(Id, Id), Member>)

  // A role as it arrives: absent, one of the four, or some other text.
  datatype RoleInput = Omitted | Known(role: Role) | Unknown

  // ---- What must be kept ----

  predicate ActiveSenior(d: Directory, r: Id)
  {
    r in d.accounts && d.accounts[r].active && d.accounts[r].role == SeniorCounsel
  }

  predicate HoldsSeat(d: Directory, k: Id, r: Id)
  {
    (k, r) in d.members && d.members[(k, r)].active && d.members[(k, r)].role == SeniorCounsel
  }

  // An active Senior member whose account is active and globally Senior.
  predicate LeadsMatter(d: Directory, k: Id, r: Id) { HoldsSeat(d, k, r) && ActiveSenior(d, r) }

  ghost predicate Led(d: Directory, k: Id) { exists r :: LeadsMatter(d, k, r) }

  ghost predicate FirmLed(d: Directory) { exists r :: ActiveSenior(d, r) }

  predicate ActiveMember(d: Directory, k: Id, r: Id) { (k, r) in d.members && d.members[(k, r)].active }

  // ---- Setting a member ----

  // An omitted role never widens an established one.
  function ChosenRole(d: Directory, k: Id, r: Id, role: RoleInput): Option<Role>
    requires r in d.accounts
  {
    match role
    case Omitted => Some(if (k, r) in d.members then d.members[(k, r)].role else d.accounts[r].role)
    case Known(x) => Some(x)
    case Unknown => None
  }

  function MembersOf(d: Directory, k: Id): (ids: set<Id>)
    ensures forall r :: r in ids <==> (k, r) in d.members
  {
    set key | key in d.members && key.0 == k :: key.1
  }

  // Who would lead the matter with this member's row rewritten.
  function LeadersAfter(d: Directory, k: Id, r: Id, role: Role, active: bool): set<Id>
  {
    (set x | x in MembersOf(d, k) && LeadsMatter(d, k, x) && x != r) + (if active && role == SeniorCounsel then {r} else {})
  }

  function EarlyMemberRefusal(d: Directory, actor: Id, k: Id, r: Id, role: RoleInput, active: bool): Option<Error>
  {
    if k !in d.cases then Some(NotFound)
    else if !ActiveMember(d, k, actor) then Some(PermissionDenied)
    else if actor == r && !active then Some(ValidationFailure)
    else if r !in d.accounts then Some(NotFound)
    else if !d.accounts[r].active && active then Some(ValidationFailure)
    else if ChosenRole(d, k, r, role).None? then Some(ValidationFailure)
    else if ChosenRole(d, k, r, role).value == SeniorCounsel && d.accounts[r].role != SeniorCounsel then Some(ValidationFailure)
    else None
  }

  function MemberRefusal(d: Directory, actor: Id, k: Id, r: Id, role: RoleInput, active: bool): Option<Error>
  {
    var early := EarlyMemberRefusal(d, actor, k, r, role, active);
    if early.Some? then early
    else if LeadersAfter(d, k, r, ChosenRole(d, k, r, role).value, active) == {} then Some(ValidationFailure)
    else None
  }

  function MemberSet(d: Directory, k: Id, r: Id, role: RoleInput, active: bool): Directory
    requires r in d.accounts && ChosenRole(d, k, r, role).Some?
  {
    d.(members := d.members[(k, r) := Member(ChosenRole(d, k, r, role).value, active)])
  }

  // The seniority check refuses a member change exactly when the change would
  // leave the matter without a leader.
  lemma SeatGuardIsExact(d: Directory, actor: Id, k: Id, r: Id, role: RoleInput, active: bool)
    requires EarlyMemberRefusal(d, actor, k, r, role, active).None?
    ensures MemberRefusal(d, actor, k, r, role, active).None? <==> Led(MemberSet(d, k, r, role, active), k)
  {
    var chosen := ChosenRole(d, k, r, role).value;
    var after := MemberSet(d, k, r, role, active);
    var leaders := LeadersAfter(d, k, r, chosen, active);
    forall x ensures x in leaders <==> LeadsMatter(after, k, x) {
    }
    if leaders != {} {
      var x :| x in leaders;
      assert LeadsMatter(after, k, x);
    }
  }

  // Removing a member sets the role the member has, inactive, after checks of its own.
  function RemovalRefusal(d: Directory, actor: Id, k: Id, r: Id): Option<Error>
  {
    if actor == r then Some(ValidationFailure)
    else if k !in d.cases then Some(NotFound)
    else if !ActiveMember(d, k, actor) then Some(PermissionDenied)
    else if r !in d.accounts || (k, r) !in d.members then Some(NotFound)
    else MemberRefusal(d, actor, k, r, Known(d.members[(k, r)].role), false)
  }

  // Among members of good standing a removal is refused exactly when it would
  // leave the matter without a leader.
  lemma RemovalGuardIsExact(d: Directory, actor: Id, k: Id, r: Id)
    requires k in d.cases && ActiveMember(d, k, actor) && actor != r && r in d.accounts && (k, r) in d.members
    requires d.members[(k, r)].role == SeniorCounsel ==> d.accounts[r].role == SeniorCounsel
    ensures RemovalRefusal(d, actor, k, r).None? <==>
              Led(d.(members := d.members[(k, r) := d.members[(k, r)].(active := false)]), k)
  {
    SeatGuardIsExact(d, actor, k, r, Known(d.members[(k, r)].role), false);
  }

  // ---- Activating and deactivating an account ----

  function ActiveSeniors(d: Directory): (ids: set<Id>)
    ensures forall r :: r in ids <==> ActiveSenior(d, r)
  {
    set r | r in d.accounts && ActiveSenior(d, r)
  }

  // The matters in which the reviewer holds the Senior seat.
  function Seats(d: Directory, r: Id): (ks: set<Id>)
    ensures forall k :: k in ks <==> HoldsSeat(d, k, r)
  {
    set key | key in d.members && key.1 == r && HoldsSeat(d, key.0, r) :: key.0
  }

  ghost predicate Replaced(d: Directory, k: Id, r: Id) { exists x :: x != r && LeadsMatter(d, k, x) }

  ghost function AccountRefusal(d: Directory, actor: Id, r: Id, active: bool): Option<Error>
  {
    if !ActiveSenior(d, actor) then Some(PermissionDenied)
    else if r !in d.accounts then Some(NotFound)
    else if r == actor && !active then Some(ValidationFailure)
    else if ActiveSenior(d, r) && !active && |ActiveSeniors(d)| <= 1 then Some(ValidationFailure)
    else if d.accounts[r].active && !active && (exists k :: HoldsSeat(d, k, r) && !Replaced(d, k, r)) then Some(ValidationFailure)
    else None
  }

  function AccountSet(d: Directory, r: Id, active: bool): Directory
    requires r in d.accounts
  {
    d.(accounts := d.accounts[r := d.accounts[r].(active := active)])
  }

  function AccountCreated(d: Directory, r: Id, role: Role): Directory
  {
    d.(accounts := d.accounts[r := Account(role, true)])
  }

  // A new matter starts with the Senior who opens it.
  function MatterOpened(d: Directory, actor: Id, k: Id): Directory
  {
    d.(cases := d.cases + {k}, members := d.members[(k, actor) := Member(SeniorCounsel, true)])
  }

  // The count check can never be what refuses: whoever reaches it is another
  // active Senior.
  lemma CountGuardIsRedundant(d: Directory, actor: Id, r: Id)
    requires ActiveSenior(d, actor) && actor != r && ActiveSenior(d, r)
    ensures |ActiveSeniors(d)| > 1
  {
    assert {actor, r} <= ActiveSeniors(d);
    SubsetSize({actor, r}, ActiveSeniors(d));
  }

  // ---- Runs ----

  datatype Command =
    | SetMember(caseId: Id, reviewer: Id, role: RoleInput, active: bool)
    | SetAccount(reviewer: Id, active: bool)
    | CreateAccount(reviewer: Id, globalRole: Role)
    | OpenMatter(caseId: Id)

  ghost predicate Next(d: Directory, actor: Id, cmd: Command, next: Directory)
  {
    match cmd
    case SetMember(k, r, role, active) =>
      if MemberRefusal(d, actor, k, r, role, active).Some? then next == d else next == MemberSet(d, k, r, role, active)
    case SetAccount(r, active) =>
      if AccountRefusal(d, actor, r, active).Some? then next == d else next == AccountSet(d, r, active)
    case CreateAccount(r, role) => r !in d.accounts && next == AccountCreated(d, r, role)
    case OpenMatter(k) =>
      k !in d.cases && MembersOf(d, k) == {} && next == if ActiveSenior(d, actor) then MatterOpened(d, actor, k) else d
  }

  lemma MemberSetElsewhere(d: Directory, k: Id, r: Id, role: RoleInput, active: bool, j: Id)
    requires r in d.accounts && ChosenRole(d, k, r, role).Some? && j != k && Led(d, j)
    ensures Led(MemberSet(d, k, r, role, active), j)
  {
    var x :| LeadsMatter(d, j, x);
    assert LeadsMatter(MemberSet(d, k, r, role, active), j, x);
  }

  lemma AccountSetKeeps(d: Directory, actor: Id, r: Id, active: bool, j: Id)
    requires AccountRefusal(d, actor, r, active).None? && Led(d, j)
    ensures Led(AccountSet(d, r, active), j)
  {
    var after := AccountSet(d, r, active);
    var x :| LeadsMatter(d, j, x);
    if x == r && !active {
      assert HoldsSeat(d, j, r) && Replaced(d, j, r);
      var y :| y != r && LeadsMatter(d, j, y);
      assert LeadsMatter(after, j, y);
    } else {
      assert LeadsMatter(after, j, x);
    }
  }

  lemma NextKeepsLeaders(d: Directory, actor: Id, cmd: Command, next: Directory, j: Id)
    requires Next(d, actor, cmd, next)
    ensures Led(d, j) ==> Led(next, j)
    ensures FirmLed(d) ==> FirmLed(next)
  {
    match cmd
    case SetMember(k, r, role, active) =>
      if next != d {
        SeatGuardIsExact(d, actor, k, r, role, active);
        if j != k && Led(d, j) { MemberSetElsewhere(d, k, r, role, active, j); }
        if x :| ActiveSenior(d, x) { assert ActiveSenior(next, x); }
      }
    case SetAccount(r, active) =>
      if AccountRefusal(d, actor, r, active).None? {
        if Led(d, j) { AccountSetKeeps(d, actor, r, active, j); }
        assert ActiveSenior(next, actor);
      }
    case CreateAccount(r, role) =>
      if x :| LeadsMatter(d, j, x) { assert LeadsMatter(next, j, x); }
      if x :| ActiveSenior(d, x) { assert ActiveSenior(next, x); }
    case OpenMatter(k) =>
      if x :| LeadsMatter(d, j, x) { assert LeadsMatter(next, j, x); }
      if x :| ActiveSenior(d, x) { assert ActiveSenior(next, x); }
  }

  lemma OpenedIsLed(d: Directory, actor: Id, k: Id)
    requires ActiveSenior(d, actor)
    ensures Led(MatterOpened(d, actor, k), k)
  {
    assert LeadsMatter(MatterOpened(d, actor, k), k, actor);
  }

  // Every matter of the directory has a leader.
  ghost predicate EveryMatterLed(d: Directory) { forall k :: k in d.cases ==> Led(d, k) }

  lemma NextKeepsEveryMatterLed(d: Directory, actor: Id, cmd: Command, next: Directory)
    requires Next(d, actor, cmd, next) && EveryMatterLed(d)
    ensures EveryMatterLed(next)
  {
    hide Led;
    forall k | k in next.cases ensures Led(next, k) {
      if k in d.cases { NextKeepsLeaders(d, actor, cmd, next, k); } else { OpenedIsLed(d, actor, k); }
    }
  }

  ghost predicate Run(dirs: seq<Directory>, actors: seq<Id>, cmds: seq<Command>)
  {
    |dirs| == |cmds| + 1 && |actors| == |cmds| &&
    forall i :: 0 <= i < |cmds| ==> Next(dirs[i], actors[i], cmds[i], dirs[i + 1])
  }

  // Over every sequence of membership and account operations a matter that has
  // a leader keeps one, and so does the firm.
  lemma {:induction false} LeadersRemain(dirs: seq<Directory>, actors: seq<Id>, cmds: seq<Command>, i: nat, n: nat,
                                         k: Id)
    requires Run(dirs, actors, cmds) && i <= n < |dirs|
    ensures Led(dirs[i], k) ==> Led(dirs[n], k)
    ensures FirmLed(dirs[i]) ==> FirmLed(dirs[n])
    decreases n
  {
    hide Next, Led, FirmLed;
    if i < n {
      LeadersRemain(dirs, actors, cmds, i, n - 1, k);
      assert Next(dirs[n - 1], actors[n - 1], cmds[n - 1], dirs[n - 1 + 1]);
      NextKeepsLeaders(dirs[n - 1], actors[n - 1], cmds[n - 1], dirs[n], k);
    }
  }

  lemma {:induction false} NoMatterEverLeaderless(dirs: seq<Directory>, actors: seq<Id>, cmds: seq<Command>, n: nat)
    requires Run(dirs, actors, cmds) && n < |dirs| && EveryMatterLed(dirs[0])
    ensures EveryMatterLed(dirs[n])
  {
    hide Next, EveryMatterLed;
    if n > 0 {
      NoMatterEverLeaderless(dirs, actors, cmds, n - 1);
      assert Next(dirs[n - 1], actors[n - 1], cmds[n - 1], dirs[n - 1 + 1]);
      NextKeepsEveryMatterLed(dirs[n - 1], actors[n - 1], cmds[n - 1], dirs[n]);
    }
  }

  // Only a globally Senior account ever holds a matter's Senior seat.
  ghost predicate SeatsBacked(d: Directory)
  {
    forall k, r :: (k, r) in d.members && d.members[(k, r)].role == SeniorCounsel ==>
      r in d.accounts && d.accounts[r].role == SeniorCounsel
  }

  lemma NextKeepsSeatsBacked(d: Directory, actor: Id, cmd: Command, next: Directory)
    requires Next(d, actor, cmd, next) && SeatsBacked(d)
    ensures SeatsBacked(next)
  {
  }

  // With backed seats, deactivating an account is refused for the sake of a
  // matter exactly when it would take that matter's last leader.
  lemma DeactivationGuardIsExact(d: Directory, actor: Id, r: Id)
    requires SeatsBacked(d) && ActiveSenior(d, actor) && r in d.accounts && r != actor && d.accounts[r].active
    ensures AccountRefusal(d, actor, r, false).None? <==> forall k :: Led(d, k) ==> Led(AccountSet(d, r, false), k)
  {
    if ActiveSenior(d, r) { CountGuardIsRedundant(d, actor, r); }
    var after := AccountSet(d, r, false);
    if AccountRefusal(d, actor, r, false).None? {
      forall k | Led(d, k) ensures Led(after, k) { AccountSetKeeps(d, actor, r, false, k); }
    } else {
      var k :| HoldsSeat(d, k, r) && !Replaced(d, k, r);
      assert LeadsMatter(d, k, r);
      assert Led(d, k);
      if Led(after, k) {
        var x :| LeadsMatter(after, k, x);
        assert x != r && LeadsMatter(d, k, x);
      }
    }
  }

  // ---- The operations on the stored rows ----

  class Administration {
    var cases: set<Id>
    var accounts: map<Id, Account>
    var members: map<(Id, Id), Member>

    ghost function View(): Directory
      reads this
    {
      Directory(cases, accounts, members)
    }

    constructor (cases: set<Id>, accounts: map<Id, Account>, members: map<(Id, Id), Member>)
      ensures View() == Directory(cases, accounts, members)
    {
      this.cases, this.accounts, this.members := cases, accounts, members;
    }

    // The members other than `except` who now lead the matter.
    method OtherLeaders(k: Id, except: Id) returns (ids: set<Id>)
      ensures ids == set x | x in MembersOf(View(), k) && LeadsMatter(View(), k, x) && x != except
    {
      ids := {};
      var d := Directory(cases, accounts, members);
      var todo := MembersOf(d, k);
      while todo != {}
        invariant todo <= MembersOf(d, k)
        invariant ids == set x | x in MembersOf(d, k) - todo && LeadsMatter(d, k, x) && x != except
      {
        var x :| x in todo;
        todo := todo - {x};
        var member := members[(k, x)];
        if x != except && member.active && member.role == SeniorCounsel && x in accounts && accounts[x].active
           && accounts[x].role == SeniorCounsel {
          ids := ids + {x};
        }
      }
      assert MembersOf(d, k) - {} == MembersOf(d, k);
    }

    method SetCaseMember(actor: Id, k: Id, r: Id, role: RoleInput, active: bool) returns (error: Option<Error>)
      modifies this`members
      ensures error == MemberRefusal(old(View()), actor, k, r, role, active)
      ensures error.Some? ==> View() == old(View())
      ensures error.None? ==> View() == MemberSet(old(View()), k, r, role, active) && Led(View(), k)
    {
      ghost var before := View();
      if k !in cases { return Some(NotFound); }
      if (k, actor) !in members || !members[(k, actor)].active { return Some(PermissionDenied); }
      if actor == r && !active { return Some(ValidationFailure); }
      if r !in accounts { return Some(NotFound); }
      if !accounts[r].active && active { return Some(ValidationFailure); }
      var chosen;
      match role {
        case Omitted => chosen := if (k, r) in members then members[(k, r)].role else accounts[r].role;
        case Known(x) => chosen := x;
        case Unknown => return Some(ValidationFailure);
      }
      if chosen == SeniorCounsel && accounts[r].role != SeniorCounsel { return Some(ValidationFailure); }
      var leaders := OtherLeaders(k, r);
      if active && chosen == SeniorCounsel {
        leaders := leaders + {r};
      }
      if leaders == {} { return Some(ValidationFailure); }
      members := members[(k, r) := Member(chosen, active)];
      error := None;
      SeatGuardIsExact(before, actor, k, r, role, active);
    }

    method DeactivateCaseMember(actor: Id, k: Id, r: Id) returns (error: Option<Error>)
      modifies this`members
      ensures error == RemovalRefusal(old(View()), actor, k, r)
      ensures error.Some? ==> View() == old(View())
      ensures error.None? ==> (k, r) in old(members) && members == old(members)[(k, r) := old(members)[(k, r)].(active := false)]
      ensures error.None? ==> Led(View(), k)
    {
      if actor == r { return Some(ValidationFailure); }
      if k !in cases { return Some(NotFound); }
      if (k, actor) !in members || !members[(k, actor)].active { return Some(PermissionDenied); }
      if r !in accounts || (k, r) !in members { return Some(NotFound); }
      error := SetCaseMember(actor, k, r, Known(members[(k, r)].role), false);
    }

    method SetReviewerActive(actor: Id, r: Id, active: bool) returns (error: Option<Error>)
      modifies this`accounts
      ensures error == AccountRefusal(old(View()), actor, r, active)
      ensures error.Some? ==> View() == old(View())
      ensures error.None? ==> View() == AccountSet(old(View()), r, active)
    {
      var d := Directory(cases, accounts, members);
      if !ActiveSenior(d, actor) { return Some(PermissionDenied); }
      if r !in accounts { return Some(NotFound); }
      if r == actor && !active { return Some(ValidationFailure); }
      if accounts[r].role == SeniorCounsel && accounts[r].active && !active && |ActiveSeniors(d)| <= 1 {
        return Some(ValidationFailure);
      }
      if accounts[r].active && !active {
        var todo := Seats(d, r);
        while todo != {}
          invariant todo <= Seats(d, r) && View() == d
          invariant forall k :: k in Seats(d, r) - todo ==> Replaced(d, k, r)
        {
          var k :| k in todo;
          var others := OtherLeaders(k, r);
          ReplacedIff(d, k, r, others);
          if others == {} {
            return Some(ValidationFailure);
          }
          todo := todo - {k};
        }
        assert forall k :: HoldsSeat(d, k, r) ==> k in Seats(d, r) - {};
      }
      accounts := accounts[r := accounts[r].(active := active)];
      error := None;
    }
  }

  lemma ReplacedIff(d: Directory, k: Id, r: Id, others: set<Id>)
    requires others == set x | x in MembersOf(d, k) && LeadsMatter(d, k, x) && x != r
    ensures Replaced(d, k, r) <==> others != {}
  {
    if x :| x != r && LeadsMatter(d, k, x) { assert x in others; }
    if x :| x in others { assert x != r && LeadsMatter(d, k, x); }
  }
}
