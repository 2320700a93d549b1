// The pure rules: claim precedence, decision transitions, eligibility, section
// impact, quote evaluation and role gates.

module Domain {
  import opened Basics

  datatype Role = SeniorCounsel | ReconstructionExpert | ClaimsReviewer | SafetyInvestigator

  datatype Privilege = Public | Confidential | AttorneyClient | WorkProduct | Restricted {
    predicate Withholding() { AttorneyClient? || WorkProduct? || Restricted? }
  }

  datatype ClaimStatus =
    Rejected | Superseded | Disputed | EscalatedClaim | Preserved | Supported | Unreviewed

  datatype ConflictStatus =
    Unresolved | AcceptedA | AcceptedB | PreservedBoth | Escalated | SourceUnreliable | Closed

  datatype Eligibility = Eligible | BlockedByConflict | Privileged | NeedsReview | Excluded

  datatype QuoteState = VerifiedExact | ManualRequired | ManuallyVerified | LegacyUnverified

  datatype Severity = Critical | High | Medium | Low

  datatype DecisionType =
    AcceptClaimA | AcceptClaimB | PreserveBoth | MarkUnresolved | Escalate | MarkSourceUnreliable

  datatype SectionStatus =
    SectionEligible | WithDisclosure | SectionBlocked | PrivilegedMaterial | SectionNeedsReview

  // The kinds of refusal; the last is an error no handler foresees.
  datatype Error = NotFound | PermissionDenied | ValidationFailure | DuplicateConflict | StaleUpdate | Unhandled

  // ---- Claim status: the most decisive of the per-conflict dispositions ----

  function Precedence(s: ClaimStatus): nat
  {
    match s
    case Rejected => 0
    case Superseded => 1
    case Disputed => 2
    case EscalatedClaim => 3
    case Preserved => 4
    case Supported => 5
    case Unreviewed => 6
  }

  function MoreDecisive(a: ClaimStatus, b: ClaimStatus): ClaimStatus
  {
    if Precedence(b) < Precedence(a) then b else a
  }

  function AggregateStatus(dispositions: seq<ClaimStatus>): (s: ClaimStatus)
    ensures dispositions == [] ==> s == Unreviewed
    ensures dispositions != [] ==> s in dispositions
    ensures forall d :: d in dispositions ==> Precedence(s) <= Precedence(d)
  {
    if dispositions == [] then Unreviewed
    else
      var d := dispositions[0];
      assert forall x :: x in dispositions ==> x == d || x in dispositions[1..];
      MoreDecisive(d, AggregateStatus(dispositions[1..]))
  }

  // ---- Decision transitions ----

  datatype Transition = Transition(status: ConflictStatus, a: ClaimStatus, b: ClaimStatus)

  function TransitionFor(decision: DecisionType, selected: Option<Id>, claimA: Id): Transition
  {
    match decision
    case AcceptClaimA => Transition(AcceptedA, Supported, Superseded)
    case AcceptClaimB => Transition(AcceptedB, Superseded, Supported)
    case PreserveBoth => Transition(PreservedBoth, Preserved, Preserved)
    case MarkUnresolved => Transition(Unresolved, Disputed, Disputed)
    case Escalate => Transition(Escalated, EscalatedClaim, EscalatedClaim)
    case MarkSourceUnreliable =>
      if selected == Some(claimA) then Transition(SourceUnreliable, Rejected, Unreviewed)
      else Transition(SourceUnreliable, Unreviewed, Rejected)
  }

  // A conflict's status and its two dispositions always tell the same story.
  predicate Coherent(status: ConflictStatus, a: ClaimStatus, b: ClaimStatus)
  {
    && (status == PreservedBoth <==> a == Preserved)
    && (status == PreservedBoth <==> b == Preserved)
    && (status == Unresolved <==> a == Disputed)
    && (status == Unresolved <==> b == Disputed)
    && (status == Escalated <==> a == EscalatedClaim)
    && (status == Escalated <==> b == EscalatedClaim)
    && (status == AcceptedA <==> a == Supported) && (status == AcceptedB <==> a == Superseded)
    && (status == AcceptedB <==> b == Supported) && (status == AcceptedA <==> b == Superseded)
    && (status == SourceUnreliable <==> (a == Rejected && b == Unreviewed) || (a == Unreviewed && b == Rejected))
    && (a == Rejected || b == Rejected ==> status == SourceUnreliable)
    && status != Closed
  }

  lemma TransitionsAreCoherent(decision: DecisionType, selected: Option<Id>, claimA: Id)
    ensures var t := TransitionFor(decision, selected, claimA);
            Coherent(t.status, t.a, t.b) && (t.a == Rejected ==> selected == Some(claimA))
  {
  }

  // ---- Report eligibility ----

  predicate UnverifiedQuote(q: QuoteState) { q == ManualRequired }

  function ComputeEligibility(status: ClaimStatus, privilege: Privilege,
                              related: set<ConflictStatus>, quote: QuoteState): (e: Eligibility)
    ensures e == Privileged <==> privilege.Withholding()
    ensures e == Excluded <==> !privilege.Withholding() && (status == Rejected || status == Superseded)
    ensures e == BlockedByConflict <==> !privilege.Withholding() && status != Rejected && status != Superseded
                                        && !UnverifiedQuote(quote) && Unresolved in related
    ensures e == Eligible <==> !privilege.Withholding() && !UnverifiedQuote(quote) && Unresolved !in related
                               && Escalated !in related && (status == Supported || status == Preserved)
  {
    if privilege.Withholding() then Privileged
    else if status == Rejected || status == Superseded then Excluded
    else if UnverifiedQuote(quote) then NeedsReview
    else if Unresolved in related then BlockedByConflict
    else if Escalated in related then NeedsReview
    else if status == Supported || status == Preserved then Eligible
    else NeedsReview
  }

  // ---- Section impact ----

  datatype CitedClaim = CitedClaim(id: Id, status: ClaimStatus, eligibility: Eligibility)

  datatype Impact = Impact(status: SectionStatus, offending: seq<Id>)

  function Offending(cited: seq<CitedClaim>, p: CitedClaim -> bool): (r: seq<Id>)
    ensures forall x :: x in r <==> exists c :: c in cited && p(c) && c.id == x
    ensures r == [] <==> forall c :: c in cited ==> !p(c)
  {
    if cited == [] then []
    else
      assert forall c :: c in cited <==> c == cited[0] || c in cited[1..];
      (if p(cited[0]) then [cited[0].id] else []) + Offending(cited[1..], p)
  }

  function SectionImpact(cited: seq<CitedClaim>): (r: Impact)
    ensures r.status in {SectionEligible, WithDisclosure} <==>
              forall c :: c in cited ==> c.eligibility == Eligible
    ensures r.status == SectionBlocked <==> exists c :: c in cited && c.eligibility == BlockedByConflict
    ensures r.status == PrivilegedMaterial <==>
              (exists c :: c in cited && c.eligibility == Privileged) && forall c :: c in cited ==> c.eligibility != BlockedByConflict
    ensures r.status == SectionEligible ==> forall c :: c in cited ==> c.status != Preserved
    ensures r.status == WithDisclosure ==> exists c :: c in cited && c.status == Preserved
    ensures r.status == SectionEligible <==> r.offending == []
  {
    var blocked := Offending(cited, (c: CitedClaim) => c.eligibility == BlockedByConflict);
    var privileged := Offending(cited, (c: CitedClaim) => c.eligibility == Privileged);
    var attention := Offending(cited, (c: CitedClaim) => c.eligibility == NeedsReview || c.eligibility == Excluded);
    var preserved := Offending(cited, (c: CitedClaim) => c.status == Preserved);
    if blocked != [] then Impact(SectionBlocked, blocked)
    else if privileged != [] then Impact(PrivilegedMaterial, privileged)
    else if attention != [] then Impact(SectionNeedsReview, attention)
    else if preserved != [] then Impact(WithDisclosure, preserved)
    else Impact(SectionEligible, [])
  }

  // ---- Quote evaluation against an extracted page ----

  datatype Method = Native | Ocr | Failed

  datatype PageEvidence = PageEvidence(extraction: Method, confidenceBps: Option<int>, truncated: bool) {
    predicate Trusted(minPercent: int)
    {
      extraction == Native || (confidenceBps.Some? && confidenceBps.value >= minPercent * 100)
    }
  }

  // `None` is a confident absence: the claim is refused.
  function EvaluateQuote(page: Option<PageEvidence>, found: bool, minPercent: int): (r: Option<QuoteState>)
    ensures r == Some(VerifiedExact) <==>
              page.Some? && page.value.extraction != Failed && found && page.value.Trusted(minPercent)
    ensures r.None? <==> page.Some? && page.value.extraction != Failed && !found && !page.value.truncated
    ensures r == Some(LegacyUnverified) <==> page.None?
    ensures r != Some(ManuallyVerified)
  {
    match page
    case None => Some(LegacyUnverified)
    case Some(p) =>
      if p.extraction == Failed then Some(ManualRequired)
      else if found then Some(if p.Trusted(minPercent) then VerifiedExact else ManualRequired)
      else if p.truncated then Some(ManualRequired)
      else None
  }

  // ---- Role gates ----

  predicate Cleared(role: Role) { role == SeniorCounsel }

  predicate VisibleTo(role: Role, privilege: Privilege) { Cleared(role) || !privilege.Withholding() }

  predicate Dispositive(d: DecisionType) { d in {AcceptClaimA, AcceptClaimB, MarkSourceUnreliable} }

  predicate DecisionAllowed(d: DecisionType, role: Role, severity: Severity)
  {
    !(severity == Critical && Dispositive(d) && role != SeniorCounsel && role != ReconstructionExpert)
  }
}
