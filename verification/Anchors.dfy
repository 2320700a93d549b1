// Checkpoints kept outside the database: what a comparison accepts must be what
// append-only operation produces, and nothing else.

module Anchors {
  import opened Basics
  import opened Chains
  import opened Evidence
  import opened Lineage
  import opened PacketGeneration

  // ---- What a checkpoint records ----

  datatype ChainName = AuditChain | PacketChain | SectionChain | DecisionChain | ExtractionChain

  const CHAINS: seq<ChainName> := [AuditChain, PacketChain, SectionChain, DecisionChain, ExtractionChain]

  datatype Mode = OrderedPrefix | SetExtension

  function ModeOf(name: ChainName): Mode
  {
    match name
    case SectionChain => SetExtension
    case ExtractionChain => SetExtension
    case _ => OrderedPrefix
  }

  datatype Kind = DocumentKind | RunKind | PageKind

  datatype Member =
    | AuditMember(id: Id, auditHash: Hash<AuditEvent>)
    | PacketMember(id: Id, packetHash: Hash<Artifact>)
    | DecisionMember(id: Id, decisionHash: Hash<DecisionRecord>)
    | SectionMember(id: Id, sectionId: Id, parent: Option<Id>, contentHash: ContentHash, revisionHash: RevisionHash)
    | ExtractionMember(kind: Kind, id: Id, recorded: string)
    | NotAnObject
  {
    predicate Object() { !NotAnObject? }

    function MemberKind(): Option<Kind> { if ExtractionMember? then Some(kind) else None }

    function MemberId(): Option<Id> { if NotAnObject? then None else Some(id) }
  }

  datatype RootValue =
    | NoRoot
    | AuditRootIs(audit: Hash<AuditEvent>)
    | PacketRootIs(packet: Hash<Artifact>)
    | DecisionRootIs(decision: Hash<DecisionRecord>)
    | SectionRootIs(tips: set<Tip>)
    | ExtractionRootIs(documents: map<Id, string>, runs: map<Id, string>, pages: map<Id, string>)

  datatype ChainPoint = ChainPoint(count: nat, root: RootValue, mode: Mode, members: seq<Member>)

  type Checkpoint = map<ChainName, ChainPoint>

  // A chain as read back from the file; a missing or ill-typed field is None.
  datatype AnchoredChain = AnchoredChain(count: Option<int>, root: RootValue, mode: Option<Mode>, members: Option<seq<Member>>)

  type Anchor = map<ChainName, AnchoredChain>

  function AsAnchored(p: ChainPoint): AnchoredChain { AnchoredChain(Some(p.count), p.root, Some(p.mode),
                      Some(p.members)) }

  function WrittenAnchor(checkpoint: Checkpoint): Anchor
  {
    map name | name in checkpoint :: AsAnchored(checkpoint[name])
  }

  // ---- The history of one matter ----

  datatype Extractions = Extractions(sources: set<Id>, documents: map<Id, string>, runs: map<Id, string>, pages: map<Id, string>)

  datatype History = History(audit: seq<Row<AuditEvent>>, packets: seq<Row<Artifact>>, revisions: seq<Revision>,
                             decisions: seq<Row<DecisionRecord>>, extractions: Extractions)

  function AuditMembers(rows: seq<Row<AuditEvent>>): (r: seq<Member>)
    ensures |r| == |rows| && forall i :: 0 <= i < |r| ==> r[i] == AuditMember(rows[i].id, rows[i].hash)
  {
    seq(|rows|, i requires 0 <= i < |rows| => AuditMember(rows[i].id, rows[i].hash))
  }

  function PacketMembers(rows: seq<Row<Artifact>>): (r: seq<Member>)
    ensures |r| == |rows| && forall i :: 0 <= i < |r| ==> r[i] == PacketMember(rows[i].id, rows[i].hash)
  {
    seq(|rows|, i requires 0 <= i < |rows| => PacketMember(rows[i].id, rows[i].hash))
  }

  function DecisionMembers(rows: seq<Row<DecisionRecord>>): (r: seq<Member>)
    ensures |r| == |rows| && forall i :: 0 <= i < |r| ==> r[i] == DecisionMember(rows[i].id, rows[i].hash)
  {
    seq(|rows|, i requires 0 <= i < |rows| => DecisionMember(rows[i].id, rows[i].hash))
  }

  function MemberOf(r: Revision): Member
  {
    SectionMember(r.id, r.content.sectionId, r.content.parent, r.content.contentHash, r.hash)
  }

  function SectionMembers(rows: seq<Revision>): (r: seq<Member>)
    ensures |r| == |rows| && forall i :: 0 <= i < |r| ==> r[i] == MemberOf(rows[i])
  {
    seq(|rows|, i requires 0 <= i < |rows| => MemberOf(rows[i]))
  }

  function Recorded(kind: Kind, table: map<Id, string>, ids: seq<Id>): (r: seq<Member>)
    requires forall x :: x in ids ==> x in table
    ensures |r| == |ids| && forall i :: 0 <= i < |r| ==> r[i] == ExtractionMember(kind, ids[i], table[ids[i]])
  {
    seq(|ids|, i requires 0 <= i < |ids| => ExtractionMember(kind, ids[i], table[ids[i]]))
  }

  function TableMembers(kind: Kind, table: map<Id, string>): seq<Member>
  {
    SortedFacts(table.Keys);
    Recorded(kind, table, Sorted(table.Keys))
  }

  function ExtractionMembers(x: Extractions): seq<Member>
  {
    TableMembers(DocumentKind, x.documents) + TableMembers(RunKind, x.runs) + TableMembers(PageKind, x.pages)
  }

  function TipsOfAll(rows: seq<Revision>): set<Tip>
  {
    TipsIn(rows, SectionIds(rows))
  }

  function MembersOf(h: History, name: ChainName): seq<Member>
  {
    match name
    case AuditChain => AuditMembers(h.audit)
    case PacketChain => PacketMembers(h.packets)
    case SectionChain => SectionMembers(h.revisions)
    case DecisionChain => DecisionMembers(h.decisions)
    case ExtractionChain => ExtractionMembers(h.extractions)
  }

  // The extraction count includes every source; its members, only the sources
  // whose stored bytes still exist.
  function CountIn(h: History, name: ChainName): nat
  {
    match name
    case AuditChain => |h.audit|
    case PacketChain => |h.packets|
    case SectionChain => |h.revisions|
    case DecisionChain => |h.decisions|
    case ExtractionChain => |h.extractions.runs| + |h.extractions.pages| + |h.extractions.sources|
  }

  function RootIn(h: History, name: ChainName): RootValue
  {
    match name
    case AuditChain => (match Root(h.audit) case None => NoRoot case Some(x) => AuditRootIs(x))
    case PacketChain => (match Root(h.packets) case None => NoRoot case Some(x) => PacketRootIs(x))
    case SectionChain => SectionRootIs(TipsOfAll(h.revisions))
    case DecisionChain => (match Root(h.decisions) case None => NoRoot case Some(x) => DecisionRootIs(x))
    case ExtractionChain => ExtractionRootIs(h.extractions.documents, h.extractions.runs, h.extractions.pages)
  }

  function PointOf(h: History, name: ChainName): ChainPoint
  {
    ChainPoint(CountIn(h, name), RootIn(h, name), ModeOf(name), MembersOf(h, name))
  }

  function CheckpointOf(h: History): Checkpoint
  {
    map name | name in CHAINS :: PointOf(h, name)
  }

  ghost predicate Complete(h: History)
  {
    forall name :: name in CHAINS ==> |MembersOf(h, name)| == CountIn(h, name)
  }

  // `None` stands for the error raised on an incomplete member proof.
  method CheckpointFromVerification(h: History) returns (checkpoint: Option<Checkpoint>)
    ensures checkpoint == if Complete(h) then Some(CheckpointOf(h)) else None
  {
    hide MembersOf, RootIn, CountIn;
    var filled: Checkpoint := map[];
    for n := 0 to |CHAINS|
      invariant forall i :: 0 <= i < n ==> |MembersOf(h, CHAINS[i])| == CountIn(h, CHAINS[i])
      invariant filled == map name | name in CHAINS[..n] :: PointOf(h, name)
    {
      var name := CHAINS[n];
      var members := MembersOf(h, name);
      if |members| != CountIn(h, name) {
        assert name in CHAINS;
        return None;
      }
      filled := filled[name := ChainPoint(CountIn(h, name), RootIn(h, name), ModeOf(name), members)];
      assert forall x :: x in CHAINS[..n + 1] <==> x in CHAINS[..n] || x == name;
    }
    assert CHAINS[..|CHAINS|] == CHAINS;
    checkpoint := Some(filled);
  }

  lemma TableSize(kind: Kind, table: map<Id, string>)
    ensures |TableMembers(kind, table)| == |table|
  {
    SortedFacts(table.Keys);
    DistinctSize(Sorted(table.Keys));
    assert Elements(Sorted(table.Keys)) == table.Keys;
  }

  // A checkpoint can be taken exactly while no stored document is missing; a
  // missing one raises an error instead of being reported.
  lemma CompleteIffNoFileMissing(h: History)
    requires h.extractions.documents.Keys <= h.extractions.sources
    ensures Complete(h) <==> h.extractions.documents.Keys == h.extractions.sources
  {
    var x := h.extractions;
    TableSize(DocumentKind, x.documents);
    TableSize(RunKind, x.runs);
    TableSize(PageKind, x.pages);
    SubsetSize(x.documents.Keys, x.sources);
    assert ExtractionChain in CHAINS;
    if |x.documents| == |x.sources| {
      forall name | name in CHAINS ensures |MembersOf(h, name)| == CountIn(h, name) {
      }
    }
  }

  // For instance: a matter of one source whose stored document is gone.
  lemma OneMissingFileStopsTheCheckpoint()
    ensures !Complete(History([], [], [], [], Extractions({0}, map[], map[], map[])))
  {
    CompleteIffNoFileMissing(History([], [], [], [], Extractions({0}, map[], map[], map[])));
  }

  // ---- The comparison ----

  datatype Finding = RolledBack | Mismatched | Advanced | Matched

  // Of several members with one key, the last wins.
  function ByMember(members: seq<Member>, m: Member): Option<Member>
  {
    if members == [] then None
    else
      var last := members[|members| - 1];
      if last.Object() && last.MemberKind() == m.MemberKind() && last.MemberId() == m.MemberId() then Some(last)
      else ByMember(members[..|members| - 1], m)
  }

  function ById(members: seq<Member>, m: Member): Option<Member>
  {
    if members == [] then None
    else
      var last := members[|members| - 1];
      if last.Object() && last.MemberId() == m.MemberId() then Some(last) else ById(members[..|members| - 1], m)
  }

  predicate Covered(name: ChainName, current: seq<Member>, m: Member)
  {
    m.Object() && (if name == SectionChain then ById(current, m) else ByMember(current, m)) == Some(m)
  }

  predicate PrefixMatches(name: ChainName, current: seq<Member>, anchored: seq<Member>)
  {
    if ModeOf(name) == OrderedPrefix then |anchored| <= |current| && current[..|anchored|] == anchored
    else forall m :: m in anchored ==> Covered(name, current, m)
  }

  predicate WellFormed(name: ChainName, anchored: AnchoredChain)
  {
    && anchored.count.Some? && anchored.members.Some? && |anchored.members.value| == anchored.count.value
    && anchored.mode == Some(ModeOf(name))
  }

  function FindingFor(name: ChainName, current: ChainPoint, anchor: Anchor): Finding
  {
    if name !in anchor || !WellFormed(name, anchor[name]) then Mismatched
    else if current.count < anchor[name].count.value then RolledBack
    else if !PrefixMatches(name, current.members, anchor[name].members.value) then Mismatched
    else if current.count > anchor[name].count.value then Advanced
    else if current.root != anchor[name].root then Mismatched
    else Matched
  }

  function Listed(current: Checkpoint, anchor: Anchor, names: seq<ChainName>, f: Finding): seq<ChainName>
  {
    if names == [] then []
    else
      var front, last := names[..|names| - 1], names[|names| - 1];
      Listed(current, anchor, front, f) + if last in current && FindingFor(last, current[last], anchor) == f then [last] else []
  }

  lemma ListedSnoc(current: Checkpoint, anchor: Anchor, n: nat, f: Finding)
    requires n < |CHAINS|
    ensures Listed(current, anchor, CHAINS[..n + 1], f) == Listed(current, anchor, CHAINS[..n], f) +
              if CHAINS[n] in current && FindingFor(CHAINS[n], current[CHAINS[n]], anchor) == f then [CHAINS[n]] else []
  {
    assert CHAINS[..n + 1][..n] == CHAINS[..n];
  }

  lemma {:induction false} ListedExactly(current: Checkpoint, anchor: Anchor, names: seq<ChainName>, f: Finding,
                                         name: ChainName)
    ensures name in Listed(current, anchor, names, f) <==>
              name in names && name in current && FindingFor(name, current[name], anchor) == f
  {
    hide FindingFor;
    if names != [] {
      ListedExactly(current, anchor, names[..|names| - 1], f, name);
      assert names == names[..|names| - 1] + [names[|names| - 1]];
    }
  }

  datatype Verdict = RollbackDetected(chains: seq<ChainName>) | CheckpointMismatch(chains: seq<ChainName>)
                   | AnchorAdvanced(chains: seq<ChainName>) | AnchorMatched
  {
    predicate Ok() { AnchorAdvanced? || AnchorMatched? }
  }

  // One turn of the comparison loop.
  method CompareChain(name: ChainName, current: ChainPoint, anchor: Anchor) returns (finding: Finding)
    ensures finding == FindingFor(name, current, anchor)
  {
    hide PrefixMatches;
    if name !in anchor || !WellFormed(name, anchor[name]) {
      return Mismatched;
    }
    if current.count < anchor[name].count.value {
      return RolledBack;
    }
    if !PrefixMatches(name, current.members, anchor[name].members.value) {
      return Mismatched;
    }
    if current.count == anchor[name].count.value {
      return if current.root != anchor[name].root then Mismatched else Matched;
    }
    finding := Advanced;
  }

  // A rollback is reported before any mismatch.
  method VerifyAnchor(current: Checkpoint, anchor: Anchor) returns (verdict: Verdict)
    requires current.Keys == Elements(CHAINS)
    ensures var back, bad, grown := Listed(current, anchor, CHAINS, RolledBack), Listed(current, anchor, CHAINS, Mismatched),
                                    Listed(current, anchor, CHAINS, Advanced);
            verdict == if back != [] then RollbackDetected(back) else if bad != [] then CheckpointMismatch(bad)
                       else if grown != [] then AnchorAdvanced(grown) else AnchorMatched
    ensures verdict.Ok() <==> Accepts(current, anchor)
  {
    hide FindingFor;
    var rollback: seq<ChainName>, mismatched: seq<ChainName>, advanced: seq<ChainName> := [], [], [];
    for n := 0 to |CHAINS|
      invariant rollback == Listed(current, anchor, CHAINS[..n], RolledBack)
      invariant mismatched == Listed(current, anchor, CHAINS[..n], Mismatched)
      invariant advanced == Listed(current, anchor, CHAINS[..n], Advanced)
    {
      var name := CHAINS[n];
      assert name in Elements(CHAINS);
      ListedSnoc(current, anchor, n, RolledBack);
      ListedSnoc(current, anchor, n, Mismatched);
      ListedSnoc(current, anchor, n, Advanced);
      var finding := CompareChain(name, current[name], anchor);
      match finding {
        case RolledBack => rollback := rollback + [name];
        case Mismatched => mismatched := mismatched + [name];
        case Advanced => advanced := advanced + [name];
        case Matched =>
      }
    }
    assert CHAINS[..|CHAINS|] == CHAINS;
    AcceptsMeansNoneListed(current, anchor);
    if rollback != [] {
      return RollbackDetected(rollback);
    }
    if mismatched != [] {
      return CheckpointMismatch(mismatched);
    }
    verdict := if advanced != [] then AnchorAdvanced(advanced) else AnchorMatched;
  }

  ghost predicate Accepts(current: Checkpoint, anchor: Anchor)
  {
    forall name :: name in CHAINS ==> name in current && FindingFor(name, current[name], anchor) in {Advanced, Matched}
  }

  lemma AcceptsMeansNoneListed(current: Checkpoint, anchor: Anchor)
    requires current.Keys == Elements(CHAINS)
    ensures Accepts(current, anchor) <==>
              Listed(current, anchor, CHAINS, RolledBack) == [] && Listed(current, anchor, CHAINS, Mismatched) == []
  {
    hide FindingFor;
    var back, bad := Listed(current, anchor, CHAINS, RolledBack), Listed(current, anchor, CHAINS, Mismatched);
    forall name | name in CHAINS ensures name in current {
      assert name in Elements(CHAINS);
    }
    forall name | name in CHAINS
      ensures (name in back || name in bad) <==> FindingFor(name, current[name], anchor) !in {Advanced, Matched}
    {
      ListedExactly(current, anchor, CHAINS, RolledBack, name);
      ListedExactly(current, anchor, CHAINS, Mismatched, name);
    }
    if back != [] {
      ListedExactly(current, anchor, CHAINS, RolledBack, back[0]);
      assert back[0] in back;
    }
    if bad != [] {
      ListedExactly(current, anchor, CHAINS, Mismatched, bad[0]);
      assert bad[0] in bad;
    }
  }
}
