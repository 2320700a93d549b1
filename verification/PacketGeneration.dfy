// Generating a packet takes three phases: a snapshot under the matter's lock, an
// unlocked render, and a commit that rechecks the audit root. Between them any
// other operation may run, in this matter or another.

module PacketGeneration {
  import opened Basics
  import opened Domain
  import opened Chains
  import opened Evidence
  import opened Lineage
  import opened Approval
  import opened Steps
  import opened Soundness
  import opened Preservation
  import opened Runs
  import opened Packets
  import opened Bodies
  import opened Production
  import opened Redaction

  type AuditRoot = Option<Hash<AuditEvent>>

  // The stored artifact: the manifest's entries and the document's body.
  datatype Artifact = Artifact(packet: PacketType, generatedBy: Id, at: int, root: AuditRoot, manifest: Packet, body: Body,
                               key: Option<string>)

  // A snapshot being rendered.
  datatype Job = Job(actor: Actor, caseId: Id, packet: PacketType, key: Option<string>, at: int, root: AuditRoot,
                     manifest: Packet, body: Body)

  datatype System = System(st: State, artifacts: map<Id, seq<Row<Artifact>>>, jobs: map<Id, Job>) {
    function ArtifactsOf(caseId: Id): seq<Row<Artifact>> { if caseId in artifacts then artifacts[caseId] else [] }
  }

  datatype Event =
    | Operate(req: Request)
    | Begin(job: Id, actor: Actor, caseId: Id, packet: PacketType, key: Option<string>, limit: nat, now: int)
    | Commit(job: Id, packetId: Id)
    | Abandon(job: Id)

  datatype Answer = Accepted | Started | Stored(artifact: Artifact) | Replayed(artifact: Artifact) | Denied(error: Error)

  // ---- Idempotent replay ----

  function FindKey(rows: seq<Row<Artifact>>, key: string): (r: Option<Artifact>)
    ensures r.Some? ==> r.value.key == Some(key) && exists i :: 0 <= i < |rows| && rows[i].content == r.value
    ensures r.None? <==> forall i :: 0 <= i < |rows| ==> rows[i].content.key != Some(key)
  {
    if rows == [] then None
    else if rows[0].content.key == Some(key) then Some(rows[0].content)
    else
      var rest := FindKey(rows[1..], key);
      assert forall i :: 0 <= i < |rows[1..]| ==> rows[1..][i] == rows[i + 1];
      rest
  }

  // A key answers only the request it was first used for.
  function ReplayIfPresent(rows: seq<Row<Artifact>>, packet: PacketType, key: Option<string>): Option<Answer>
  {
    if key.None? then None
    else
      match FindKey(rows, key.value)
      case None => None
      case Some(existing) => Some(if existing.packet == packet then Replayed(existing) else Denied(DuplicateConflict))
  }

  // ---- The phases ----

  function SectionsOfCase(st: State, k: Id): set<Id>
  {
    set s | s in st.sections && st.sections[s].caseId == k
  }

  function BeginAnswer(sys: System, e: Event): Answer
    requires e.Begin?
  {
    if !e.actor.Member(e.caseId) || e.actor.roles[e.caseId] != SeniorCounsel then Denied(PermissionDenied)
    else
      match ReplayIfPresent(sys.ArtifactsOf(e.caseId), e.packet, e.key)
      case Some(answer) => answer
      case None => if |SectionsOfCase(sys.st, e.caseId)| > e.limit then Denied(ValidationFailure) else Started
  }

  function SnapshotJob(sys: System, e: Event): Job
    requires e.Begin?
  {
    var manifest := PacketOf(sys.st, e.caseId, e.packet);
    Job(e.actor, e.caseId, e.packet, e.key, e.now, Root(sys.st.AuditOf(e.caseId)), manifest, BodyOf(sys.st, manifest))
  }

  function ArtifactOf(job: Job): Artifact
  {
    Artifact(job.packet, job.actor.id, job.at, job.root, job.manifest, job.body, job.key)
  }

  function CommitAnswer(sys: System, job: Job): Answer
  {
    match ReplayIfPresent(sys.ArtifactsOf(job.caseId), job.packet, job.key)
    case Some(answer) => answer
    case None =>
      if Root(sys.st.AuditOf(job.caseId)) != job.root then Denied(DuplicateConflict) else Stored(ArtifactOf(job))
  }

  function AnswerTo(sys: System, e: Event): Answer
  {
    match e
    case Operate(req) =>
      var refusal := Refusal(sys.st, req.actor, req.caseId, req.cmd);
      if refusal.Some? then Denied(refusal.value.Kind()) else Accepted
    case Begin(_, _, _, _, _, _, _) => BeginAnswer(sys, e)
    case Commit(job, _) => if job in sys.jobs then CommitAnswer(sys, sys.jobs[job]) else Denied(NotFound)
    case Abandon(_) => Accepted
  }

  function WithArtifact(sys: System, job: Job, packetId: Id): System
    requires job.actor.Member(job.caseId)
  {
    var rows := sys.ArtifactsOf(job.caseId);
    System(Exported(sys.st, job.actor, job.caseId, packetId, job.at),
           sys.artifacts[job.caseId := rows + [NextRow(rows, packetId, ArtifactOf(job))]], sys.jobs)
  }

  ghost predicate Turn(sys: System, e: Event, next: System)
  {
    match e
    case Operate(req) =>
      !req.cmd.RecordExport? && Next(sys.st, req, next.st) && next == sys.(st := next.st)
    case Begin(job, _, _, _, _, _, _) =>
      job !in sys.jobs &&
      next == if BeginAnswer(sys, e).Started? then sys.(jobs := sys.jobs[job := SnapshotJob(sys, e)]) else sys
    case Commit(job, packetId) =>
      job in sys.jobs && sys.jobs[job].actor.Member(sys.jobs[job].caseId) &&
      var done := sys.(jobs := sys.jobs - {job});
      next == if CommitAnswer(sys, sys.jobs[job]).Stored? then WithArtifact(done, sys.jobs[job], packetId) else done
    case Abandon(job) => next == sys.(jobs := sys.jobs - {job})
  }

  // ---- A packet depends on its own matter alone ----

  ghost predicate MatterSame(one: State, two: State, k: Id)
  {
    && (forall c :: c in one.claims && one.claims[c].caseId == k ==> c in two.claims && one.claims[c] == two.claims[c])
    && (forall c :: c in two.claims && two.claims[c].caseId == k ==> c in one.claims && one.claims[c] == two.claims[c])
    && (forall f :: f in one.conflicts && one.conflicts[f].caseId == k ==>
          f in two.conflicts && one.conflicts[f] == two.conflicts[f])
    && (forall f :: f in two.conflicts && two.conflicts[f].caseId == k ==>
          f in one.conflicts && one.conflicts[f] == two.conflicts[f])
    && (forall s :: s in one.sections && one.sections[s].caseId == k ==> s in two.sections && one.sections[s] == two.sections[s])
    && (forall s :: s in two.sections && two.sections[s].caseId == k ==> s in one.sections && one.sections[s] == two.sections[s])
    && (forall s :: s in one.sources ==> s in two.sources && one.sources[s] == two.sources[s])
    && (forall r :: r in one.revisions ==> r in two.revisions && one.revisions[r] == two.revisions[r])
    && one.DecisionsOf(k) == two.DecisionsOf(k)
  }

  lemma DecisionLogSame(one: State, two: State, k: Id)
    requires MatterSame(one, two, k)
    ensures DecisionLog(one, k) == DecisionLog(two, k)
  {
    forall i | 0 <= i < |one.DecisionsOf(k)|
      ensures RuledIn(one, k, one.DecisionsOf(k)[i]) <==> RuledIn(two, k, two.DecisionsOf(k)[i])
    {
    }
    assert RulingsIn(one, k) == RulingsIn(two, k);
    assert RulingOrder(one, k) == RulingOrder(two, k);
  }

  lemma ConflictOfMatterSame(one: State, two: State, k: Id, packet: PacketType, f: Id)
    requires ConflictsRooted(one) && MatterSame(one, two, k) && f in one.conflicts && one.conflicts[f].caseId == k
    ensures ConflictViewAlike(one, two, packet, ClaimsOfCase(one, k), f)
  {
    hide Coherent;
    assert ConflictRooted(one.claims, one.conflicts[f]);
  }

  lemma ClaimOfMatterSame(one: State, two: State, k: Id, packet: PacketType, c: Id)
    requires ClaimsRooted(one) && MatterSame(one, two, k) && c in ClaimsOfCase(one, k)
    ensures ClaimViewAlike(one, two, packet, c)
  {
  }

  // A conflict that meets the matter's claims is the matter's own.
  lemma MeetingIsOwn(st: State, k: Id, region: set<Id>, f: Id)
    requires ConflictsRooted(st) && f in st.conflicts && Meets(st.conflicts[f], region)
    requires forall c :: c in region ==> c in st.claims && st.claims[c].caseId == k
    ensures st.conflicts[f].caseId == k
  {
    hide Coherent;
    assert ConflictRooted(st.claims, st.conflicts[f]);
  }

  lemma EvidenceOfMatterSame(one: State, two: State, k: Id, packet: PacketType)
    requires ClaimsRooted(one) && ConflictsRooted(one) && ConflictsRooted(two) && MatterSame(one, two, k)
    ensures EvidenceAlike(one, two, packet, ClaimsOfCase(one, k))
  {
    hide ClaimsRooted, ConflictsRooted, ConflictViewAlike, ClaimViewAlike, Meets;
    var region := ClaimsOfCase(one, k);
    forall c | c in region ensures ClaimViewAlike(one, two, packet, c) {
      ClaimOfMatterSame(one, two, k, packet, c);
    }
    forall f | f in one.conflicts && Meets(one.conflicts[f], region) ensures ConflictViewAlike(one, two, packet, region, f) {
      MeetingIsOwn(one, k, region, f);
      ConflictOfMatterSame(one, two, k, packet, f);
    }
    forall f | f in two.conflicts && Meets(two.conflicts[f], region) ensures ConflictViewAlike(one, two, packet, region, f) {
      MeetingIsOwn(two, k, region, f);
      ConflictOfMatterSame(one, two, k, packet, f);
    }
  }

  lemma ActiveKept(st: State, s: Id)
    requires LinesKept(st) && s in st.sections
    ensures st.sections[s].active.Some? && st.sections[s].active.value in st.revisions
  {
    hide Line, UniqueIds;
    var path: seq<Revision> :| Soundness.LineFor(st.revisions, s, st.sections[s], path);
  }

  lemma VerdictIsFlag(st: State, s: Id)
    requires Valid(st) && s in st.sections
    ensures ApprovedNow(st, s) <==> st.sections[s].approvalCurrent
  {
    hide Valid;
    if st.sections[s].approvalCurrent { FlagMeansApproved(st, s); } else { NotApprovedUnflagged(st, s); }
  }

  lemma SectionOfMatterSame(one: State, two: State, k: Id, packet: PacketType, s: Id)
    requires Valid(one) && Valid(two) && MatterSame(one, two, k)
    requires s in one.sections && one.sections[s].caseId == k
    ensures SectionAlike(one, two, packet, ClaimsOfCase(one, k), s)
  {
    hide LineFor, CachesAgree, LogsLinked, ClaimsRooted, ConflictsRooted, SectionsRooted, ApprovedNow, CitesWithin,
         ApprovalsHonest;
    CitesOfCase(one, k, s);
    VerdictIsFlag(one, s);
    VerdictIsFlag(two, s);
    ActiveKept(one, s);
  }

  lemma PacketOfMatter(one: State, two: State, k: Id, packet: PacketType)
    requires Valid(one) && Valid(two) && MatterSame(one, two, k)
    ensures PacketOf(one, k, packet) == PacketOf(two, k, packet)
    ensures BodyOf(one, PacketOf(one, k, packet)) == BodyOf(two, PacketOf(two, k, packet))
  {
    hide EvidenceAlike, SectionAlike, ApprovalsHonest, CachesAgree, LinesKept, LogsLinked, SectionsRooted, PacketOf,
         BodyOf;
    var region := ClaimsOfCase(one, k);
    EvidenceOfMatterSame(one, two, k, packet);
    forall s | s in one.sections && one.sections[s].caseId == k ensures SectionAlike(one, two, packet, region, s) {
      SectionOfMatterSame(one, two, k, packet, s);
    }
    DecisionLogSame(one, two, k);
    PacketAlike(one, two, packet, k, region);
    BodyAlike(one, two, packet, k, region);
  }

  // ---- The invariant ----

  // A pending snapshot remembers a prefix of the audit chain; while that prefix
  // is the whole chain, the snapshot is what would be built now.
  ghost predicate Fresh(st: State, job: Job, m: nat)
  {
    var log := st.AuditOf(job.caseId);
    && m <= |log| && job.root == Root(log[..m])
    && (m == |log| ==> job.manifest == PacketOf(st, job.caseId, job.packet) && job.body == BodyOf(st, job.manifest))
  }

  ghost predicate JobGood(st: State, job: Job) { job.actor.Member(job.caseId) && exists m :: Fresh(st, job, m) }

  ghost predicate KeysUnique(rows: seq<Row<Artifact>>)
  {
    forall i, j :: 0 <= i < j < |rows| && rows[i].content.key.Some? ==> rows[i].content.key != rows[j].content.key
  }

  // Every stored artifact is bound to one export event, placed right after the
  // audit root the artifact was built from.
  ghost predicate Bound(st: State, caseId: Id, row: Row<Artifact>)
  {
    exists m :: 0 <= m < |st.AuditOf(caseId)| && BoundAt(st.AuditOf(caseId)[m], row)
  }

  predicate BoundAt(event: Row<AuditEvent>, row: Row<Artifact>)
  {
    event.prev == row.content.root && event.content.action == PacketGenerated && event.content.subject == OnExport
    && event.content.subjectId == row.id
  }

  ghost predicate ArtifactsGood(sys: System, k: Id)
  {
    var rows := sys.ArtifactsOf(k);
    Linked(rows) && KeysUnique(rows) && forall i :: 0 <= i < |rows| ==> Bound(sys.st, k, rows[i])
  }

  ghost predicate SystemValid(sys: System)
  {
    && Valid(sys.st)
    && (forall j :: j in sys.jobs ==> JobGood(sys.st, sys.jobs[j]))
    && (forall k :: ArtifactsGood(sys, k))
  }

  // ---- One evidence step ----

  lemma RootFixesLength(log: seq<Row<AuditEvent>>, m: nat)
    requires Linked(log) && m <= |log| && Root(log[..m]) == Root(log)
    ensures m == |log|
  {
    PrefixLinked(log, m);
    SameRootSameHistory(log[..m], log);
  }

  ghost predicate QuietStep(st: State, next: State, k: Id)
  {
    next == st || (StepIn(st, next, k) && |next.AuditOf(k)| > |st.AuditOf(k)|)
  }

  lemma OtherMatterSame(st: State, next: State, k: Id, j: Id)
    requires StepIn(st, next, k) && j != k
    ensures MatterSame(st, next, j)
  {
  }

  lemma JobStaysGood(st: State, next: State, k: Id, job: Job)
    requires Valid(st) && Valid(next) && QuietStep(st, next, k) && JobGood(st, job)
    ensures JobGood(next, job)
  {
    hide Valid, ElsewhereSame, PacketOf, BodyOf, MatterSame;
    var m: nat :| Fresh(st, job, m);
    if next != st {
      var log, longer := st.AuditOf(job.caseId), next.AuditOf(job.caseId);
      assert log <= longer;
      assert longer[..m] == log[..m];
      if job.caseId != k {
        OtherMatterSame(st, next, k, job.caseId);
        OtherAuditSame(st, next, k, job.caseId);
        PacketOfMatter(st, next, job.caseId, job.packet);
      }
      assert Fresh(next, job, m);
    }
  }

  lemma OtherAuditSame(st: State, next: State, k: Id, j: Id)
    requires StepIn(st, next, k) && j != k
    ensures st.AuditOf(j) == next.AuditOf(j)
  {
  }

  lemma BoundStays(st: State, next: State, k: Id, row: Row<Artifact>)
    requires Advances(st, next) && Bound(st, k, row)
    ensures Bound(next, k, row)
  {
    hide BoundAt;
    assert st.AuditOf(k) <= next.AuditOf(k);
    var m :| 0 <= m < |st.AuditOf(k)| && BoundAt(st.AuditOf(k)[m], row);
    assert next.AuditOf(k)[m] == st.AuditOf(k)[m];
  }

  lemma StepKeepsSystem(sys: System, next: State, k: Id)
    requires SystemValid(sys) && Valid(next) && QuietStep(sys.st, next, k)
    ensures SystemValid(sys.(st := next))
  {
    hide Valid, JobGood, Bound, ElsewhereSame, Linked, KeysUnique;
    var after := sys.(st := next);
    forall j | j in after.jobs ensures JobGood(next, after.jobs[j]) {
      JobStaysGood(sys.st, next, k, sys.jobs[j]);
    }
    forall j ensures ArtifactsGood(after, j) {
      assert ArtifactsGood(sys, j);
      if next != sys.st {
        assert Advances(sys.st, next);
        forall i | 0 <= i < |after.ArtifactsOf(j)| ensures Bound(next, j, after.ArtifactsOf(j)[i]) {
          BoundStays(sys.st, next, j, sys.ArtifactsOf(j)[i]);
        }
      }
    }
  }

  // ---- The other turns ----

  lemma BeginKeeps(sys: System, e: Event)
    requires SystemValid(sys) && e.Begin? && BeginAnswer(sys, e).Started?
    ensures SystemValid(sys.(jobs := sys.jobs[e.job := SnapshotJob(sys, e)]))
  {
    hide Valid, Bound, Linked, KeysUnique, PacketOf, BodyOf;
    var next := sys.(jobs := sys.jobs[e.job := SnapshotJob(sys, e)]);
    var log := sys.st.AuditOf(e.caseId);
    assert log[..|log|] == log;
    assert Fresh(sys.st, SnapshotJob(sys, e), |log|);
    forall k ensures ArtifactsGood(next, k) {
      assert ArtifactsGood(sys, k);
    }
  }

  lemma DropKeeps(sys: System, job: Id)
    requires SystemValid(sys)
    ensures SystemValid(sys.(jobs := sys.jobs - {job}))
  {
    hide Valid, Bound, Linked, KeysUnique, JobGood;
    var next := sys.(jobs := sys.jobs - {job});
    forall k ensures ArtifactsGood(next, k) {
      assert ArtifactsGood(sys, k);
    }
  }

  // What is stored at commit is what would be built at commit.
  lemma CommitIsCurrent(sys: System, job: Id)
    requires SystemValid(sys) && job in sys.jobs && CommitAnswer(sys, sys.jobs[job]).Stored?
    ensures var a, k := CommitAnswer(sys, sys.jobs[job]).artifact, sys.jobs[job].caseId;
      && a.manifest == PacketOf(sys.st, k, a.packet)
      && a.body == BodyOf(sys.st, PacketOf(sys.st, k, a.packet))
      && a.root == Root(sys.st.AuditOf(k))
  {
    hide ArtifactsGood, ApprovalsHonest, ClaimsRooted, ConflictsRooted, SectionsRooted, CachesAgree, LinesKept,
         PacketOf, BodyOf, Linked;
    var j := sys.jobs[job];
    assert JobGood(sys.st, j);
    var m: nat :| Fresh(sys.st, j, m);
    AuditIsLinked(sys.st, j.caseId);
    RootFixesLength(sys.st.AuditOf(j.caseId), m);
  }

  lemma AuditIsLinked(st: State, k: Id)
    requires Valid(st)
    ensures Linked(st.AuditOf(k))
  {
  }

  lemma ExportBinds(st: State, job: Job, packetId: Id, row: Row<Artifact>)
    requires job.actor.Member(job.caseId) && row.id == packetId && row.content == ArtifactOf(job)
    requires Root(st.AuditOf(job.caseId)) == job.root
    ensures Bound(Exported(st, job.actor, job.caseId, packetId, job.at), job.caseId, row)
  {
    hide Withdrawn;
    var log := st.AuditOf(job.caseId);
    var next := Exported(st, job.actor, job.caseId, packetId, job.at);
    assert next.AuditOf(job.caseId)[|log|].content.action == PacketGenerated;
    assert BoundAt(next.AuditOf(job.caseId)[|log|], row);
  }

  lemma NewKeyUnique(rows: seq<Row<Artifact>>, row: Row<Artifact>)
    requires KeysUnique(rows) && ReplayIfPresent(rows, row.content.packet, row.content.key).None?
    ensures KeysUnique(rows + [row])
  {
  }

  lemma StoredMeansNew(sys: System, job: Job)
    requires CommitAnswer(sys, job).Stored?
    ensures ReplayIfPresent(sys.ArtifactsOf(job.caseId), job.packet, job.key).None?
    ensures Root(sys.st.AuditOf(job.caseId)) == job.root
  {
  }

  lemma StoreKeeps(sys: System, job: Job, packetId: Id)
    requires SystemValid(sys) && job.actor.Member(job.caseId) && CommitAnswer(sys, job).Stored?
    ensures SystemValid(WithArtifact(sys, job, packetId))
  {
    hide Valid, Bound, Linked, KeysUnique, ReplayIfPresent, Exported, NextRow, JobGood, GoodStep;
    var next := Exported(sys.st, job.actor, job.caseId, packetId, job.at);
    assert Valid(next) && QuietStep(sys.st, next, job.caseId) by { ExportIsQuiet(sys.st, job, packetId); }
    StepKeepsSystem(sys, next, job.caseId);
    var mid := sys.(st := next);
    var rows := sys.ArtifactsOf(job.caseId);
    var row := NextRow(rows, packetId, ArtifactOf(job));
    assert ArtifactsGood(mid, job.caseId);
    AppendStaysLinked(rows, packetId, ArtifactOf(job));
    assert row.id == packetId && row.content == ArtifactOf(job) by { RowCarries(rows, packetId, ArtifactOf(job)); }
    StoredMeansNew(sys, job);
    NewKeyUnique(rows, row);
    ExportBinds(sys.st, job, packetId, row);
    var after := WithArtifact(sys, job, packetId);
    forall k ensures ArtifactsGood(after, k) {
      assert ArtifactsGood(mid, k);
      if k == job.caseId {
        forall i | 0 <= i < |rows + [row]| ensures Bound(next, k, (rows + [row])[i]) {
          assert i < |rows| ==> (rows + [row])[i] == rows[i];
        }
      }
    }
  }

  lemma RowCarries(rows: seq<Row<Artifact>>, id: Id, a: Artifact)
    ensures NextRow(rows, id, a).id == id && NextRow(rows, id, a).content == a
  {
  }

  lemma ExportIsQuiet(st: State, job: Job, packetId: Id)
    requires Valid(st) && job.actor.Member(job.caseId)
    ensures Valid(Exported(st, job.actor, job.caseId, packetId, job.at))
    ensures QuietStep(st, Exported(st, job.actor, job.caseId, packetId, job.at), job.caseId)
  {
    hide Valid, Exported, StepIn;
    ExportedKeeps(st, job.actor, job.caseId, packetId, job.at);
  }

  lemma TurnKeeps(sys: System, e: Event, next: System)
    requires SystemValid(sys) && Turn(sys, e, next)
    ensures SystemValid(next)
  {
    hide SystemValid, Valid, Next, BeginAnswer, CommitAnswer, WithArtifact, SnapshotJob;
    match e
    case Operate(req) =>
      assert Valid(sys.st) by { SystemIsValid(sys); }
      NextIsGood(sys.st, req, next.st);
      StepKeepsSystem(sys, next.st, req.caseId);
    case Begin(job, _, _, _, _, _, _) =>
      if BeginAnswer(sys, e).Started? { BeginKeeps(sys, e); }
    case Commit(job, packetId) =>
      DropKeeps(sys, job);
      var done := sys.(jobs := sys.jobs - {job});
      if CommitAnswer(sys, sys.jobs[job]).Stored? {
        assert CommitAnswer(done, sys.jobs[job]).Stored? by { AnswerIgnoresJobs(sys, done, sys.jobs[job]); }
        StoreKeeps(done, sys.jobs[job], packetId);
      }
    case Abandon(job) => DropKeeps(sys, job);
  }

  lemma SystemIsValid(sys: System)
    requires SystemValid(sys)
    ensures Valid(sys.st)
  {
  }

  lemma AnswerIgnoresJobs(sys: System, other: System, job: Job)
    requires sys.st == other.st && sys.artifacts == other.artifacts
    ensures CommitAnswer(sys, job) == CommitAnswer(other, job)
  {
  }

  // ---- Whole runs ----

  ghost predicate Generation(systems: seq<System>, events: seq<Event>)
  {
    && |systems| == |events| + 1
    && SystemValid(systems[0])
    && forall i :: 0 <= i < |events| ==> Turn(systems[i], events[i], systems[i + 1])
  }

  lemma {:induction false} EverySystemIsValid(systems: seq<System>, events: seq<Event>, n: nat)
    requires Generation(systems, events) && n < |systems|
    ensures SystemValid(systems[n])
  {
    hide SystemValid, Turn;
    if n > 0 {
      EverySystemIsValid(systems, events, n - 1);
      assert Turn(systems[n - 1], events[n - 1], systems[n]);
      TurnKeeps(systems[n - 1], events[n - 1], systems[n]);
    }
  }

  // Whatever ran between snapshot and commit, a stored packet is the packet of
  // the evidence at its commit.
  lemma StoredPacketIsCurrent(systems: seq<System>, events: seq<Event>, n: nat)
    requires Generation(systems, events) && n < |events| && events[n].Commit?
    requires AnswerTo(systems[n], events[n]).Stored?
    ensures var st, a := systems[n].st, AnswerTo(systems[n], events[n]).artifact;
            var k := systems[n].jobs[events[n].job].caseId;
      && a.body == BodyOf(st, PacketOf(st, k, a.packet)) && a.manifest == PacketOf(st, k, a.packet)
      && a.root == Root(st.AuditOf(k))
  {
    hide SystemValid, Turn, PacketOf, BodyOf, CommitAnswer;
    EverySystemIsValid(systems, events, n);
    CommitIsCurrent(systems[n], events[n].job);
  }

  lemma ArtifactsOnlyGrow(sys: System, e: Event, next: System, k: Id)
    requires Turn(sys, e, next)
    ensures sys.ArtifactsOf(k) <= next.ArtifactsOf(k)
  {
    hide Next, BeginAnswer, CommitAnswer, Exported, SnapshotJob;
  }

  lemma {:induction false} ArtifactsAccumulate(systems: seq<System>, events: seq<Event>, i: nat, n: nat, k: Id)
    requires Generation(systems, events) && i <= n < |systems|
    ensures systems[i].ArtifactsOf(k) <= systems[n].ArtifactsOf(k)
    decreases n
  {
    hide SystemValid, Turn;
    if i < n {
      ArtifactsAccumulate(systems, events, i, n - 1, k);
      assert Turn(systems[n - 1], events[n - 1], systems[n]);
      ArtifactsOnlyGrow(systems[n - 1], events[n - 1], systems[n], k);
    }
  }

  lemma KeyFindsItsOwner(rows: seq<Row<Artifact>>, i: nat, key: string)
    requires KeysUnique(rows) && i < |rows| && rows[i].content.key == Some(key)
    ensures FindKey(rows, key) == Some(rows[i].content)
  {
    var found := FindKey(rows, key);
    assert found.Some?;
    var j :| 0 <= j < |rows| && rows[j].content == found.value;
    assert i == j;
  }

  // Once an artifact is stored under a key, every later request with that key
  // gets that same artifact back, at its start or at its commit, and a request
  // of the other kind is refused.
  lemma KeyReplaysForever(systems: seq<System>, events: seq<Event>, i: nat, n: nat, k: Id, r: nat, packet: PacketType)
    requires Generation(systems, events) && i <= n < |systems|
    requires r < |systems[i].ArtifactsOf(k)| && systems[i].ArtifactsOf(k)[r].content.key.Some?
    ensures var a := systems[i].ArtifactsOf(k)[r].content;
            ReplayIfPresent(systems[n].ArtifactsOf(k), packet, a.key)
            == Some(if packet == a.packet then Replayed(a) else Denied(DuplicateConflict))
  {
    hide Turn, Valid, JobGood, Bound;
    var a := systems[i].ArtifactsOf(k)[r].content;
    ArtifactsAccumulate(systems, events, i, n, k);
    EverySystemIsValid(systems, events, n);
    assert ArtifactsGood(systems[n], k);
    KeyFindsItsOwner(systems[n].ArtifactsOf(k), r, a.key.value);
  }

  // Artifact chains verify in every reachable system, one artifact per key, each
  // tied to its own place in the audit chain.
  lemma ArtifactsAlwaysVerify(systems: seq<System>, events: seq<Event>, n: nat, k: Id)
    requires Generation(systems, events) && n < |systems|
    ensures Linked(systems[n].ArtifactsOf(k)) && KeysUnique(systems[n].ArtifactsOf(k))
    ensures forall i :: 0 <= i < |systems[n].ArtifactsOf(k)| ==> Bound(systems[n].st, k, systems[n].ArtifactsOf(k)[i])
  {
    hide Turn, Valid, JobGood, Bound, Linked;
    EverySystemIsValid(systems, events, n);
    assert ArtifactsGood(systems[n], k);
  }
}
