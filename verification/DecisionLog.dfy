// The internal packet's decision log is the full log, in any reachable state and
// in any stored packet.

module DecisionLogs {
  import opened Basics
  import opened Chains
  import opened Evidence
  import opened Steps
  import opened Soundness
  import opened Runs
  import opened Packets
  import P = PacketGeneration

  // Every row of a matter's decision chain rules on a conflict of the matter.
  ghost predicate RulingsRooted(st: State)
  {
    forall k, i :: 0 <= i < |st.DecisionsOf(k)| ==> RuledIn(st, k, st.DecisionsOf(k)[i])
  }

  lemma EmptyIsRooted()
    ensures RulingsRooted(EMPTY)
  {
  }

  // ---- Only a decision adds to the chain ----

  lemma OnlyRulingsDecide(st: State, actor: Actor, k: Id, cmd: Command, now: int)
    requires FreshIds(st, k, cmd) && Refusal(st, actor, k, cmd).None? && !cmd.DecideConflict?
    ensures Effect(st, actor, k, cmd, now).decisions == st.decisions
  {
    hide Settled, Withdrawn, NextRow, Event, FlagRefusal, ClaimRefusal, AttestRefusal, SnapshotRefusal, ClaimCreated,
         Flagged, ImpactOf, EvidenceDigest, RevisionOf, NextPosition;
    if cmd.FlagConflict? { FlagKeepsHistory(st, actor, k, cmd.id, cmd.conflict, now); }
  }

  lemma AdvanceKeepsRuling(st: State, next: State, k: Id, row: Row<DecisionRecord>)
    requires Advances(st, next) && RuledIn(st, k, row)
    ensures RuledIn(next, k, row)
  {
    hide ClaimAdvances;
    assert ConflictAdvances(st.conflicts[row.content.conflictId], next.conflicts[row.content.conflictId]);
  }

  lemma SameLogsKeep(st: State, next: State)
    requires RulingsRooted(st) && Advances(st, next) && next.decisions == st.decisions
    ensures RulingsRooted(next)
  {
    hide Advances;
    forall k, i | 0 <= i < |next.DecisionsOf(k)| ensures RuledIn(next, k, next.DecisionsOf(k)[i]) {
      AdvanceKeepsRuling(st, next, k, st.DecisionsOf(k)[i]);
    }
  }

  lemma RulingKeeps(st: State, actor: Actor, k: Id, input: Ruling, now: int)
    requires RulingsRooted(st) && DecideRefusal(st, actor, k, input).None? && Advances(st, Decided(st, actor, k, input, now))
    ensures RulingsRooted(Decided(st, actor, k, input, now))
  {
    hide Advances, Decided, KeepsHistory;
    var next := Decided(st, actor, k, input, now);
    DecideKeepsHistory(st, actor, k, input, now);
    forall j, i | 0 <= i < |next.DecisionsOf(j)| ensures RuledIn(next, j, next.DecisionsOf(j)[i]) {
      if i < |st.DecisionsOf(j)| {
        assert next.DecisionsOf(j)[i] == st.DecisionsOf(j)[i];
        AdvanceKeepsRuling(st, next, j, st.DecisionsOf(j)[i]);
      } else {
        AdvanceKeepsRuling(st, next, j, next.DecisionsOf(j)[i]);
      }
    }
  }

  lemma NextKeepsRulings(st: State, req: Request, next: State)
    requires Valid(st) && Next(st, req, next) && RulingsRooted(st)
    ensures RulingsRooted(next)
  {
    hide Valid, Effect, RulingsRooted, Advances, ElsewhereSame;
    NextIsGood(st, req, next);
    if Refusal(st, req.actor, req.caseId, req.cmd).None? {
      if req.cmd.DecideConflict? {
        RulingEffect(st, req);
        RulingKeeps(st, req.actor, req.caseId, req.cmd.ruling, req.now);
      } else {
        OnlyRulingsDecide(st, req.actor, req.caseId, req.cmd, req.now);
        SameLogsKeep(st, next);
      }
    }
  }

  lemma RulingEffect(st: State, req: Request)
    requires FreshIds(st, req.caseId, req.cmd) && Refusal(st, req.actor, req.caseId, req.cmd).None? && req.cmd.DecideConflict?
    ensures DecideRefusal(st, req.actor, req.caseId, req.cmd.ruling).None?
    ensures Effect(st, req.actor, req.caseId, req.cmd, req.now) == Decided(st, req.actor, req.caseId, req.cmd.ruling, req.now)
  {
  }

  // ---- The log is full ----

  // The log lists the rows of the chain at these places, each once, the latest first.
  ghost predicate FullLog(rows: seq<Row<DecisionRecord>>, log: seq<DecisionLine>, order: seq<nat>)
  {
    && |order| == |log| && Distinct(order) && (forall i: nat :: i in order <==> i < |rows|)
    && (forall j :: 0 <= j < |log| ==> order[j] < |rows| && log[j].record == rows[order[j]].content)
    && (forall i, j :: 0 <= i < j < |log| ==> log[i].record.at >= log[j].record.at)
  }

  lemma RootedLogIsFull(st: State, k: Id)
    requires RulingsRooted(st)
    ensures FullLog(st.DecisionsOf(k), DecisionLog(st, k), RulingOrder(st, k))
    ensures |DecisionLog(st, k)| == |st.DecisionsOf(k)|
  {
    var rows, order, log := st.DecisionsOf(k), RulingOrder(st, k), DecisionLog(st, k);
    assert forall i: nat :: i in RulingsIn(st, k) <==> i < |rows|;
    forall i, j | 0 <= i < j < |log| ensures log[i].record.at >= log[j].record.at {
      assert order[i] in order && order[j] in order;
      assert Before(Recency(rows, RulingsIn(st, k)), order[i], order[j]);
    }
    AllPlaces(order, |rows|);
  }

  lemma AllPlaces(order: seq<nat>, n: nat)
    requires Distinct(order) && forall i: nat :: i in order <==> i < n
    ensures |order| == n
  {
    DistinctSize(order);
    PlacesCount(n);
    assert Elements(order) == Places(n);
  }

  function Places(n: nat): set<nat> { if n == 0 then {} else Places(n - 1) + {n - 1} }

  lemma {:induction false} PlacesCount(n: nat)
    ensures |Places(n)| == n && forall i: nat :: i in Places(n) <==> i < n
  {
    if n > 0 { PlacesCount(n - 1); }
  }

  lemma {:induction false} RulingsStayRooted(states: seq<State>, requests: seq<Request>, n: nat)
    requires Run(states, requests) && RulingsRooted(states[0]) && n < |states|
    ensures RulingsRooted(states[n])
  {
    hide Valid, Next, RulingsRooted;
    if n > 0 {
      RulingsStayRooted(states, requests, n - 1);
      EveryStateIsValid(states, requests, n - 1);
      assert Next(states[n - 1], requests[n - 1], states[n]);
      NextKeepsRulings(states[n - 1], requests[n - 1], states[n]);
    }
  }

  // In every state of every run the internal packet holds every decision of its
  // matter once, the latest first; the production packet holds none.
  lemma EveryDecisionIsListed(states: seq<State>, requests: seq<Request>, n: nat, k: Id)
    requires Run(states, requests) && RulingsRooted(states[0]) && n < |states|
    ensures var st := states[n];
      && PacketOf(st, k, Internal).decisions == Some(DecisionLog(st, k))
      && FullLog(st.DecisionsOf(k), DecisionLog(st, k), RulingOrder(st, k)) && |DecisionLog(st, k)| == |st.DecisionsOf(k)|
      && PacketOf(st, k, Production).decisions.None?
  {
    hide Run, RulingsRooted, FullLog, DecisionLog, RulingOrder;
    RulingsStayRooted(states, requests, n);
    RootedLogIsFull(states[n], k);
    PacketDecisions(states[n], k);
  }

  lemma PacketDecisions(st: State, k: Id)
    ensures PacketOf(st, k, Internal).decisions == Some(DecisionLog(st, k)) && PacketOf(st, k, Production).decisions.None?
  {
    hide DecisionLog, EntriesOf, PlansIn, RefsIn, Views, CitedByAll, SourcesOf, AllLines, LogOf, CountOf;
  }

  // ---- Stored packets ----

  lemma TurnKeepsRulings(sys: P.System, e: P.Event, next: P.System)
    requires P.SystemValid(sys) && P.Turn(sys, e, next) && RulingsRooted(sys.st)
    ensures RulingsRooted(next.st)
  {
    hide Next, P.BeginAnswer, P.CommitAnswer, P.SnapshotJob, RulingsRooted, Valid, P.JobGood, P.ArtifactsGood;
    match e
    case Operate(req) => NextKeepsRulings(sys.st, req, next.st);
    case Commit(job, packetId) =>
      var j := sys.jobs[job];
      ExportKeepsRulings(sys.st, j.actor, j.caseId, packetId, j.at);
    case _ =>
  }

  lemma ExportKeepsRulings(st: State, actor: Actor, k: Id, packetId: Id, now: int)
    requires RulingsRooted(st) && actor.Member(k)
    ensures RulingsRooted(Exported(st, actor, k, packetId, now))
  {
    hide Audited, SameTexts;
    AuditKeepsHistory(st, k, Event(actor, k, now, PacketGenerated, OnExport, packetId, false));
    var next := Exported(st, actor, k, packetId, now);
    forall j, i | 0 <= i < |next.DecisionsOf(j)| ensures RuledIn(next, j, next.DecisionsOf(j)[i]) {
      assert RuledIn(st, j, st.DecisionsOf(j)[i]);
    }
  }

  lemma {:induction false} EverySystemIsRooted(systems: seq<P.System>, events: seq<P.Event>, n: nat)
    requires P.Generation(systems, events) && RulingsRooted(systems[0].st) && n < |systems|
    ensures RulingsRooted(systems[n].st)
  {
    hide P.SystemValid, P.Turn, RulingsRooted;
    if n > 0 {
      EverySystemIsRooted(systems, events, n - 1);
      P.EverySystemIsValid(systems, events, n - 1);
      assert P.Turn(systems[n - 1], events[n - 1], systems[n]);
      TurnKeepsRulings(systems[n - 1], events[n - 1], systems[n]);
    }
  }

  // A stored internal packet lists every decision made in its matter up to its
  // commit, whatever was decided between snapshot and commit.
  lemma StoredLogIsFull(systems: seq<P.System>, events: seq<P.Event>, n: nat)
    requires P.Generation(systems, events) && RulingsRooted(systems[0].st) && n < |events| && events[n].Commit?
    requires P.AnswerTo(systems[n], events[n]).Stored? && P.AnswerTo(systems[n], events[n]).artifact.packet == Internal
    ensures var st, a := systems[n].st, P.AnswerTo(systems[n], events[n]).artifact;
            var k := systems[n].jobs[events[n].job].caseId;
      && a.manifest.decisions == Some(DecisionLog(st, k)) && |DecisionLog(st, k)| == |st.DecisionsOf(k)|
      && FullLog(st.DecisionsOf(k), DecisionLog(st, k), RulingOrder(st, k))
  {
    hide P.SystemValid, P.Turn, PacketOf, P.CommitAnswer, RulingsRooted, FullLog, DecisionLog, RulingOrder;
    P.StoredPacketIsCurrent(systems, events, n);
    EverySystemIsRooted(systems, events, n);
    var st, k := systems[n].st, systems[n].jobs[events[n].job].caseId;
    RootedLogIsFull(st, k);
    PacketDecisions(st, k);
  }
}
