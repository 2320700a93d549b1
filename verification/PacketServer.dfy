// The packet operation as the server runs it, phase by phase, on its stored rows.

module PacketServers {
  import opened Basics
  import opened Domain
  import opened Chains
  import opened Evidence
  import opened Steps
  import opened Packets
  import opened Bodies
  import opened PacketBuilder
  import P = PacketGeneration

  class PacketServer {
    var st: State
    var artifacts: map<Id, seq<Row<P.Artifact>>>
    var jobs: map<Id, P.Job>

    ghost function View(): P.System
      reads this
    {
      P.System(st, artifacts, jobs)
    }

    constructor (st: State)
      ensures View() == P.System(st, map[], map[])
    {
      this.st, artifacts, jobs := st, map[], map[];
    }

    // The stored artifact of an idempotency key, if the matter has one.
    method Replay(caseId: Id, packet: PacketType, key: Option<string>) returns (answer: Option<P.Answer>)
      ensures answer == P.ReplayIfPresent(View().ArtifactsOf(caseId), packet, key)
    {
      if key.None? {
        return None;
      }
      var rows := if caseId in artifacts then artifacts[caseId] else [];
      for n := 0 to |rows|
        invariant P.FindKey(rows, key.value) == P.FindKey(rows[n..], key.value)
      {
        var existing := rows[n].content;
        assert rows[n..][0] == rows[n] && rows[n..][1..] == rows[n + 1..];
        if existing.key == key {
          return Some(if existing.packet == packet then P.Replayed(existing) else P.Denied(DuplicateConflict));
        }
      }
      answer := None;
    }

    // Under the matter's lock: permission, replay, size, then the snapshot.
    method Begin(job: Id, actor: Actor, caseId: Id, packet: PacketType, key: Option<string>, limit: nat, now: int)
      returns (answer: P.Answer)
      requires job !in jobs
      modifies this`jobs
      ensures answer == P.BeginAnswer(old(View()), P.Begin(job, actor, caseId, packet, key, limit, now))
      ensures P.Turn(old(View()), P.Begin(job, actor, caseId, packet, key, limit, now), View())
    {
      hide PacketOf, BodyOf, P.ReplayIfPresent;
      if !actor.Member(caseId) || actor.roles[caseId] != SeniorCounsel {
        return P.Denied(PermissionDenied);
      }
      var replay := Replay(caseId, packet, key);
      if replay.Some? {
        assert !replay.value.Started? by { ReplayNeverStarts(View().ArtifactsOf(caseId), packet, key); }
        return replay.value;
      }
      if |P.SectionsOfCase(st, caseId)| > limit {
        return P.Denied(ValidationFailure);
      }
      var root := Root(if caseId in st.audit then st.audit[caseId] else []);
      var manifest := BuildPacket(st, caseId, packet);
      jobs := jobs[job := P.Job(actor, caseId, packet, key, now, root, manifest, BodyOf(st, manifest))];
      answer := P.Started;
    }

    // Under the lock again: replay, the root recheck, then artifact and event.
    method Commit(job: Id, packetId: Id) returns (answer: P.Answer)
      requires job in jobs && jobs[job].actor.Member(jobs[job].caseId)
      modifies this
      ensures answer == P.CommitAnswer(old(View()), old(jobs)[job])
      ensures P.Turn(old(View()), P.Commit(job, packetId), View())
    {
      hide Exported, P.ReplayIfPresent, NextRow;
      var j := jobs[job];
      jobs := jobs - {job};
      var replay := Replay(j.caseId, j.packet, j.key);
      if replay.Some? {
        assert !replay.value.Stored? by { ReplayNeverStarts(View().ArtifactsOf(j.caseId), j.packet, j.key); }
        return replay.value;
      }
      if Root(if j.caseId in st.audit then st.audit[j.caseId] else []) != j.root {
        return P.Denied(DuplicateConflict);
      }
      var rows := if j.caseId in artifacts then artifacts[j.caseId] else [];
      artifacts := artifacts[j.caseId := rows + [NextRow(rows, packetId, P.ArtifactOf(j))]];
      st := Exported(st, j.actor, j.caseId, packetId, j.at);
      answer := P.Stored(P.ArtifactOf(j));
    }
  }

  lemma ReplayNeverStarts(rows: seq<Row<P.Artifact>>, packet: PacketType, key: Option<string>)
    ensures var r := P.ReplayIfPresent(rows, packet, key); r.Some? ==> !r.value.Started? && !r.value.Stored?
  {
  }
}
