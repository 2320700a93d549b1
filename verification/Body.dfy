// The rendered packet body, reduced to the fields it reads.

module Bodies {
  import opened Basics
  import opened Domain
  import opened Evidence
  import opened Packets

  // A sanitized row shows only its opaque reference.
  datatype Heading = Named(title: string, paragraphRef: string) | Opaque(artifact: ArtifactRef)

  datatype ManifestRow = ManifestRow(heading: Heading, status: SectionStatus, reason: Reason)

  datatype SourceLine = SourceLine(title: string, docketRef: Option<string>)

  datatype Citation = RedactedCitation(ref: Option<nat>) | FullCitation(content: Option<ClaimContent>, source: Option<SourceLine>)

  // Without a summary, a fixed phrase says the counterpart is withheld.
  datatype DisclosureBody = DisclosureBody(summary: Option<string>, a: Citation, b: Citation)

  datatype SectionBody = SectionBody(title: string, paragraphRef: string, mark: Option<SectionStatus>, text: string,
                                     disclosures: seq<DisclosureBody>)

  datatype Meta = Meta(status: ClaimStatus, eligibility: Eligibility, assessment: Assessment, privilege: Privilege)

  datatype AppendixClaim = WithheldLine | AppendixClaim(id: Id, citation: Citation, meta: Option<Meta>)

  datatype AppendixSource = AppendixSource(identity: SourceIdentity, origin: string, docketRef: Option<string>,
                                           sha256: string, custody: string, ingestedAt: int)

  datatype LogRow = LogRow(identity: SourceIdentity, privilege: Privilege, refs: seq<nat>)

  datatype DecisionBody = DecisionBody(decision: DecisionType, at: int, summary: string, reviewer: string, role: Role,
                                       previous: ConflictStatus, current: ConflictStatus, reasoning: string,
                                       impactA: Eligibility, impactB: Eligibility)

  datatype Body = Body(stamp: PacketType, manifest: seq<ManifestRow>, stats: (nat, nat, nat), sections: seq<SectionBody>,
                       claims: seq<AppendixClaim>, sources: seq<Option<AppendixSource>>, log: seq<Option<LogRow>>,
                       decisions: Option<seq<DecisionBody>>)

  function RowOf(entry: Entry): ManifestRow
  {
    ManifestRow(if entry.shown.Some? then Named(entry.shown.value.title, entry.shown.value.paragraphRef) else Opaque(entry.artifact),
                entry.impact, entry.reason)
  }

  function Rows(entries: seq<Entry>): seq<ManifestRow>
  {
    seq(|entries|, i requires 0 <= i < |entries| => RowOf(entries[i]))
  }

  // Only the sources of appendix B can be named beside a citation.
  function LineOf(st: State, sources: seq<Id>, source: Id): Option<SourceLine>
  {
    if source in sources && source in st.sources then
      Some(SourceLine(st.sources[source].identity.title, st.sources[source].details.docketRef))
    else None
  }

  function RenderCitation(st: State, sources: seq<Id>, v: ClaimView): Citation
  {
    if v.redacted then RedactedCitation(v.ref)
    else if v.id in st.claims then
      FullCitation(Some(st.claims[v.id].content), LineOf(st, sources, st.claims[v.id].sourceId))
    else FullCitation(None, None)
  }

  function RenderDisclosure(st: State, sources: seq<Id>, d: Disclosure): DisclosureBody
  {
    DisclosureBody(
      if d.a.redacted || d.b.redacted || d.conflict !in st.conflicts then None else Some(st.conflicts[d.conflict].summary),
      RenderCitation(st, sources, d.a), RenderCitation(st, sources, d.b))
  }

  function RenderDisclosures(st: State, sources: seq<Id>, ds: seq<Disclosure>): (r: seq<DisclosureBody>)
    ensures |r| == |ds| && forall i :: 0 <= i < |r| ==> r[i] == RenderDisclosure(st, sources, ds[i])
  {
    seq(|ds|, i requires 0 <= i < |ds| => RenderDisclosure(st, sources, ds[i]))
  }

  function RenderSection(st: State, p: Packet, entry: Entry): seq<SectionBody>
  {
    if entry.disposition != Included || entry.shown.None? then []
    else [SectionBody(entry.shown.value.title, entry.shown.value.paragraphRef,
                      if p.packet == Internal && entry.impact in {PrivilegedMaterial, SectionBlocked} then Some(entry.impact) else None,
                      entry.shown.value.text, RenderDisclosures(st, p.citedSources, entry.disclosures))]
  }

  function RenderSections(st: State, p: Packet, entries: seq<Entry>): seq<SectionBody>
  {
    if entries == [] then []
    else RenderSections(st, p, entries[..|entries| - 1]) + RenderSection(st, p, entries[|entries| - 1])
  }

  function RenderClaim(st: State, p: Packet, v: ClaimView): AppendixClaim
  {
    if v.redacted then WithheldLine
    else AppendixClaim(v.id, RenderCitation(st, p.citedSources, v),
                       if p.packet == Production || v.id !in st.claims then None
                       else Some(Meta(st.claims[v.id].status, st.claims[v.id].eligibility, st.claims[v.id].assessment,
                                      st.claims[v.id].privilege)))
  }

  function RenderClaims(st: State, p: Packet): (r: seq<AppendixClaim>)
    ensures |r| == |p.cited| && forall i :: 0 <= i < |r| ==> r[i] == RenderClaim(st, p, p.cited[i])
  {
    seq(|p.cited|, i requires 0 <= i < |p.cited| => RenderClaim(st, p, p.cited[i]))
  }

  function RenderSource(st: State, source: Id): Option<AppendixSource>
  {
    if source !in st.sources then None
    else
      var s := st.sources[source];
      Some(AppendixSource(s.identity, s.details.origin, s.details.docketRef, s.details.sha256, s.details.custody,
                          s.details.ingestedAt))
  }

  function RenderSources(st: State, p: Packet): (r: seq<Option<AppendixSource>>)
    ensures |r| == |p.citedSources| && forall i :: 0 <= i < |r| ==> r[i] == RenderSource(st, p.citedSources[i])
  {
    seq(|p.citedSources|, i requires 0 <= i < |p.citedSources| => RenderSource(st, p.citedSources[i]))
  }

  // Identity only: what the document is, never what it says.
  function RenderLogEntry(st: State, entry: LogEntry): Option<LogRow>
  {
    if entry.source !in st.sources then None
    else Some(LogRow(st.sources[entry.source].identity, st.sources[entry.source].privilege, entry.refs))
  }

  function RenderLog(st: State, p: Packet): (r: seq<Option<LogRow>>)
    ensures |r| == |p.log| && forall i :: 0 <= i < |r| ==> r[i] == RenderLogEntry(st, p.log[i])
  {
    seq(|p.log|, i requires 0 <= i < |p.log| => RenderLogEntry(st, p.log[i]))
  }

  function RenderDecision(line: DecisionLine): DecisionBody
  {
    var d := line.record;
    DecisionBody(d.decision, d.at, line.summary, d.reviewer, d.role, d.previous, d.current, d.reasoning, d.impactA, d.impactB)
  }

  function RenderDecisions(lines: Option<seq<DecisionLine>>): Option<seq<DecisionBody>>
  {
    if lines.None? then None
    else Some(seq(|lines.value|, i requires 0 <= i < |lines.value| => RenderDecision(lines.value[i])))
  }

  function BodyOf(st: State, p: Packet): Body
  {
    Body(p.packet, Rows(p.entries), (p.included, p.excluded, p.withheld), RenderSections(st, p, p.entries),
         RenderClaims(st, p), RenderSources(st, p), RenderLog(st, p), RenderDecisions(p.decisions))
  }
}
