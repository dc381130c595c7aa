/**
 * The values a round leaves behind (code/environment.py:105-226): the
 * per-agent entry of the round record, the feedback entry appended to an
 * agent's own history, and the anonymised entries its peers get to see.
 */
module Records {
  import opened Wrappers
  import opened Dicts
  import opened Decisions

  /** One agent's entry in `round_data['agents']`. */
  datatype AgentData = AgentData(
    institutionChoice: Option<Kind>,
    institutionReasoning: string,
    contribution: int,
    contributionReasoning: string,
    stage1Payoff: real,
    stage2Payoff: int,
    payoff: real,
    cumulativePayoff: real,
    strategy: string,
    receivedPunishments: int,
    receivedRewards: int,
    assignedPunishments: Dict,
    assignedRewards: Dict,
    punishmentReasoning: string,
    deanonymizedPunishmentReasoning: string,
    rank: string)

  /** The agent's copy of its entry, plus the round number and the institution averages. */
  datatype Feedback = Feedback(
    data: AgentData,
    roundNumber: int,
    avgPayoffSI: real,
    avgPayoffSFI: real,
    avgContributionInstitution: real)

  /** What a peer sees of an agent: seven fields, none of its assigned allocations. */
  datatype AnonEntry = AnonEntry(
    institutionChoice: Option<Kind>,
    contribution: int,
    receivedPunishments: int,
    receivedRewards: int,
    stage1Payoff: real,
    stage2Payoff: int,
    totalRoundPayoff: real)

  /** `anonymous_data`: the entry a peer sees, built only from these seven fields of the record entry. */
  function Anonymize(d: AgentData): (e: AnonEntry)
    ensures e.institutionChoice == d.institutionChoice && e.contribution == d.contribution
    ensures e.receivedPunishments == d.receivedPunishments && e.receivedRewards == d.receivedRewards
    ensures e.stage1Payoff == d.stage1Payoff && e.stage2Payoff == d.stage2Payoff && e.totalRoundPayoff == d.payoff
  {
    AnonEntry(d.institutionChoice, d.contribution, d.receivedPunishments, d.receivedRewards,
              d.stage1Payoff, d.stage2Payoff, d.payoff)
  }

  /**
   * Anonymity: two record entries that differ only in what an agent assigned,
   * its reasoning, its cumulative payoff, strategy or rank look the same to
   * its peers.
   */
  lemma AnonymizeHidesAllocations(d: AgentData, d': AgentData)
    requires d'.institutionChoice == d.institutionChoice && d'.contribution == d.contribution
    requires d'.receivedPunishments == d.receivedPunishments && d'.receivedRewards == d.receivedRewards
    requires d'.stage1Payoff == d.stage1Payoff && d'.stage2Payoff == d.stage2Payoff && d'.payoff == d.payoff
    ensures Anonymize(d') == Anonymize(d)
  {
  }

  /** A staged batch of peer entries once it is filed under a round number. */
  datatype AnonBatch = AnonBatch(roundNumber: int, entries: seq<AnonEntry>)

  /** `round_data`: the record of one round; `agents` is keyed by agent id, in population order. */
  datatype RoundData = RoundData(
    roundNumber: int,
    siMembers: seq<int>,
    sfiMembers: seq<int>,
    siTotalContribution: int,
    sfiTotalContribution: int,
    siAvgContribution: real,
    sfiAvgContribution: real,
    agents: seq<(int, AgentData)>)
}
