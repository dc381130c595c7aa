/** The experiment's configuration constants (code/parameters.py), held fixed. */
module Params {
  const NumAgents: nat := 7
  const NumRounds: nat := 15
  /** Every agent's payoff account starts here. */
  const InitialTokens: real := 1000.0
  const EndowmentStage1: int := 20
  const EndowmentStage2: int := 20
  /** Exact rational 1.6: the factor applied to the pooled contributions. */
  const PublicGoodMultiplier: real := 1.6
  const MinContribution: int := 0
  const MaxContribution: int := EndowmentStage1
  /** Each punishment token lowers the victim's payoff by this much. */
  const PunishmentEffect: int := 3
  /** Each punishment token costs the punisher this much. */
  const PunishmentCost: int := 1
  const RewardEffect: int := 1
  const RewardCost: int := 1
  /** Number of past anonymised rounds an agent keeps. */
  const DisplayPastActions: nat := 5
}
