/**
 * An agent (code/agent.py): its per-round and cumulative state, the two
 * payoff formulas, and the methods through which the round engine updates
 * it. Decisions come from the oracle as decoded replies.
 */
module Agents {
  import opened Wrappers
  import opened Params
  import opened Dicts
  import opened Decisions
  import opened Records

  /** The per-capita share of the public good: `PUBLIC_GOOD_MULTIPLIER * total / size`, or 0 for an empty group. */
  function PublicGoodShare(groupSize: int, total: int): (r: real)
    ensures groupSize > 0 ==> r * groupSize as real == PublicGoodMultiplier * total as real
    ensures groupSize <= 0 ==> r == 0.0
  {
    if groupSize > 0 then PublicGoodMultiplier * total as real / groupSize as real else 0.0
  }

  /** `get_stage1_payoff`: the tokens kept plus the share of the public good. */
  function Stage1Payoff(contribution: int, groupSize: int, total: int): (r: real)
    ensures groupSize > 0 ==>
      r * groupSize as real == (EndowmentStage1 - contribution) as real * groupSize as real + PublicGoodMultiplier * total as real
    ensures groupSize <= 0 ==> r == (EndowmentStage1 - contribution) as real
  {
    (EndowmentStage1 - contribution) as real + PublicGoodShare(groupSize, total)
  }

  /**
   * `get_stage2_payoff`: the stage-two endowment less what the assigned
   * punishments and rewards cost, plus the effects received.
   */
  function Stage2Payoff(punishments: Dict, rewards: Dict, receivedPunishments: int, receivedRewards: int): (r: int)
    ensures punishments == [] && rewards == [] ==> r == EndowmentStage2 + receivedRewards - receivedPunishments
  {
    EndowmentStage2 - (Sum(punishments) * PunishmentCost + Sum(rewards) * RewardCost)
      + receivedRewards - receivedPunishments
  }

  /**
   * An allocation the parser can produce (non-negative counts within the
   * stage-two endowment) costs between nothing and the whole endowment, so
   * the stage-two payoff lies between the net effect received and that net
   * effect plus the endowment.
   */
  lemma Stage2PayoffRange(punishments: Dict, rewards: Dict, receivedPunishments: int, receivedRewards: int)
    ensures NonNegative(punishments) && NonNegative(rewards) && Sum(punishments) + Sum(rewards) <= EndowmentStage2 ==>
      var r := Stage2Payoff(punishments, rewards, receivedPunishments, receivedRewards);
      receivedRewards - receivedPunishments <= r <= EndowmentStage2 + receivedRewards - receivedPunishments
  {
    if NonNegative(punishments) && NonNegative(rewards) {
      SumNonNegative(punishments);
      SumNonNegative(rewards);
    }
  }

  /** The stage-one payoffs of a group whose members contributed `cs`, added up. */
  function GroupStage1(cs: seq<int>, groupSize: int, total: int): real {
    if cs == [] then 0.0 else GroupStage1(cs[..|cs| - 1], groupSize, total) + Stage1Payoff(cs[|cs| - 1], groupSize, total)
  }

  lemma {:induction false} GroupStage1Shares(cs: seq<int>, groupSize: int, total: int)
    ensures GroupStage1(cs, groupSize, total)
         == (|cs| * EndowmentStage1 - IntSum(cs)) as real + |cs| as real * PublicGoodShare(groupSize, total)
  {
    if cs != [] {
      GroupStage1Shares(cs[..|cs| - 1], groupSize, total);
    }
  }

  /**
   * The public good is shared out exactly: a non-empty group's stage-one
   * payoffs add up to its endowments, less what it contributed, plus the
   * multiplied contributions.
   */
  lemma GroupStage1Conserved(cs: seq<int>)
    requires cs != []
    ensures GroupStage1(cs, |cs|, IntSum(cs))
         == (|cs| * EndowmentStage1 - IntSum(cs)) as real + PublicGoodMultiplier * IntSum(cs) as real
  {
    GroupStage1Shares(cs, |cs|, IntSum(cs));
  }

  /**
   * The sanction-free worked example: two agents contribute 10 and 20; the
   * pool share is 1.6 * 30 / 2 = 24, the stage-one payoffs 34 and 24, and
   * with the flat stage-two endowment the round totals are 54 and 44.
   */
  lemma SanctionFreeExample()
    ensures Stage1Payoff(10, 2, 30) == 34.0 && Stage1Payoff(20, 2, 30) == 24.0
    ensures Stage1Payoff(10, 2, 30) + EndowmentStage2 as real == 54.0
    ensures Stage1Payoff(20, 2, 30) + EndowmentStage2 as real == 44.0
  {
    assert PublicGoodShare(2, 30) == 24.0;
  }

  /**
   * The sanctioning worked example: A assigns 5 punishment tokens to B; A
   * keeps 20 - 5 = 15 of its stage-two endowment and B, receiving an effect
   * of 15, ends stage two with 5.
   */
  lemma SanctioningExample(b: int)
    ensures Stage2Payoff([(b, 5)], [], 0, 0) == 15
    ensures 5 * PunishmentEffect == 15 && Stage2Payoff([], [], 5 * PunishmentEffect, 0) == 5
  {
    assert Sum([(b, 5)]) == 5;
  }

  /** The window of anonymous batches a log of staged batches leaves: its last DISPLAY_PAST_ACTIONS. */
  function Latest(log: seq<AnonBatch>): (w: seq<AnonBatch>)
    ensures |w| == Min(|log|, DisplayPastActions)
  {
    if |log| <= DisplayPastActions then log else log[|log| - DisplayPastActions..]
  }

  /** `append`, then `pop(0)` once the window is longer than DISPLAY_PAST_ACTIONS. */
  function PushBatch(window: seq<AnonBatch>, b: AnonBatch): seq<AnonBatch> {
    var h := window + [b];
    if |h| > DisplayPastActions then h[1..] else h
  }

  /** Filing batches one at a time keeps exactly the newest DISPLAY_PAST_ACTIONS of them, oldest first. */
  lemma WindowKeepsLatest(log: seq<AnonBatch>, b: AnonBatch)
    ensures PushBatch(Latest(log), b) == Latest(log + [b])
  {
    var l := log + [b];
    if |log| >= DisplayPastActions {
      assert Latest(log) + [b] == log[|log| - DisplayPastActions..] + [b];
      assert (log[|log| - DisplayPastActions..] + [b])[1..] == l[|l| - DisplayPastActions..];
    }
  }

  class Agent {
    const agentId: int
    const strategy: string
    var institutionChoice: Option<Kind>
    var contribution: int
    var cumulativePayoff: real
    var roundPayoff: real
    var history: seq<Feedback>
    var receivedPunishments: int
    var receivedRewards: int
    var assignedPunishments: Dict
    var assignedRewards: Dict
    var roundNumber: int
    var institutionReasoning: string
    var contributionReasoning: string
    var punishmentReasoning: string
    var deanonymizedPunishmentReasoning: string
    var anonymousDataHistory: seq<AnonBatch>
    var currentRoundAnonymousData: Option<seq<AnonEntry>>
    var anonymizedIdMapping: map<int, int>

    /** A fresh agent: no choice yet, INITIAL_TOKENS banked, nothing recorded. */
    constructor(id: int)
      ensures agentId == id && strategy == "LLM"
      ensures institutionChoice == None && contribution == 0
      ensures cumulativePayoff == InitialTokens && roundPayoff == 0.0 && history == []
      ensures receivedPunishments == 0 && receivedRewards == 0
      ensures assignedPunishments == [] && assignedRewards == []
      ensures roundNumber == 0
      ensures institutionReasoning == "" && contributionReasoning == ""
      ensures punishmentReasoning == "" && deanonymizedPunishmentReasoning == ""
      ensures anonymousDataHistory == [] && currentRoundAnonymousData == None
      ensures anonymizedIdMapping == map[]
    {
      agentId := id;
      strategy := "LLM";
      institutionChoice := None;
      contribution := 0;
      cumulativePayoff := InitialTokens;
      roundPayoff := 0.0;
      history := [];
      receivedPunishments := 0;
      receivedRewards := 0;
      assignedPunishments := [];
      assignedRewards := [];
      roundNumber := 0;
      institutionReasoning := "";
      contributionReasoning := "";
      punishmentReasoning := "";
      deanonymizedPunishmentReasoning := "";
      anonymousDataHistory := [];
      currentRoundAnonymousData := None;
      anonymizedIdMapping := map[];
    }

    /** `choose_institution`: note the round, then take the parsed choice and its reasoning. */
    method ChooseInstitution(round: int, reply: ChoiceReply)
      modifies this`roundNumber, this`institutionChoice, this`institutionReasoning
      ensures roundNumber == round
      ensures institutionChoice == Some(ParseInstitutionChoice(reply).choice)
      ensures institutionReasoning == ParseInstitutionChoice(reply).reasoning
    {
      roundNumber := round;
      var d := ParseInstitutionChoice(reply);
      institutionChoice := Some(d.choice);
      institutionReasoning := d.reasoning;
    }

    /** `decide_contribution`: the reply alone decides; the group state the prompt gets is never read. */
    method DecideContribution(reply: ContributionReply)
      modifies this`contribution, this`contributionReasoning
      ensures contribution == ParseContribution(reply).amount
      ensures MinContribution <= contribution <= MaxContribution
      ensures contributionReasoning == ParseContribution(reply).reasoning
    {
      var d := ParseContribution(reply);
      contribution := d.amount;
      contributionReasoning := d.reasoning;
    }

    /** The alias table the allocation prompt builds: position i of the roster is shown as "Agent i+1". */
    method BuildAliasMapping(roster: seq<int>)
      modifies this`anonymizedIdMapping
      ensures anonymizedIdMapping == AliasMapping(roster)
    {
      anonymizedIdMapping := map[];
      var i := 0;
      while i < |roster|
        invariant 0 <= i <= |roster|
        invariant forall k :: k in anonymizedIdMapping <==> 1 <= k <= i
        invariant forall k :: 1 <= k <= i ==> anonymizedIdMapping[k] == roster[k - 1]
      {
        anonymizedIdMapping := anonymizedIdMapping[i + 1 := roster[i]];
        i := i + 1;
      }
      assert anonymizedIdMapping.Keys == AliasMapping(roster).Keys;
    }

    /**
     * `assign_punishment`: build the alias table for the roster, parse the
     * reply, and keep both allocation dicts and the two reasoning strings.
     */
    method AssignPunishment(roster: seq<int>, reply: AllocationReply) returns (punishments: Dict, rewards: Dict)
      modifies this`anonymizedIdMapping, this`punishmentReasoning, this`deanonymizedPunishmentReasoning
      modifies this`assignedPunishments, this`assignedRewards
      ensures anonymizedIdMapping == AliasMapping(roster)
      ensures punishments == Allocations(reply, roster).punishments == assignedPunishments
      ensures rewards == Allocations(reply, roster).rewards == assignedRewards
      ensures punishmentReasoning == Allocations(reply, roster).reasoning
      ensures deanonymizedPunishmentReasoning == Allocations(reply, roster).deanonymizedReasoning
      ensures Sum(punishments) + Sum(rewards) <= EndowmentStage2
    {
      BuildAliasMapping(roster);
      var d := ParsePunishmentResponse(reply, roster);
      punishmentReasoning := d.reasoning;
      deanonymizedPunishmentReasoning := d.deanonymizedReasoning;
      punishments, rewards := d.punishments, d.rewards;
      assignedPunishments, assignedRewards := punishments, rewards;
    }

    /** `update_payoff`: the round's total becomes the round payoff and is banked. */
    method UpdatePayoff(amount: real)
      modifies this`roundPayoff, this`cumulativePayoff
      ensures roundPayoff == amount
      ensures cumulativePayoff == old(cumulativePayoff) + amount
    {
      roundPayoff := amount;
      cumulativePayoff := cumulativePayoff + amount;
    }

    /** `update_history`: the history keeps every entry, newest last. */
    method UpdateHistory(entry: Feedback)
      modifies this`history
      ensures history == old(history) + [entry]
    {
      history := history + [entry];
    }

    /**
     * `reset_for_new_round`: file the staged peer batch, if any, under the
     * round number still held from the previous round, and clear every
     * round-scoped field. The cumulative payoff, the history, the choice and
     * the round number are kept.
     */
    method ResetForNewRound()
      modifies this`anonymousDataHistory, this`currentRoundAnonymousData
      modifies this`contribution, this`receivedPunishments, this`receivedRewards
      modifies this`assignedPunishments, this`assignedRewards, this`roundPayoff
      modifies this`institutionReasoning, this`contributionReasoning
      modifies this`punishmentReasoning, this`deanonymizedPunishmentReasoning, this`anonymizedIdMapping
      ensures old(currentRoundAnonymousData).Some? ==>
        anonymousDataHistory == PushBatch(old(anonymousDataHistory), AnonBatch(roundNumber, old(currentRoundAnonymousData).value))
      ensures old(currentRoundAnonymousData).None? ==> anonymousDataHistory == old(anonymousDataHistory)
      ensures |old(anonymousDataHistory)| <= DisplayPastActions ==> |anonymousDataHistory| <= DisplayPastActions
      ensures currentRoundAnonymousData == None
      ensures contribution == 0 && receivedPunishments == 0 && receivedRewards == 0
      ensures assignedPunishments == [] && assignedRewards == [] && roundPayoff == 0.0
      ensures institutionReasoning == "" && contributionReasoning == ""
      ensures punishmentReasoning == "" && deanonymizedPunishmentReasoning == ""
      ensures anonymizedIdMapping == map[]
      ensures cumulativePayoff == old(cumulativePayoff) && history == old(history)
    {
      FileStagedBatch();
      ClearRound();
    }

    /** The round-scoped fields `reset_for_new_round` clears. */
    method ClearRound()
      modifies this`contribution, this`receivedPunishments, this`receivedRewards
      modifies this`assignedPunishments, this`assignedRewards, this`roundPayoff
      modifies this`institutionReasoning, this`contributionReasoning
      modifies this`punishmentReasoning, this`deanonymizedPunishmentReasoning, this`anonymizedIdMapping
      ensures contribution == 0 && receivedPunishments == 0 && receivedRewards == 0
      ensures assignedPunishments == [] && assignedRewards == [] && roundPayoff == 0.0
      ensures institutionReasoning == "" && contributionReasoning == ""
      ensures punishmentReasoning == "" && deanonymizedPunishmentReasoning == ""
      ensures anonymizedIdMapping == map[]
    {
      contribution := 0;
      receivedPunishments := 0;
      receivedRewards := 0;
      assignedPunishments := [];
      assignedRewards := [];
      roundPayoff := 0.0;
      institutionReasoning := "";
      contributionReasoning := "";
      punishmentReasoning := "";
      deanonymizedPunishmentReasoning := "";
      anonymizedIdMapping := map[];
    }

    /** The first part of `reset_for_new_round`: move the staged batch, if any, into the window. */
    method FileStagedBatch()
      modifies this`anonymousDataHistory, this`currentRoundAnonymousData
      ensures old(currentRoundAnonymousData).Some? ==>
        anonymousDataHistory == PushBatch(old(anonymousDataHistory), AnonBatch(roundNumber, old(currentRoundAnonymousData).value))
      ensures old(currentRoundAnonymousData).None? ==> anonymousDataHistory == old(anonymousDataHistory)
      ensures currentRoundAnonymousData == None
    {
      if currentRoundAnonymousData.Some? {
        var window := anonymousDataHistory + [AnonBatch(roundNumber, currentRoundAnonymousData.value)];
        if |window| > DisplayPastActions {
          window := window[1..];
        }
        anonymousDataHistory := window;
        currentRoundAnonymousData := None;
      }
    }

    /** `receive_punishment`: the effect adds up over the round. */
    method ReceivePunishment(amount: int)
      modifies this`receivedPunishments
      ensures receivedPunishments == old(receivedPunishments) + amount
    {
      receivedPunishments := receivedPunishments + amount;
    }

    /** `receive_reward`: the effect adds up over the round. */
    method ReceiveReward(amount: int)
      modifies this`receivedRewards
      ensures receivedRewards == old(receivedRewards) + amount
    {
      receivedRewards := receivedRewards + amount;
    }

    /** `get_stage2_payoff` on this agent's fields. */
    function Stage2(): (r: int)
      reads this`assignedPunishments, this`assignedRewards, this`receivedPunishments, this`receivedRewards
      ensures (NonNegative(assignedPunishments) && NonNegative(assignedRewards)
               && Sum(assignedPunishments) + Sum(assignedRewards) <= EndowmentStage2) ==>
        receivedRewards - receivedPunishments <= r <= EndowmentStage2 + receivedRewards - receivedPunishments
    {
      Stage2PayoffRange(assignedPunishments, assignedRewards, receivedPunishments, receivedRewards);
      Stage2Payoff(assignedPunishments, assignedRewards, receivedPunishments, receivedRewards)
    }

    /** The stage-two payoff the round record shows: `get_stage2_payoff` in SI, the flat endowment otherwise. */
    function RecordedStage2(): (r: int)
      reads this`institutionChoice, this`assignedPunishments, this`assignedRewards
      reads this`receivedPunishments, this`receivedRewards
      ensures institutionChoice == Some(SI) ==> r == Stage2()
      ensures institutionChoice != Some(SI) ==> r == EndowmentStage2
    {
      if institutionChoice == Some(SI) then Stage2() else EndowmentStage2
    }

    /** This agent's entry in the round record, given its stage-one payoff and rank text. */
    function Snapshot(stage1: real, rank: string): (d: AgentData)
      reads this`institutionChoice, this`institutionReasoning, this`contribution, this`contributionReasoning
      reads this`cumulativePayoff, this`receivedPunishments, this`receivedRewards
      reads this`assignedPunishments, this`assignedRewards
      reads this`punishmentReasoning, this`deanonymizedPunishmentReasoning
      ensures d.stage1Payoff == stage1 && d.stage2Payoff == RecordedStage2()
      ensures d.payoff == d.stage1Payoff + d.stage2Payoff as real
      ensures d.cumulativePayoff == cumulativePayoff && d.rank == rank
      ensures d.institutionChoice == institutionChoice && d.contribution == contribution
      ensures d.receivedPunishments == receivedPunishments && d.receivedRewards == receivedRewards
      ensures d.assignedPunishments == assignedPunishments && d.assignedRewards == assignedRewards
    {
      AgentData(institutionChoice, institutionReasoning, contribution, contributionReasoning,
                stage1, RecordedStage2(), stage1 + RecordedStage2() as real, cumulativePayoff,
                strategy, receivedPunishments, receivedRewards, assignedPunishments, assignedRewards,
                punishmentReasoning, deanonymizedPunishmentReasoning, rank)
    }
  }
}
