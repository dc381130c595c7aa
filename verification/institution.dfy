/**
 * The two institutions (code/institution.py). One class stands for both:
 * `sanctioning` is true for the Sanctioning Institution (SI), whose members
 * punish and reward each other after contributing, and false for the
 * Sanction-Free Institution (SFI), whose allocation phases do nothing.
 */
module Institutions {
  import opened Wrappers
  import opened Params
  import opened Dicts
  import opened Decisions
  import opened Agents

  /** `[agent.agent_id for agent in members]`. */
  function Ids(members: seq<Agent>): (ids: seq<int>)
    ensures |ids| == |members|
    ensures forall k :: 0 <= k < |members| ==> ids[k] == members[k].agentId
  {
    seq(|members|, k requires 0 <= k < |members| => members[k].agentId)
  }

  /** No two members share an agent id. */
  predicate DistinctIds(members: seq<Agent>) {
    forall i, j :: 0 <= i < j < |members| ==> members[i].agentId != members[j].agentId
  }

  /**
   * The members an SI member sees when allocating: everyone but itself,
   * matched by id, in membership order.
   */
  function Peers(ids: seq<int>, requester: int): (r: seq<int>)
    ensures forall x :: x in r <==> x in ids && x != requester
    ensures multiset(r) == multiset(ids)[requester := 0]
  {
    if ids == [] then []
    else
      assert ids == [ids[0]] + ids[1..];
      (if ids[0] == requester then [] else [ids[0]]) + Peers(ids[1..], requester)
  }

  /** `get_group_state`: what a member is told about its group. */
  datatype GroupState = GroupState(members: seq<int>, anonymizedContributions: seq<int>, groupSize: int, roundNumber: int)

  /** `punishment_matrix` / `reward_matrix`: target id to (source id to tokens). */
  type Matrix = map<int, Dict>

  /** `matrix[target][source]`, if set. */
  function Cell(m: Matrix, target: int, source: int): Option<int> {
    if target in m then Get(m[target], source) else None
  }

  /** `sum(matrix[target].values())`, or 0 when the target has no row. */
  function RowSum(m: Matrix, target: int): int {
    if target in m then Sum(m[target]) else 0
  }

  /** `matrix[target][source] = tokens` for each entry of one member's allocation dict, in order. */
  function Record(m: Matrix, source: int, alloc: Dict): Matrix
    decreases |alloc|
  {
    if alloc == [] then m
    else
      var row := if alloc[0].0 in m then m[alloc[0].0] else [];
      Record(m[alloc[0].0 := Put(row, source, alloc[0].1)], source, alloc[1..])
  }

  /** Recording one allocation dict sets exactly the cells of its source, and to what it assigned. */
  lemma {:induction false} RecordCell(m: Matrix, source: int, alloc: Dict, target: int, s: int)
    requires DistinctKeys(alloc)
    ensures Cell(Record(m, source, alloc), target, s)
         == if s == source && target in Keys(alloc) then Get(alloc, target) else Cell(m, target, s)
    decreases |alloc|
  {
    if alloc != [] {
      var t0 := alloc[0].0;
      var row := if t0 in m then m[t0] else [];
      var m' := m[t0 := Put(row, source, alloc[0].1)];
      assert Keys(alloc) == [t0] + Keys(alloc[1..]);
      DistinctKeysTail(alloc);
      RecordCell(m', source, alloc[1..], target, s);
      GetPut(row, source, alloc[0].1, s);
    }
  }

  /** What one SI member decides in the allocation phase: its reply, resolved against its peers. */
  function Decided(ids: seq<int>, replies: int -> AllocationReply): (ds: seq<AllocationDecision>)
    ensures |ds| == |ids|
  {
    seq(|ids|, k requires 0 <= k < |ids| => Allocations(replies(ids[k]), Peers(ids, ids[k])))
  }

  function PunishmentDicts(ds: seq<AllocationDecision>): (ps: seq<Dict>)
    ensures |ps| == |ds| && forall k :: 0 <= k < |ds| ==> ps[k] == ds[k].punishments
  {
    seq(|ds|, k requires 0 <= k < |ds| => ds[k].punishments)
  }

  function RewardDicts(ds: seq<AllocationDecision>): (rs: seq<Dict>)
    ensures |rs| == |ds| && forall k :: 0 <= k < |ds| ==> rs[k] == ds[k].rewards
  {
    seq(|ds|, k requires 0 <= k < |ds| => ds[k].rewards)
  }

  /** The matrix after each member in turn, from the front, has recorded its dict. */
  function RecordAll(m: Matrix, sources: seq<int>, allocs: seq<Dict>): Matrix
    requires |sources| == |allocs|
  {
    if sources == [] then m
    else Record(RecordAll(m, sources[..|sources| - 1], allocs[..|allocs| - 1]), sources[|sources| - 1], allocs[|allocs| - 1])
  }

  /** Recording one more source extends the fold by one step. */
  lemma RecordAllStep(m: Matrix, sources: seq<int>, allocs: seq<Dict>, n: nat)
    requires |sources| == |allocs| && n < |sources|
    ensures RecordAll(m, sources[..n + 1], allocs[..n + 1]) == Record(RecordAll(m, sources[..n], allocs[..n]), sources[n], allocs[n])
  {
    assert sources[..n + 1][..n] == sources[..n] && allocs[..n + 1][..n] == allocs[..n];
  }

  /** A source that recorded nothing leaves its cells as they were. */
  lemma {:induction false} RecordAllOtherSource(m: Matrix, sources: seq<int>, allocs: seq<Dict>, target: int, s: int)
    requires |sources| == |allocs| && s !in sources
    requires forall k :: 0 <= k < |allocs| ==> DistinctKeys(allocs[k])
    ensures Cell(RecordAll(m, sources, allocs), target, s) == Cell(m, target, s)
  {
    if sources != [] {
      var n := |sources| - 1;
      assert s != sources[n];
      RecordAllOtherSource(m, sources[..n], allocs[..n], target, s);
      RecordCell(RecordAll(m, sources[..n], allocs[..n]), sources[n], allocs[n], target, s);
    }
  }

  /**
   * After the decide phase, starting from an empty matrix, the cell
   * [target][source] holds exactly what that source assigned to that target.
   */
  lemma {:induction false} RecordAllCell(sources: seq<int>, allocs: seq<Dict>, target: int, k: int)
    requires |sources| == |allocs| && 0 <= k < |sources|
    requires forall i, j :: 0 <= i < j < |sources| ==> sources[i] != sources[j]
    requires forall i :: 0 <= i < |allocs| ==> DistinctKeys(allocs[i])
    ensures Cell(RecordAll(map[], sources, allocs), target, sources[k]) == Get(allocs[k], target)
  {
    var n := |sources| - 1;
    var prev := RecordAll(map[], sources[..n], allocs[..n]);
    RecordCell(prev, sources[n], allocs[n], target, sources[k]);
    if k < n {
      RecordAllCell(sources[..n], allocs[..n], target, k);
    } else {
      assert sources[n] !in sources[..n];
      RecordAllOtherSource(map[], sources[..n], allocs[..n], target, sources[n]);
    }
  }

  /** What each source gave the target, added up in source order. */
  function Received(allocs: seq<Dict>, target: int): int {
    if allocs == [] then 0
    else Received(allocs[..|allocs| - 1], target) + Get(allocs[|allocs| - 1], target).GetOr(0)
  }

  /** Recording a source's dict moves the target's row total from the source's old cell to its new one. */
  lemma {:induction false} RecordRowSum(m: Matrix, source: int, alloc: Dict, target: int)
    requires DistinctKeys(alloc)
    ensures RowSum(Record(m, source, alloc), target)
         == RowSum(m, target) + (if target in Keys(alloc) then Get(alloc, target).value - Cell(m, target, source).GetOr(0) else 0)
    decreases |alloc|
  {
    if alloc != [] {
      var t0 := alloc[0].0;
      var row := if t0 in m then m[t0] else [];
      var m' := m[t0 := Put(row, source, alloc[0].1)];
      assert Keys(alloc) == [t0] + Keys(alloc[1..]);
      DistinctKeysTail(alloc);
      SumPut(row, source, alloc[0].1);
      GetPut(row, source, alloc[0].1, source);
      RecordRowSum(m', source, alloc[1..], target);
    }
  }

  /**
   * The row total the apply phase charges is the total of what every
   * source assigned to the target in the decide phase.
   */
  lemma {:induction false} RecordAllRowSum(sources: seq<int>, allocs: seq<Dict>, target: int)
    requires |sources| == |allocs|
    requires forall i, j :: 0 <= i < j < |sources| ==> sources[i] != sources[j]
    requires forall i :: 0 <= i < |allocs| ==> DistinctKeys(allocs[i])
    ensures RowSum(RecordAll(map[], sources, allocs), target) == Received(allocs, target)
  {
    if sources != [] {
      var n := |sources| - 1;
      var prev := RecordAll(map[], sources[..n], allocs[..n]);
      RecordAllRowSum(sources[..n], allocs[..n], target);
      assert sources[n] !in sources[..n];
      RecordAllOtherSource(map[], sources[..n], allocs[..n], target, sources[n]);
      RecordRowSum(prev, sources[n], allocs[n], target);
    }
  }

  /**
   * The agent, member k of the group with member ids `ids`, holds the dicts
   * it decided on from its reply and the alias mapping of its peers.
   */
  predicate HasDecided(agent: Agent, ids: seq<int>, replies: int -> AllocationReply, k: int)
    requires 0 <= k < |ids|
    reads agent`assignedPunishments, agent`assignedRewards, agent`anonymizedIdMapping
  {
    var d := Decided(ids, replies)[k];
    && agent.assignedPunishments == d.punishments
    && agent.assignedRewards == d.rewards
    && agent.anonymizedIdMapping == AliasMapping(Peers(ids, ids[k]))
  }

  /** The amounts the members' own replies decide, in membership order. */
  function Amounts(members: seq<Agent>, replies: int -> ContributionReply): (r: seq<int>)
    ensures |r| == |members|
  {
    seq(|members|, k requires 0 <= k < |members| => ParseContribution(replies(members[k].agentId)).amount)
  }

  /** The agent holds the contribution and reasoning its own reply decides. */
  predicate Contributed(a: Agent, replies: int -> ContributionReply)
    reads a`contribution, a`contributionReasoning
  {
    && a.contribution == ParseContribution(replies(a.agentId)).amount
    && a.contributionReasoning == ParseContribution(replies(a.agentId)).reasoning
  }

  /** Members with distinct ids are distinct objects. */
  lemma DistinctMembers(members: seq<Agent>, i: nat)
    requires DistinctIds(members) && i < |members|
    ensures forall k :: 0 <= k < |members| && k != i ==> members[k] != members[i]
  {
    forall k | 0 <= k < |members| && k != i
      ensures members[k] != members[i]
    {
      if k < i {
        assert members[k].agentId != members[i].agentId;
      } else {
        assert members[i].agentId != members[k].agentId;
      }
    }
  }

  /** The entries `distribute_public_goods` writes: member id to stage-one payoff, later members last. */
  function Shares(members: seq<Agent>, groupSize: int, total: int): map<int, real>
    reads members`contribution
  {
    if members == [] then map[]
    else
      var last := members[|members| - 1];
      Shares(members[..|members| - 1], groupSize, total)[last.agentId := Stage1Payoff(last.contribution, groupSize, total)]
  }

  /**
   * With distinct member ids, the shares hold exactly one entry per member,
   * the stage-one payoff of that member's own contribution.
   */
  lemma {:induction false} SharesOfMembers(members: seq<Agent>, groupSize: int, total: int)
    requires DistinctIds(members)
    ensures forall id :: id in Shares(members, groupSize, total) <==> id in Ids(members)
    ensures forall k :: 0 <= k < |members| ==>
      Shares(members, groupSize, total)[members[k].agentId] == Stage1Payoff(members[k].contribution, groupSize, total)
  {
    if members != [] {
      var n := |members| - 1;
      assert DistinctIds(members[..n]);
      SharesOfMembers(members[..n], groupSize, total);
      assert Ids(members) == Ids(members[..n]) + [members[n].agentId];
      forall k | 0 <= k < n
        ensures members[k].agentId != members[n].agentId
      {
      }
    }
  }

  class Institution {
    const sanctioning: bool
    var members: seq<Agent>
    var totalContribution: int
    var groupSize: int
    var roundNumber: int
    var stage1Payoffs: map<int, real>
    var anonymizedContributions: seq<int>
    var punishmentMatrix: Matrix
    var rewardMatrix: Matrix

    /** `SanctioningInstitution()` or `SanctionFreeInstitution()`: an empty institution. */
    constructor(sanctioning: bool)
      ensures this.sanctioning == sanctioning
      ensures members == [] && totalContribution == 0 && groupSize == 0 && roundNumber == 0
      ensures stage1Payoffs == map[] && anonymizedContributions == []
      ensures punishmentMatrix == map[] && rewardMatrix == map[]
    {
      this.sanctioning := sanctioning;
      members := [];
      totalContribution := 0;
      groupSize := 0;
      roundNumber := 0;
      stage1Payoffs := map[];
      anonymizedContributions := [];
      punishmentMatrix := map[];
      rewardMatrix := map[];
    }

    /** `add_member`. */
    method AddMember(agent: Agent)
      modifies this`members
      ensures members == old(members) + [agent]
    {
      members := members + [agent];
    }

    /** `reset_institution`: empty the group for the given round; SI also clears both matrices. */
    method ResetInstitution(round: int)
      modifies this`members, this`totalContribution, this`groupSize, this`roundNumber
      modifies this`stage1Payoffs, this`anonymizedContributions, this`punishmentMatrix, this`rewardMatrix
      ensures members == [] && totalContribution == 0 && groupSize == 0 && roundNumber == round
      ensures stage1Payoffs == map[] && anonymizedContributions == []
      ensures punishmentMatrix == map[] && rewardMatrix == map[]
    {
      members := [];
      totalContribution := 0;
      groupSize := 0;
      roundNumber := round;
      stage1Payoffs := map[];
      anonymizedContributions := [];
      punishmentMatrix := map[];
      rewardMatrix := map[];
    }

    /**
     * `get_group_state`: all members in SFI; in SI, everyone but the
     * requester, whose allocation prompt names only its peers.
     */
    function GroupStateFor(requester: Agent): (g: GroupState)
      reads this`members, this`anonymizedContributions, this`groupSize, this`roundNumber
      ensures forall x :: x in g.members <==> x in Ids(members) && (!sanctioning || x != requester.agentId)
      ensures !sanctioning ==> g.members == Ids(members)
      ensures g.anonymizedContributions == anonymizedContributions
      ensures g.groupSize == groupSize && g.roundNumber == roundNumber
    {
      var ids := Ids(members);
      GroupState(if sanctioning then Peers(ids, requester.agentId) else ids,
                 anonymizedContributions, groupSize, roundNumber)
    }

    /** `get_average_contribution`: total / group_size, or 0.0 for an empty group. */
    function AverageContribution(): (r: real)
      reads this`totalContribution, this`groupSize
      ensures groupSize > 0 ==> r * groupSize as real == totalContribution as real
      ensures groupSize <= 0 ==> r == 0.0
    {
      if groupSize > 0 then totalContribution as real / groupSize as real else 0.0
    }

    /** `stage1_payoffs.get(agent_id, 0)`. */
    function Stage1Of(id: int): (r: real)
      reads this`stage1Payoffs
      ensures id in stage1Payoffs ==> r == stage1Payoffs[id]
      ensures id !in stage1Payoffs ==> r == 0.0
    {
      if id in stage1Payoffs then stage1Payoffs[id] else 0.0
    }

    /**
     * `collect_contributions`: every member decides from its own reply; the
     * total is their sum, the group size the member count, and the
     * anonymised list the contributions in membership order.
     */
    method CollectContributions(replies: int -> ContributionReply)
      modifies this`totalContribution, this`groupSize, this`anonymizedContributions
      modifies members`contribution, members`contributionReasoning
      ensures groupSize == |members|
      ensures |anonymizedContributions| == |members|
      ensures forall k :: 0 <= k < |members| ==>
        members[k].contribution == ParseContribution(replies(members[k].agentId)).amount == anonymizedContributions[k]
      ensures forall k :: 0 <= k < |members| ==>
        members[k].contributionReasoning == ParseContribution(replies(members[k].agentId)).reasoning
      ensures totalContribution == IntSum(anonymizedContributions)
      ensures 0 <= totalContribution <= |members| * MaxContribution
    {
      totalContribution := 0;
      groupSize := |members|;
      anonymizedContributions := [];
      var i := 0;
      while i < |members|
        invariant 0 <= i <= |members|
        invariant groupSize == |members|
        invariant |anonymizedContributions| == i
        invariant anonymizedContributions == Amounts(members, replies)[..i]
        invariant forall k :: 0 <= k < i ==> Contributed(members[k], replies)
        invariant totalContribution == IntSum(anonymizedContributions)
        invariant 0 <= totalContribution <= i * MaxContribution
      {
        CollectFrom(i, replies);
        i := i + 1;
      }
      assert anonymizedContributions == Amounts(members, replies);
    }

    /** The turn of member i in `collect_contributions`, once members 0..i-1 have contributed. */
    method CollectFrom(i: nat, replies: int -> ContributionReply)
      requires i < |members|
      requires anonymizedContributions == Amounts(members, replies)[..i]
      requires forall k :: 0 <= k < i ==> Contributed(members[k], replies)
      requires totalContribution == IntSum(anonymizedContributions)
      requires 0 <= totalContribution <= i * MaxContribution
      modifies this`totalContribution, this`anonymizedContributions
      modifies members`contribution, members`contributionReasoning
      ensures anonymizedContributions == Amounts(members, replies)[..i + 1]
      ensures forall k :: 0 <= k <= i ==> Contributed(members[k], replies)
      ensures totalContribution == IntSum(anonymizedContributions)
      ensures 0 <= totalContribution <= (i + 1) * MaxContribution
    {
      var agent := members[i];
      agent.DecideContribution(replies(agent.agentId));
      totalContribution := totalContribution + agent.contribution;
      assert (anonymizedContributions + [agent.contribution])[..i] == anonymizedContributions;
      assert Amounts(members, replies)[..i + 1] == anonymizedContributions + [agent.contribution];
      anonymizedContributions := anonymizedContributions + [agent.contribution];
    }

    /**
     * `distribute_public_goods`: each member's id is set to its stage-one
     * payoff, computed from the final total and group size; other entries
     * stay as they were.
     */
    method DistributePublicGoods()
      modifies this`stage1Payoffs
      ensures stage1Payoffs == old(stage1Payoffs) + Shares(members, groupSize, totalContribution)
    {
      var i := 0;
      while i < |members|
        invariant 0 <= i <= |members|
        invariant stage1Payoffs == old(stage1Payoffs) + Shares(members[..i], groupSize, totalContribution)
      {
        var agent := members[i];
        assert members[..i + 1][..i] == members[..i];
        stage1Payoffs := stage1Payoffs[agent.agentId := Stage1Payoff(agent.contribution, groupSize, totalContribution)];
        i := i + 1;
      }
      assert members[..i] == members;
    }
    /** One member's allocation dict entered into a matrix: the inner loops of `handle_punishments_and_rewards`. */
    static method RecordAllocations(m: Matrix, source: int, alloc: Dict) returns (r: Matrix)
      ensures r == Record(m, source, alloc)
    {
      r := m;
      var j := 0;
      while j < |alloc|
        invariant 0 <= j <= |alloc|
        invariant Record(m, source, alloc) == Record(r, source, alloc[j..])
      {
        assert alloc[j..][0] == alloc[j] && alloc[j..][1..] == alloc[j + 1..];
        var (target, tokens) := alloc[j];
        var row := if target in r then r[target] else [];
        r := r[target := Put(row, source, tokens)];
        j := j + 1;
      }
    }

    /**
     * One SI member's turn in `handle_punishments_and_rewards`: it decides
     * on the peers its group state names, and both its dicts are entered
     * into the matrices under its id.
     */
    method DecideTurn(agent: Agent, i: nat, replies: int -> AllocationReply, ghost ids: seq<int>, ghost m0: Matrix, ghost r0: Matrix)
      requires sanctioning && i < |members| && agent == members[i] && ids == Ids(members)
      requires Recorded(m0, r0, ids, replies, i)
      modifies this`punishmentMatrix, this`rewardMatrix
      modifies agent`anonymizedIdMapping, agent`punishmentReasoning, agent`deanonymizedPunishmentReasoning
      modifies agent`assignedPunishments, agent`assignedRewards
      ensures HasDecided(agent, ids, replies, i)
      ensures Recorded(m0, r0, ids, replies, i + 1)
    {
      var state := GroupStateFor(agent);
      assert agent.agentId == ids[i];
      assert state.members == Peers(ids, ids[i]);
      var punishments, rewards := agent.AssignPunishment(state.members, replies(agent.agentId));
      punishmentMatrix := RecordAllocations(punishmentMatrix, agent.agentId, punishments);
      rewardMatrix := RecordAllocations(rewardMatrix, agent.agentId, rewards);
      ghost var ds := Decided(ids, replies);
      RecordAllStep(m0, ids, PunishmentDicts(ds), i);
      RecordAllStep(r0, ids, RewardDicts(ds), i);
    }

    /**
     * After the first n members' turns, starting from m0 and r0, both
     * matrices hold what those members decided.
     */
    ghost predicate Recorded(m0: Matrix, r0: Matrix, ids: seq<int>, replies: int -> AllocationReply, n: nat)
      requires n <= |ids|
      reads this`punishmentMatrix, this`rewardMatrix
    {
      var ds := Decided(ids, replies);
      && punishmentMatrix == RecordAll(m0, ids[..n], PunishmentDicts(ds)[..n])
      && rewardMatrix == RecordAll(r0, ids[..n], RewardDicts(ds)[..n])
    }

    /** Once every member has taken its turn, both matrices hold what all members decided. */
    lemma RecordedAll(m0: Matrix, r0: Matrix, ids: seq<int>, replies: int -> AllocationReply)
      requires Recorded(m0, r0, ids, replies, |ids|)
      ensures punishmentMatrix == RecordAll(m0, ids, PunishmentDicts(Decided(ids, replies)))
      ensures rewardMatrix == RecordAll(r0, ids, RewardDicts(Decided(ids, replies)))
    {
      var ds := Decided(ids, replies);
      assert ids[..|ids|] == ids && PunishmentDicts(ds)[..|ids|] == PunishmentDicts(ds) && RewardDicts(ds)[..|ids|] == RewardDicts(ds);
    }

    /** Member i's turn, once members 0..i-1 have decided. */
    method DecideNext(i: nat, replies: int -> AllocationReply, ghost ids: seq<int>, ghost m0: Matrix, ghost r0: Matrix)
      requires sanctioning && DistinctIds(members) && i < |members| && ids == Ids(members)
      requires Recorded(m0, r0, ids, replies, i)
      requires forall k :: 0 <= k < i ==> HasDecided(members[k], ids, replies, k)
      modifies this`punishmentMatrix, this`rewardMatrix
      modifies members`anonymizedIdMapping, members`punishmentReasoning, members`deanonymizedPunishmentReasoning
      modifies members`assignedPunishments, members`assignedRewards
      ensures Recorded(m0, r0, ids, replies, i + 1)
      ensures forall k :: 0 <= k <= i ==> HasDecided(members[k], ids, replies, k)
    {
      DistinctMembers(members, i);
      DecideTurn(members[i], i, replies, ids, m0, r0);
    }

    /** The SI branch of `handle_punishments_and_rewards`: every member takes its turn, in membership order. */
    method DecideAll(replies: int -> AllocationReply)
      requires sanctioning && DistinctIds(members)
      modifies this`punishmentMatrix, this`rewardMatrix
      modifies members`anonymizedIdMapping, members`punishmentReasoning, members`deanonymizedPunishmentReasoning
      modifies members`assignedPunishments, members`assignedRewards
      ensures
        var ids := Ids(members);
        var ds := Decided(ids, replies);
        && punishmentMatrix == RecordAll(old(punishmentMatrix), ids, PunishmentDicts(ds))
        && rewardMatrix == RecordAll(old(rewardMatrix), ids, RewardDicts(ds))
        && forall k :: 0 <= k < |members| ==> HasDecided(members[k], ids, replies, k)
    {
      ghost var ids := Ids(members);
      var i := 0;
      while i < |members|
        invariant 0 <= i <= |members|
        invariant ids == Ids(members)
        invariant Recorded(old(punishmentMatrix), old(rewardMatrix), ids, replies, i)
        invariant forall k :: 0 <= k < i ==> HasDecided(members[k], ids, replies, k)
      {
        DecideNext(i, replies, ids, old(punishmentMatrix), old(rewardMatrix));
        i := i + 1;
      }
      RecordedAll(old(punishmentMatrix), old(rewardMatrix), ids, replies);
    }

    /**
     * `handle_punishments_and_rewards`: in SI each member, in turn, decides
     * on its peers and its dicts are entered as
     * `punishment_matrix[victim][punisher]` and
     * `reward_matrix[beneficiary][benefactor]`; nobody's received totals
     * change. In SFI nothing happens.
     */
    method HandlePunishmentsAndRewards(replies: int -> AllocationReply)
      requires DistinctIds(members)
      modifies this`punishmentMatrix, this`rewardMatrix
      modifies members`anonymizedIdMapping, members`punishmentReasoning, members`deanonymizedPunishmentReasoning
      modifies members`assignedPunishments, members`assignedRewards
      ensures !sanctioning ==> punishmentMatrix == old(punishmentMatrix) && rewardMatrix == old(rewardMatrix)
      ensures !sanctioning ==> forall k :: 0 <= k < |members| ==>
        && members[k].assignedPunishments == old(members[k].assignedPunishments)
        && members[k].assignedRewards == old(members[k].assignedRewards)
      ensures sanctioning ==>
        var ids := Ids(members);
        var ds := Decided(ids, replies);
        && punishmentMatrix == RecordAll(old(punishmentMatrix), ids, PunishmentDicts(ds))
        && rewardMatrix == RecordAll(old(rewardMatrix), ids, RewardDicts(ds))
        && forall k :: 0 <= k < |members| ==> HasDecided(members[k], ids, replies, k)
      ensures forall k :: 0 <= k < |members| ==>
        members[k].receivedPunishments == old(members[k].receivedPunishments)
        && members[k].receivedRewards == old(members[k].receivedRewards)
    {
      if sanctioning {
        DecideAll(replies);
      }
    }

    /**
     * `apply_punishments_and_rewards`: in SI each member's received totals
     * grow by the effect of its matrix rows; in SFI nothing happens.
     */
    method ApplyPunishmentsAndRewards()
      requires DistinctIds(members)
      modifies members`receivedPunishments, members`receivedRewards
      ensures forall k :: 0 <= k < |members| ==>
        && members[k].receivedPunishments
           == old(members[k].receivedPunishments) + (if sanctioning then RowSum(punishmentMatrix, members[k].agentId) * PunishmentEffect else 0)
        && members[k].receivedRewards
           == old(members[k].receivedRewards) + (if sanctioning then RowSum(rewardMatrix, members[k].agentId) * RewardEffect else 0)
    {
      if !sanctioning {
        return;
      }
      var i := 0;
      while i < |members|
        invariant 0 <= i <= |members|
        invariant forall k :: 0 <= k < i ==>
          && members[k].receivedPunishments == old(members[k].receivedPunishments) + RowSum(punishmentMatrix, members[k].agentId) * PunishmentEffect
          && members[k].receivedRewards == old(members[k].receivedRewards) + RowSum(rewardMatrix, members[k].agentId) * RewardEffect
        invariant forall k :: i <= k < |members| ==>
          && members[k].receivedPunishments == old(members[k].receivedPunishments)
          && members[k].receivedRewards == old(members[k].receivedRewards)
      {
        var agent := members[i];
        agent.ReceivePunishment(RowSum(punishmentMatrix, agent.agentId) * PunishmentEffect);
        agent.ReceiveReward(RowSum(rewardMatrix, agent.agentId) * RewardEffect);
        i := i + 1;
      }
    }
  }
}
