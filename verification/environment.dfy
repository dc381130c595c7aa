/**
 * The round engine (code/environment.py): the fixed stage order of a round,
 * enrolment in exactly one institution, payoffs, ranks, the round record,
 * each agent's feedback entry and its batch of anonymised peer entries.
 * Every reply of the language model is an input, the `Oracle`.
 */
module Environments {
  import opened Wrappers
  import opened Params
  import opened Dicts
  import opened Decisions
  import opened Records
  import opened Agents
  import opened Ranking
  import opened Institutions

  /** The decoded replies of a run, by round number and agent id, one per prompt kind. */
  datatype Oracle = Oracle(
    choice: (int, int) -> ChoiceReply,
    contribution: (int, int) -> ContributionReply,
    allocation: (int, int) -> AllocationReply)

  /** The institution an agent joins given its reply. */
  function ChosenKind(choices: int -> ChoiceReply, a: Agent): Kind {
    ParseInstitutionChoice(choices(a.agentId)).choice
  }

  /** The institution each agent id's reply chooses. */
  function Kinds(choices: int -> ChoiceReply): int -> Kind {
    id => ParseInstitutionChoice(choices(id)).choice
  }

  /** The replies to the institution prompt of round `round`, by agent id. */
  function Choices(oracle: Oracle, round: int): int -> ChoiceReply {
    id => oracle.choice(round, id)
  }

  /** The members an institution of kind `k` gains, in population order, when every agent replies. */
  function Enrolled(agents: seq<Agent>, kinds: int -> Kind, k: Kind): (r: seq<Agent>)
    ensures |r| <= |agents|
  {
    if agents == [] then []
    else
      var last := agents[|agents| - 1];
      Enrolled(agents[..|agents| - 1], kinds, k) + (if kinds(last.agentId) == k then [last] else [])
  }

  /** An institution of kind `k` gains exactly the agents whose reply chose `k`. */
  lemma {:induction false} EnrolledMembers(agents: seq<Agent>, kinds: int -> Kind, k: Kind)
    ensures forall i :: 0 <= i < |Enrolled(agents, kinds, k)| ==>
      Enrolled(agents, kinds, k)[i] in agents && kinds(Enrolled(agents, kinds, k)[i].agentId) == k
    ensures forall i :: 0 <= i < |agents| && kinds(agents[i].agentId) == k ==> agents[i] in Enrolled(agents, kinds, k)
  {
    if agents != [] {
      var n := |agents| - 1;
      EnrolledMembers(agents[..n], kinds, k);
      assert agents == agents[..n] + [agents[n]];
    }
  }

  /** Every member an institution gains is one of the agents. */
  lemma EnrolledWithin(agents: seq<Agent>, kinds: int -> Kind, k: Kind)
    ensures forall i :: 0 <= i < |Enrolled(agents, kinds, k)| ==> Enrolled(agents, kinds, k)[i] in agents
  {
    EnrolledMembers(agents, kinds, k);
  }

  /** No agent of `xs` shares an id with an agent of `ys`. */
  predicate DisjointIds(xs: seq<Agent>, ys: seq<Agent>) {
    forall i, j :: 0 <= i < |xs| && 0 <= j < |ys| ==> xs[i].agentId != ys[j].agentId
  }

  /** Enrolment covers the population: the two member lists together hold every agent exactly once. */
  lemma {:induction false} EnrolmentCovers(agents: seq<Agent>, kinds: int -> Kind)
    ensures multiset(Enrolled(agents, kinds, SI)) + multiset(Enrolled(agents, kinds, SFI)) == multiset(agents)
  {
    if agents != [] {
      var n := |agents| - 1;
      var si, sfi := Enrolled(agents[..n], kinds, SI), Enrolled(agents[..n], kinds, SFI);
      EnrolmentCovers(agents[..n], kinds);
      assert agents == agents[..n] + [agents[n]];
      if kinds(agents[n].agentId) == SI {
        assert Enrolled(agents, kinds, SI) == si + [agents[n]] && Enrolled(agents, kinds, SFI) == sfi;
        JoinOne(si, sfi, agents[..n], agents[n]);
      } else {
        assert Enrolled(agents, kinds, SFI) == sfi + [agents[n]] && Enrolled(agents, kinds, SI) == si;
        JoinOne(sfi, si, agents[..n], agents[n]);
      }
    }
  }

  /** When two lists split a population, one more agent joining one of them splits the grown population. */
  lemma JoinOne(grown: seq<Agent>, other: seq<Agent>, population: seq<Agent>, a: Agent)
    requires multiset(grown) + multiset(other) == multiset(population)
    ensures multiset(grown + [a]) + multiset(other) == multiset(population + [a])
    ensures multiset(other) + multiset(grown + [a]) == multiset(population + [a])
  {
    calc {
      multiset(grown + [a]) + multiset(other);
      multiset(grown) + multiset{a} + multiset(other);
      multiset(population) + multiset{a};
      multiset(population + [a]);
    }
  }

  /** No id is enrolled in both institutions. */
  lemma EnrolmentDisjoint(agents: seq<Agent>, kinds: int -> Kind)
    ensures DisjointIds(Enrolled(agents, kinds, SI), Enrolled(agents, kinds, SFI))
  {
    var si, sfi := Enrolled(agents, kinds, SI), Enrolled(agents, kinds, SFI);
    EnrolledMembers(agents, kinds, SI);
    EnrolledMembers(agents, kinds, SFI);
    forall i, j | 0 <= i < |si| && 0 <= j < |sfi|
      ensures si[i].agentId != sfi[j].agentId
    {
      assert kinds(si[i].agentId) == SI && kinds(sfi[j].agentId) == SFI;
    }
  }

  /** Each member list keeps the population's ids distinct. */
  lemma {:induction false} EnrolledDistinct(agents: seq<Agent>, kinds: int -> Kind, k: Kind)
    requires DistinctIds(agents)
    ensures DistinctIds(Enrolled(agents, kinds, k))
  {
    if agents != [] {
      var n := |agents| - 1;
      var last := agents[n];
      var prefix := Enrolled(agents[..n], kinds, k);
      assert DistinctIds(agents[..n]);
      EnrolledDistinct(agents[..n], kinds, k);
      EnrolledMembers(agents[..n], kinds, k);
      if kinds(last.agentId) == k {
        forall i | 0 <= i < |prefix|
          ensures prefix[i].agentId != last.agentId
        {
          var p :| 0 <= p < n && agents[..n][p] == prefix[i];
          assert agents[p] == prefix[i];
        }
        assert Enrolled(agents, kinds, k) == prefix + [last];
      }
    }
  }

  /** The round payoffs of a member list, added up in order. */
  function RoundPayoffTotal(ms: seq<Agent>): real
    reads ms`roundPayoff
  {
    if ms == [] then 0.0 else RoundPayoffTotal(ms[..|ms| - 1]) + ms[|ms| - 1].roundPayoff
  }

  /** `avg_payoff_SI` / `avg_payoff_SFI`: the mean round payoff of the members, or 0 when there are none. */
  function AverageRoundPayoff(ms: seq<Agent>): (r: real)
    reads ms`roundPayoff
    ensures ms != [] ==> r * |ms| as real == RoundPayoffTotal(ms)
    ensures ms == [] ==> r == 0.0
  {
    if ms != [] then RoundPayoffTotal(ms) / |ms| as real else 0.0
  }

  /** No agent id occurs twice among the entries of a round record. */
  predicate DistinctRecordIds(datas: seq<(int, AgentData)>) {
    forall i, j :: 0 <= i < j < |datas| ==> datas[i].0 != datas[j].0
  }

  /** What the agent with id `id` gets to see: every other entry of the record, anonymised, in population order. */
  function PeerView(datas: seq<(int, AgentData)>, id: int): (r: seq<AnonEntry>)
    ensures |r| <= |datas|
  {
    if datas == [] then []
    else
      var last := datas[|datas| - 1];
      PeerView(datas[..|datas| - 1], id) + (if last.0 != id then [Anonymize(last.1)] else [])
  }

  /** Every entry of a view is the anonymised record entry of some other agent: an agent never sees itself. */
  lemma {:induction false} PeerViewOthersOnly(datas: seq<(int, AgentData)>, id: int)
    ensures forall i :: 0 <= i < |PeerView(datas, id)| ==>
      exists j :: 0 <= j < |datas| && datas[j].0 != id && PeerView(datas, id)[i] == Anonymize(datas[j].1)
  {
    if datas != [] {
      var n := |datas| - 1;
      PeerViewOthersOnly(datas[..n], id);
      var v := PeerView(datas, id);
      var p := PeerView(datas[..n], id);
      assert v == p + (if datas[n].0 != id then [Anonymize(datas[n].1)] else []);
      forall i | 0 <= i < |PeerView(datas, id)|
        ensures exists j :: 0 <= j < |datas| && datas[j].0 != id && PeerView(datas, id)[i] == Anonymize(datas[j].1)
      {
        if i < |p| {
          var j :| 0 <= j < n && datas[..n][j].0 != id && p[i] == Anonymize(datas[..n][j].1);
          assert datas[..n][j] == datas[j] && v[i] == p[i];
          assert datas[j].0 != id && v[i] == Anonymize(datas[j].1);
        } else {
          assert datas[n].0 != id && v[i] == Anonymize(datas[n].1);
        }
      }
    } else {
      assert PeerView(datas, id) == [];
    }
  }

  /** When no entry carries the id, the view anonymises every entry. */
  lemma {:induction false} PeerViewOfStranger(datas: seq<(int, AgentData)>, id: int)
    requires forall i :: 0 <= i < |datas| ==> datas[i].0 != id
    ensures |PeerView(datas, id)| == |datas|
    ensures forall j :: 0 <= j < |datas| ==> PeerView(datas, id)[j] == Anonymize(datas[j].1)
  {
    if datas != [] {
      PeerViewOfStranger(datas[..|datas| - 1], id);
    }
  }

  /**
   * The view of the agent at position k has N-1 entries: the anonymised
   * entries of everyone before it, then of everyone after it, and none of
   * its own.
   */
  lemma {:induction false} PeerViewSkipsOwn(datas: seq<(int, AgentData)>, k: int)
    requires DistinctRecordIds(datas) && 0 <= k < |datas|
    ensures |PeerView(datas, datas[k].0)| == |datas| - 1
    ensures forall j :: 0 <= j < |datas| - 1 ==>
      PeerView(datas, datas[k].0)[j] == Anonymize(datas[if j < k then j else j + 1].1)
  {
    var n := |datas| - 1;
    var id := datas[k].0;
    if k == n {
      PeerViewOfStranger(datas[..n], id);
    } else {
      assert DistinctRecordIds(datas[..n]);
      PeerViewSkipsOwn(datas[..n], k);
      assert datas[n].0 != id;
    }
  }

  /**
   * The inner loop that builds one agent's `anonymous_data_list`: for every
   * other agent, in population order, the seven shareable fields of its
   * entry in the round record.
   */
  method AnonymousBatch(datas: seq<(int, AgentData)>, id: int) returns (batch: seq<AnonEntry>)
    ensures batch == PeerView(datas, id)
  {
    batch := [];
    var j := 0;
    while j < |datas|
      invariant 0 <= j <= |datas|
      invariant batch == PeerView(datas[..j], id)
    {
      assert datas[..j + 1][..j] == datas[..j];
      if datas[j].0 != id {
        batch := batch + [Anonymize(datas[j].1)];
      }
      j := j + 1;
    }
    assert datas[..j] == datas;
  }

  /** `{agent_id: cumulative_payoff}`: the cumulative payoffs, in population order. */
  function CumulativePayoffs(ms: seq<Agent>): (p: seq<real>)
    reads ms`cumulativePayoff
    ensures |p| == |ms| && forall k :: 0 <= k < |ms| ==> p[k] == ms[k].cumulativePayoff
  {
    if ms == [] then [] else CumulativePayoffs(ms[..|ms| - 1]) + [ms[|ms| - 1].cumulativePayoff]
  }

  /** Every agent's feedback history, in population order. */
  function Histories(ms: seq<Agent>): (h: seq<seq<Feedback>>)
    reads ms`history
    ensures |h| == |ms| && forall k :: 0 <= k < |ms| ==> h[k] == ms[k].history
  {
    if ms == [] then [] else Histories(ms[..|ms| - 1]) + [ms[|ms| - 1].history]
  }

  /** The agent has been reset for round `round` and holds the institution its reply chose. */
  predicate Ready(a: Agent, round: int, kinds: int -> Kind)
    reads a`roundNumber, a`institutionChoice, a`receivedPunishments, a`receivedRewards
    reads a`assignedPunishments, a`assignedRewards, a`currentRoundAnonymousData
  {
    && a.roundNumber == round
    && a.institutionChoice == Some(kinds(a.agentId))
    && a.receivedPunishments == 0 && a.receivedRewards == 0
    && a.assignedPunishments == [] && a.assignedRewards == []
    && a.currentRoundAnonymousData == None
  }

  class Environment {
    const agents: seq<Agent>
    const si: Institution
    const sfi: Institution
    var currentRound: int
    var history: seq<RoundData>
    var results: seq<RoundData>

    /** One institution of each kind, two distinct objects, and a population with distinct ids. */
    predicate Valid() {
      si.sanctioning && !sfi.sanctioning && si != sfi && DistinctIds(agents)
    }

    /** `Environment(agents)`: round 0, no records, two empty institutions. */
    constructor(agents: seq<Agent>)
      requires DistinctIds(agents)
      ensures Valid() && this.agents == agents
      ensures currentRound == 0 && history == [] && results == []
      ensures fresh(si) && fresh(sfi) && si.members == [] && sfi.members == []
    {
      this.agents := agents;
      si := new Institution(true);
      sfi := new Institution(false);
      currentRound := 0;
      history := [];
      results := [];
    }

    /** The member lists are the enrolment the replies `choices` make. */
    predicate EnrolledBy(choices: int -> ChoiceReply)
      reads si`members, sfi`members
    {
      si.members == Enrolled(agents, Kinds(choices), SI) && sfi.members == Enrolled(agents, Kinds(choices), SFI)
    }

    /** Every agent holds the institution its reply in `choices` chose. */
    predicate Chosen(choices: int -> ChoiceReply)
      reads agents`institutionChoice
    {
      forall k :: 0 <= k < |agents| ==> agents[k].institutionChoice == Some(ChosenKind(choices, agents[k]))
    }

    /** One agent's turn in the enrolment loop: reset, choose, join. */
    method Enrol(agent: Agent, choices: int -> ChoiceReply)
      requires Valid()
      modifies si`members, sfi`members
      modifies agent`anonymousDataHistory, agent`currentRoundAnonymousData, agent`contribution
      modifies agent`receivedPunishments, agent`receivedRewards, agent`assignedPunishments, agent`assignedRewards
      modifies agent`roundPayoff, agent`institutionReasoning, agent`contributionReasoning
      modifies agent`punishmentReasoning, agent`deanonymizedPunishmentReasoning, agent`anonymizedIdMapping
      modifies agent`roundNumber, agent`institutionChoice
      ensures Ready(agent, currentRound, Kinds(choices))
      ensures si.members == old(si.members) + (if ChosenKind(choices, agent) == SI then [agent] else [])
      ensures sfi.members == old(sfi.members) + (if ChosenKind(choices, agent) == SFI then [agent] else [])
    {
      agent.ResetForNewRound();
      agent.ChooseInstitution(currentRound, choices(agent.agentId));
      if agent.institutionChoice == Some(SI) {
        si.AddMember(agent);
      } else {
        sfi.AddMember(agent);
      }
    }

    /** The enrolment loop's turn for agent i, once agents 0..i-1 have enrolled. */
    method EnrolNext(i: nat, choices: int -> ChoiceReply)
      requires Valid() && i < |agents|
      requires si.members == Enrolled(agents[..i], Kinds(choices), SI) && sfi.members == Enrolled(agents[..i], Kinds(choices), SFI)
      requires forall k :: 0 <= k < i ==> Ready(agents[k], currentRound, Kinds(choices))
      modifies si`members, sfi`members
      modifies agents`anonymousDataHistory, agents`currentRoundAnonymousData, agents`contribution
      modifies agents`receivedPunishments, agents`receivedRewards, agents`assignedPunishments, agents`assignedRewards
      modifies agents`roundPayoff, agents`institutionReasoning, agents`contributionReasoning
      modifies agents`punishmentReasoning, agents`deanonymizedPunishmentReasoning, agents`anonymizedIdMapping
      modifies agents`roundNumber, agents`institutionChoice
      ensures si.members == Enrolled(agents[..i + 1], Kinds(choices), SI) && sfi.members == Enrolled(agents[..i + 1], Kinds(choices), SFI)
      ensures forall k :: 0 <= k <= i ==> Ready(agents[k], currentRound, Kinds(choices))
    {
      DistinctMembers(agents, i);
      Enrol(agents[i], choices);
      assert agents[..i + 1][..i] == agents[..i];
    }

    /**
     * The enrolment loop of `run_round`: each agent, in population order,
     * is reset, chooses from its reply, and joins SI if it chose SI and SFI
     * otherwise.
     */
    method EnrolAgents(choices: int -> ChoiceReply)
      requires Valid() && si.members == [] && sfi.members == []
      modifies si`members, sfi`members
      modifies agents`anonymousDataHistory, agents`currentRoundAnonymousData, agents`contribution
      modifies agents`receivedPunishments, agents`receivedRewards, agents`assignedPunishments, agents`assignedRewards
      modifies agents`roundPayoff, agents`institutionReasoning, agents`contributionReasoning
      modifies agents`punishmentReasoning, agents`deanonymizedPunishmentReasoning, agents`anonymizedIdMapping
      modifies agents`roundNumber, agents`institutionChoice
      ensures EnrolledBy(choices) && Chosen(choices)
      ensures forall k :: 0 <= k < |agents| ==> Ready(agents[k], currentRound, Kinds(choices))
    {
      var i := 0;
      while i < |agents|
        invariant 0 <= i <= |agents|
        invariant si.members == Enrolled(agents[..i], Kinds(choices), SI)
        invariant sfi.members == Enrolled(agents[..i], Kinds(choices), SFI)
        invariant forall k :: 0 <= k < i ==> Ready(agents[k], currentRound, Kinds(choices))
      {
        EnrolNext(i, choices);
        i := i + 1;
      }
      assert agents[..i] == agents;
    }

    /** The first loop of `calculate_payoffs`: each SI member banks its stage-one payoff plus `get_stage2_payoff`. */
    method PaySanctioning()
      requires DistinctIds(si.members)
      modifies si.members`roundPayoff, si.members`cumulativePayoff
      ensures forall a :: a in si.members ==>
        && a.roundPayoff == si.Stage1Of(a.agentId) + a.Stage2() as real
        && a.cumulativePayoff == old(a.cumulativePayoff) + a.roundPayoff
    {
      var i := 0;
      while i < |si.members|
        invariant 0 <= i <= |si.members|
        invariant forall k :: 0 <= k < i ==>
          && si.members[k].roundPayoff == si.Stage1Of(si.members[k].agentId) + si.members[k].Stage2() as real
          && si.members[k].cumulativePayoff == old(si.members[k].cumulativePayoff) + si.members[k].roundPayoff
        invariant forall k :: i <= k < |si.members| ==> si.members[k].cumulativePayoff == old(si.members[k].cumulativePayoff)
      {
        var agent := si.members[i];
        DistinctMembers(si.members, i);
        agent.UpdatePayoff(si.Stage1Of(agent.agentId) + agent.Stage2() as real);
        i := i + 1;
      }
      forall a | a in si.members
        ensures a.roundPayoff == si.Stage1Of(a.agentId) + a.Stage2() as real
        ensures a.cumulativePayoff == old(a.cumulativePayoff) + a.roundPayoff
      {
        var j :| 0 <= j < |si.members| && si.members[j] == a;
      }
    }

    /** The second loop of `calculate_payoffs`: each SFI member banks its stage-one payoff plus the whole stage-two endowment. */
    method PaySanctionFree()
      requires DistinctIds(sfi.members)
      modifies sfi.members`roundPayoff, sfi.members`cumulativePayoff
      ensures forall a :: a in sfi.members ==>
        && a.roundPayoff == sfi.Stage1Of(a.agentId) + EndowmentStage2 as real
        && a.cumulativePayoff == old(a.cumulativePayoff) + a.roundPayoff
    {
      var i := 0;
      while i < |sfi.members|
        invariant 0 <= i <= |sfi.members|
        invariant forall k :: 0 <= k < i ==>
          && sfi.members[k].roundPayoff == sfi.Stage1Of(sfi.members[k].agentId) + EndowmentStage2 as real
          && sfi.members[k].cumulativePayoff == old(sfi.members[k].cumulativePayoff) + sfi.members[k].roundPayoff
        invariant forall k :: i <= k < |sfi.members| ==> sfi.members[k].cumulativePayoff == old(sfi.members[k].cumulativePayoff)
      {
        var agent := sfi.members[i];
        DistinctMembers(sfi.members, i);
        agent.UpdatePayoff(sfi.Stage1Of(agent.agentId) + EndowmentStage2 as real);
        i := i + 1;
      }
      forall a | a in sfi.members
        ensures a.roundPayoff == sfi.Stage1Of(a.agentId) + EndowmentStage2 as real
        ensures a.cumulativePayoff == old(a.cumulativePayoff) + a.roundPayoff
      {
        var j :| 0 <= j < |sfi.members| && sfi.members[j] == a;
      }
    }

    /**
     * `calculate_payoffs`: an SI member earns its stage-one payoff plus
     * `get_stage2_payoff`, an SFI member its stage-one payoff plus the whole
     * stage-two endowment; each amount becomes the round payoff and is banked.
     */
    method CalculatePayoffs()
      requires DistinctIds(si.members) && DistinctIds(sfi.members) && DisjointIds(si.members, sfi.members)
      modifies si.members`roundPayoff, si.members`cumulativePayoff, sfi.members`roundPayoff, sfi.members`cumulativePayoff
      ensures forall a :: a in si.members ==>
        && a.roundPayoff == si.Stage1Of(a.agentId) + a.Stage2() as real
        && a.cumulativePayoff == old(a.cumulativePayoff) + a.roundPayoff
      ensures forall a :: a in sfi.members ==>
        && a.roundPayoff == sfi.Stage1Of(a.agentId) + EndowmentStage2 as real
        && a.cumulativePayoff == old(a.cumulativePayoff) + a.roundPayoff
    {
      PaySanctioning();
      PaySanctionFree();
    }

    /** The stage-one payoff the round record shows, from the institution the agent chose. */
    function StageOne(a: Agent): real
      reads a`institutionChoice, si`stage1Payoffs, sfi`stage1Payoffs
    {
      if a.institutionChoice == Some(SI) then si.Stage1Of(a.agentId) else sfi.Stage1Of(a.agentId)
    }

    /** `avg_contribution_institution`: the average contribution in the institution the agent chose. */
    function InstitutionAverage(a: Agent): real
      reads a`institutionChoice, si`totalContribution, si`groupSize, sfi`totalContribution, sfi`groupSize
    {
      if a.institutionChoice == Some(SI) then si.AverageContribution() else sfi.AverageContribution()
    }

    /** The agent's round payoff is the stage-one payoff of its institution plus the stage-two payoff the record shows. */
    predicate Paid(a: Agent)
      reads a`roundPayoff, a`institutionChoice, a`assignedPunishments, a`assignedRewards
      reads a`receivedPunishments, a`receivedRewards, si`stage1Payoffs, sfi`stage1Payoffs
    {
      a.roundPayoff == StageOne(a) + a.RecordedStage2() as real
    }

    /** Every agent is paid, and its cumulative payoff is its entry of `before` plus its round payoff. */
    predicate Banked(before: seq<real>)
      reads agents`roundPayoff, agents`institutionChoice, agents`assignedPunishments, agents`assignedRewards
      reads agents`receivedPunishments, agents`receivedRewards, agents`cumulativePayoff, si`stage1Payoffs, sfi`stage1Payoffs
    {
      && |before| == |agents|
      && forall k :: 0 <= k < |agents| ==>
        Paid(agents[k]) && agents[k].cumulativePayoff == before[k] + agents[k].roundPayoff
    }

    /**
     * `calculate_payoffs` seen from the population: once every agent is
     * enrolled by its reply, every agent's round payoff is its stage-one
     * payoff plus the stage-two payoff of its institution, and its
     * cumulative payoff grows by exactly that amount.
     */
    method PayAll(ghost choices: int -> ChoiceReply)
      requires Valid()
      requires EnrolledBy(choices) && Chosen(choices)
      modifies agents`roundPayoff, agents`cumulativePayoff
      ensures forall k :: 0 <= k < |agents| ==>
        Paid(agents[k]) && agents[k].cumulativePayoff == old(agents[k].cumulativePayoff) + agents[k].roundPayoff
    {
      EnrolmentDisjoint(agents, Kinds(choices));
      EnrolledDistinct(agents, Kinds(choices), SI);
      EnrolledDistinct(agents, Kinds(choices), SFI);
      EnrolledMembers(agents, Kinds(choices), SI);
      EnrolledMembers(agents, Kinds(choices), SFI);
      CalculatePayoffs();
      forall k | 0 <= k < |agents|
        ensures Paid(agents[k]) && agents[k].cumulativePayoff == old(agents[k].cumulativePayoff) + agents[k].roundPayoff
      {
        if ChosenKind(choices, agents[k]) == SI {
          assert agents[k] in si.members;
        } else {
          assert agents[k] in sfi.members;
        }
      }
    }

    /** The entries of `round_data['agents']` for the agents `ms`, whose ranks are `ranks`, out of `total`. */
    function Entries(ms: seq<Agent>, ranks: seq<nat>, total: nat): (r: seq<(int, AgentData)>)
      requires |ranks| == |ms|
      reads si`stage1Payoffs, sfi`stage1Payoffs
      reads ms`institutionChoice, ms`institutionReasoning, ms`contribution, ms`contributionReasoning
      reads ms`cumulativePayoff, ms`receivedPunishments, ms`receivedRewards
      reads ms`assignedPunishments, ms`assignedRewards
      reads ms`punishmentReasoning, ms`deanonymizedPunishmentReasoning
      ensures |r| == |ms|
    {
      if ms == [] then []
      else
        var n := |ms| - 1;
        Entries(ms[..n], ranks[..n], total) + [(ms[n].agentId, ms[n].Snapshot(StageOne(ms[n]), RankText(ranks[n], total)))]
    }

    /** Entry k of the record is agent k's id and snapshot, with its stage-one payoff and rank. */
    lemma {:induction false} EntriesAt(ms: seq<Agent>, ranks: seq<nat>, total: nat)
      requires |ranks| == |ms|
      ensures forall k :: 0 <= k < |ms| ==>
        Entries(ms, ranks, total)[k] == (ms[k].agentId, ms[k].Snapshot(StageOne(ms[k]), RankText(ranks[k], total)))
    {
      if ms != [] {
        var n := |ms| - 1;
        EntriesAt(ms[..n], ranks[..n], total);
      }
    }

    /** `round_data`: what `record_round_history` appends for the round just played. */
    function RoundRecord(): (r: RoundData)
      reads this`currentRound, si`members, sfi`members
      reads si`totalContribution, si`groupSize, sfi`totalContribution, sfi`groupSize, si`stage1Payoffs, sfi`stage1Payoffs
      reads agents`institutionChoice, agents`institutionReasoning, agents`contribution, agents`contributionReasoning
      reads agents`cumulativePayoff, agents`receivedPunishments, agents`receivedRewards
      reads agents`assignedPunishments, agents`assignedRewards
      reads agents`punishmentReasoning, agents`deanonymizedPunishmentReasoning
      ensures r.roundNumber == currentRound && r.siMembers == Ids(si.members) && r.sfiMembers == Ids(sfi.members)
      ensures r.siTotalContribution == si.totalContribution && r.sfiTotalContribution == sfi.totalContribution
    {
      RoundData(currentRound, Ids(si.members), Ids(sfi.members), si.totalContribution, sfi.totalContribution,
                si.AverageContribution(), sfi.AverageContribution(),
                Entries(agents, Ranks(CumulativePayoffs(agents)), |agents|))
    }

    /**
     * Entry k of the round record is keyed by agent k's id and shows its
     * rank among N, and its 'payoff' is the agent's stage-one payoff plus the
     * stage-two payoff of its institution.
     */
    lemma RecordEntries()
      ensures |RoundRecord().agents| == |agents|
      ensures forall k :: 0 <= k < |agents| ==>
        && RoundRecord().agents[k].0 == agents[k].agentId
        && RoundRecord().agents[k].1.payoff == StageOne(agents[k]) + agents[k].RecordedStage2() as real
        && RoundRecord().agents[k].1.rank == RankText(Ranks(CumulativePayoffs(agents))[k], |agents|)
    {
      EntriesAt(agents, Ranks(CumulativePayoffs(agents)), |agents|);
    }

    /** The averages a round record shows are each institution's total contribution over its group size. */
    lemma RecordAverages()
      ensures si.groupSize > 0 ==> RoundRecord().siAvgContribution * si.groupSize as real == si.totalContribution as real
      ensures sfi.groupSize > 0 ==> RoundRecord().sfiAvgContribution * sfi.groupSize as real == sfi.totalContribution as real
    {
    }

    /** The feedback entry an agent appends to its own history, given its entry in the round record. */
    function FeedbackFor(a: Agent, data: AgentData, averages: (real, real)): (f: Feedback)
      reads this`currentRound, a`institutionChoice, si`totalContribution, si`groupSize, sfi`totalContribution, sfi`groupSize
      ensures f.data == data && f.roundNumber == currentRound
      ensures f.avgPayoffSI == averages.0 && f.avgPayoffSFI == averages.1
      ensures var g := if a.institutionChoice == Some(SI) then si else sfi;
        g.groupSize > 0 ==> f.avgContributionInstitution * g.groupSize as real == g.totalContribution as real
    {
      Feedback(data, currentRound, averages.0, averages.1, InstitutionAverage(a))
    }

    /** `avg_payoff_SI` and `avg_payoff_SFI`: the average round payoff in each institution. */
    function RoundAverages(): (r: (real, real))
      reads si`members, sfi`members, si.members`roundPayoff, sfi.members`roundPayoff
      ensures si.members != [] ==> r.0 * |si.members| as real == RoundPayoffTotal(si.members)
      ensures sfi.members != [] ==> r.1 * |sfi.members| as real == RoundPayoffTotal(sfi.members)
      ensures si.members == [] ==> r.0 == 0.0
      ensures sfi.members == [] ==> r.1 == 0.0
    {
      (AverageRoundPayoff(si.members), AverageRoundPayoff(sfi.members))
    }

    /**
     * The first loop of `record_round_history`: each agent's entry in the
     * round record, in population order, and its feedback entry appended
     * to its own history.
     */
    method RecordAgents(ranks: seq<nat>, averages: (real, real)) returns (datas: seq<(int, AgentData)>)
      requires |ranks| == |agents| && DistinctIds(agents)
      modifies agents`history
      ensures datas == old(Entries(agents, ranks, |agents|))
      ensures forall k :: 0 <= k < |agents| ==> agents[k].history == old(agents[k].history) + [old(FeedbackFor(agents[k], datas[k].1, averages))]
    {
      ghost var entries := Entries(agents, ranks, |agents|);
      EntriesAt(agents, ranks, |agents|);
      datas := [];
      var i := 0;
      while i < |agents|
        invariant 0 <= i <= |agents|
        invariant datas == entries[..i]
        invariant forall k :: 0 <= k < i ==> agents[k].history == old(agents[k].history) + [old(FeedbackFor(agents[k], datas[k].1, averages))]
        invariant forall k :: i <= k < |agents| ==> agents[k].history == old(agents[k].history)
      {
        var agent := agents[i];
        var stage1 := if agent.institutionChoice == Some(SI) then si.Stage1Of(agent.agentId) else sfi.Stage1Of(agent.agentId);
        var data := agent.Snapshot(stage1, RankText(ranks[i], |agents|));
        assert (agent.agentId, data) == entries[i];
        datas := datas + [(agent.agentId, data)];
        var avgContribution := if agent.institutionChoice == Some(SI) then si.AverageContribution() else sfi.AverageContribution();
        DistinctMembers(agents, i);
        agent.UpdateHistory(Feedback(data, currentRound, averages.0, averages.1, avgContribution));
        assert entries[..i + 1] == entries[..i] + [entries[i]];
        i := i + 1;
      }
    }

    /** Every agent's staged batch is its view of the record entries `datas`. */
    predicate Staged(datas: seq<(int, AgentData)>)
      reads agents`currentRoundAnonymousData
    {
      forall k :: 0 <= k < |agents| ==> agents[k].currentRoundAnonymousData == Some(PeerView(datas, agents[k].agentId))
    }

    /** The second loop of `record_round_history`: every agent's staged batch is its view of the record. */
    method StageBatches(datas: seq<(int, AgentData)>)
      requires DistinctIds(agents)
      modifies agents`currentRoundAnonymousData
      ensures Staged(datas)
    {
      var i := 0;
      while i < |agents|
        invariant 0 <= i <= |agents|
        invariant forall k :: 0 <= k < i ==> agents[k].currentRoundAnonymousData == Some(PeerView(datas, agents[k].agentId))
      {
        var batch := AnonymousBatch(datas, agents[i].agentId);
        DistinctMembers(agents, i);
        agents[i].currentRoundAnonymousData := Some(batch);
        i := i + 1;
      }
    }

    /**
     * The last step of `record_round_history`: the round record, made of
     * the round number, both member lists, both totals and averages and the
     * agents' entries `datas`, is appended to `history` and to `results`.
     */
    method AppendRecord(datas: seq<(int, AgentData)>) returns (record: RoundData)
      modifies this`history, this`results
      ensures record == RoundData(currentRound, Ids(si.members), Ids(sfi.members), si.totalContribution, sfi.totalContribution,
                                  si.AverageContribution(), sfi.AverageContribution(), datas)
      ensures history == old(history) + [record] && results == old(results) + [record]
    {
      record := RoundData(currentRound, Ids(si.members), Ids(sfi.members), si.totalContribution, sfi.totalContribution,
                          si.AverageContribution(), sfi.AverageContribution(), datas);
      history := history + [record];
      results := results + [record];
    }

    /** The two loops of `record_round_history`: feedback into every agent's history, then every agent's staged batch. */
    method RecordAndStage() returns (datas: seq<(int, AgentData)>)
      requires DistinctIds(agents)
      modifies agents`history, agents`currentRoundAnonymousData
      ensures datas == old(RoundRecord().agents)
      ensures forall k :: 0 <= k < |agents| ==> agents[k].history == old(agents[k].history) + [old(FeedbackFor(agents[k], datas[k].1, RoundAverages()))]
      ensures Staged(datas)
    {
      var ranks := Ranks(CumulativePayoffs(agents));
      var averages := RoundAverages();
      datas := RecordAgents(ranks, averages);
      StageBatches(datas);
    }

    /**
     * `record_round_history`: rank the population, record every agent's
     * entry and give it its feedback entry, stage every agent's batch of
     * anonymised peer entries, and append the round record to `history`
     * and `results`.
     */
    method RecordRoundHistory() returns (record: RoundData)
      requires DistinctIds(agents)
      modifies this`history, this`results, agents`history, agents`currentRoundAnonymousData
      ensures record == old(RoundRecord())
      ensures history == old(history) + [record] && results == old(results) + [record]
      ensures forall k :: 0 <= k < |agents| ==> agents[k].history == old(agents[k].history) + [old(FeedbackFor(agents[k], record.agents[k].1, RoundAverages()))]
      ensures Staged(record.agents)
    {
      var datas := RecordAndStage();
      record := AppendRecord(datas);
    }

    /** Stage one of `run_round`: both institutions start the round empty. */
    method ResetInstitutions()
      modifies si, sfi
      ensures si.members == [] && sfi.members == []
      ensures si.roundNumber == currentRound && sfi.roundNumber == currentRound
      ensures si.punishmentMatrix == map[] && si.rewardMatrix == map[]
    {
      si.ResetInstitution(currentRound);
      sfi.ResetInstitution(currentRound);
    }

    /**
     * The first stages of `run_round`: both institutions are reset for the
     * round, then every agent, in population order, is reset, chooses from
     * its reply, and joins the institution it chose.
     */
    method OpenRound(choices: int -> ChoiceReply)
      requires Valid()
      modifies si, sfi
      modifies agents`anonymousDataHistory, agents`currentRoundAnonymousData, agents`contribution
      modifies agents`receivedPunishments, agents`receivedRewards, agents`assignedPunishments, agents`assignedRewards
      modifies agents`roundPayoff, agents`institutionReasoning, agents`contributionReasoning
      modifies agents`punishmentReasoning, agents`deanonymizedPunishmentReasoning, agents`anonymizedIdMapping
      modifies agents`roundNumber, agents`institutionChoice
      ensures EnrolledBy(choices) && Chosen(choices)
      ensures forall k :: 0 <= k < |agents| ==> agents[k].cumulativePayoff == old(agents[k].cumulativePayoff)
    {
      ResetInstitutions();
      EnrolAgents(choices);
    }

    /** Stage two of `run_round`: contributions are collected in SI, then in SFI. */
    method CollectAll(replies: int -> ContributionReply, ghost choices: int -> ChoiceReply)
      requires Valid() && EnrolledBy(choices)
      modifies si`totalContribution, si`groupSize, si`anonymizedContributions
      modifies sfi`totalContribution, sfi`groupSize, sfi`anonymizedContributions
      modifies agents`contribution, agents`contributionReasoning
      ensures si.totalContribution == IntSum(si.anonymizedContributions) && si.groupSize == |si.members|
      ensures sfi.totalContribution == IntSum(sfi.anonymizedContributions) && sfi.groupSize == |sfi.members|
    {
      EnrolledWithin(agents, Kinds(choices), SI);
      EnrolledWithin(agents, Kinds(choices), SFI);
      si.CollectContributions(replies);
      sfi.CollectContributions(replies);
    }

    /** Stages two and three of `run_round`: contributions, then the public good, in SI and then SFI. */
    method Contribute(replies: int -> ContributionReply, ghost choices: int -> ChoiceReply)
      requires Valid() && EnrolledBy(choices)
      modifies si`totalContribution, si`groupSize, si`anonymizedContributions, si`stage1Payoffs
      modifies sfi`totalContribution, sfi`groupSize, sfi`anonymizedContributions, sfi`stage1Payoffs
      modifies agents`contribution, agents`contributionReasoning
      ensures si.totalContribution == IntSum(si.anonymizedContributions) && si.groupSize == |si.members|
      ensures sfi.totalContribution == IntSum(sfi.anonymizedContributions) && sfi.groupSize == |sfi.members|
    {
      CollectAll(replies, choices);
      si.DistributePublicGoods();
      sfi.DistributePublicGoods();
    }

    /** Stage four of `run_round`: every SI member decides its punishments and rewards, entered into SI's matrices. */
    method DecideSanctions(replies: int -> AllocationReply, ghost choices: int -> ChoiceReply)
      requires Valid() && EnrolledBy(choices)
      modifies si`punishmentMatrix, si`rewardMatrix
      modifies agents`anonymizedIdMapping, agents`punishmentReasoning, agents`deanonymizedPunishmentReasoning
      modifies agents`assignedPunishments, agents`assignedRewards
      ensures var ds := Decided(Ids(si.members), replies);
        && si.punishmentMatrix == RecordAll(old(si.punishmentMatrix), Ids(si.members), PunishmentDicts(ds))
        && si.rewardMatrix == RecordAll(old(si.rewardMatrix), Ids(si.members), RewardDicts(ds))
    {
      EnrolledWithin(agents, Kinds(choices), SI);
      EnrolledDistinct(agents, Kinds(choices), SI);
      si.HandlePunishmentsAndRewards(replies);
    }

    /** Stage five of `run_round`: every SI member's received totals grow by the effect of its matrix rows. */
    method ApplySanctions(ghost choices: int -> ChoiceReply)
      requires Valid() && EnrolledBy(choices)
      modifies agents`receivedPunishments, agents`receivedRewards
      ensures forall k :: 0 <= k < |si.members| ==>
        && si.members[k].receivedPunishments == old(si.members[k].receivedPunishments) + RowSum(si.punishmentMatrix, si.members[k].agentId) * PunishmentEffect
        && si.members[k].receivedRewards == old(si.members[k].receivedRewards) + RowSum(si.rewardMatrix, si.members[k].agentId) * RewardEffect
    {
      EnrolledWithin(agents, Kinds(choices), SI);
      EnrolledDistinct(agents, Kinds(choices), SI);
      si.ApplyPunishmentsAndRewards();
    }

    /** Stages four and five of `run_round`: SI decides its sanctions, then applies them; SFI is not asked. */
    method Sanction(replies: int -> AllocationReply, ghost choices: int -> ChoiceReply)
      requires Valid() && EnrolledBy(choices)
      modifies si`punishmentMatrix, si`rewardMatrix
      modifies agents`anonymizedIdMapping, agents`punishmentReasoning, agents`deanonymizedPunishmentReasoning
      modifies agents`assignedPunishments, agents`assignedRewards, agents`receivedPunishments, agents`receivedRewards
      ensures var ds := Decided(Ids(si.members), replies);
        && si.punishmentMatrix == RecordAll(old(si.punishmentMatrix), Ids(si.members), PunishmentDicts(ds))
        && si.rewardMatrix == RecordAll(old(si.rewardMatrix), Ids(si.members), RewardDicts(ds))
    {
      DecideSanctions(replies, choices);
      ApplySanctions(choices);
    }

    /** Stages four to six of `run_round`: SI's sanctions, then every agent's payoff. */
    method SanctionAndPay(replies: int -> AllocationReply, ghost choices: int -> ChoiceReply)
      requires Valid() && EnrolledBy(choices) && Chosen(choices)
      modifies si`punishmentMatrix, si`rewardMatrix
      modifies agents`anonymizedIdMapping, agents`punishmentReasoning, agents`deanonymizedPunishmentReasoning
      modifies agents`assignedPunishments, agents`assignedRewards, agents`receivedPunishments, agents`receivedRewards
      modifies agents`roundPayoff, agents`cumulativePayoff
      ensures forall k :: 0 <= k < |agents| ==>
        Paid(agents[k]) && agents[k].cumulativePayoff == old(agents[k].cumulativePayoff) + agents[k].roundPayoff
    {
      Sanction(replies, choices);
      PayAll(choices);
    }

    /** Stages two to six of `run_round`, once every agent is enrolled. */
    method PlayInstitutions(oracle: Oracle, ghost choices: int -> ChoiceReply)
      requires Valid() && EnrolledBy(choices) && Chosen(choices)
      modifies si`totalContribution, si`groupSize, si`anonymizedContributions, si`stage1Payoffs
      modifies sfi`totalContribution, sfi`groupSize, sfi`anonymizedContributions, sfi`stage1Payoffs
      modifies si`punishmentMatrix, si`rewardMatrix
      modifies agents`contribution, agents`contributionReasoning
      modifies agents`anonymizedIdMapping, agents`punishmentReasoning, agents`deanonymizedPunishmentReasoning
      modifies agents`assignedPunishments, agents`assignedRewards, agents`receivedPunishments, agents`receivedRewards
      modifies agents`roundPayoff, agents`cumulativePayoff
      ensures forall k :: 0 <= k < |agents| ==>
        Paid(agents[k]) && agents[k].cumulativePayoff == old(agents[k].cumulativePayoff) + agents[k].roundPayoff
    {
      var round := currentRound;
      Contribute(id => oracle.contribution(round, id), choices);
      SanctionAndPay(id => oracle.allocation(round, id), choices);
    }

    /**
     * The stages of `run_round` before the record, in the source's order:
     * open the round, contributions and the public good, SI's sanctions,
     * payoffs.
     */
    method PlayStages(oracle: Oracle)
      requires Valid()
      modifies si, sfi
      modifies agents`anonymousDataHistory, agents`currentRoundAnonymousData, agents`contribution
      modifies agents`receivedPunishments, agents`receivedRewards, agents`assignedPunishments, agents`assignedRewards
      modifies agents`roundPayoff, agents`cumulativePayoff, agents`institutionReasoning, agents`contributionReasoning
      modifies agents`punishmentReasoning, agents`deanonymizedPunishmentReasoning, agents`anonymizedIdMapping
      modifies agents`roundNumber, agents`institutionChoice
      ensures EnrolledBy(Choices(oracle, currentRound))
      ensures Banked(old(CumulativePayoffs(agents)))
    {
      var choices := Choices(oracle, currentRound);
      OpenRound(choices);
      PlayInstitutions(oracle, choices);
    }

    /**
     * `record` is the record of this round: it lists the members of each
     * institution, and its entry k belongs to agent k and shows that agent's
     * round payoff.
     */
    predicate RecordsRound(record: RoundData)
      reads this`currentRound, si`members, sfi`members, agents`roundPayoff
    {
      && record.roundNumber == currentRound
      && record.siMembers == Ids(si.members) && record.sfiMembers == Ids(sfi.members)
      && |record.agents| == |agents|
      && forall k :: 0 <= k < |agents| ==>
        record.agents[k].0 == agents[k].agentId && record.agents[k].1.payoff == agents[k].roundPayoff
    }

    /** Every agent has gained exactly one feedback entry over its history in `before`: its entry of `record`, for this round. */
    predicate FedBack(before: seq<seq<Feedback>>, record: RoundData)
      reads this`currentRound, agents`history
    {
      && |before| == |agents|
      && forall k :: 0 <= k < |agents| ==>
        && |agents[k].history| == |before[k]| + 1
        && agents[k].history[..|before[k]|] == before[k]
        && (k < |record.agents| ==> agents[k].history[|agents[k].history| - 1].data == record.agents[k].1)
        && agents[k].history[|agents[k].history| - 1].roundNumber == currentRound
    }

    /** Every agent has staged its view of the entries of `record`, which holds the N-1 entries of the others. */
    predicate StagedViews(record: RoundData)
      reads agents`currentRoundAnonymousData
    {
      && Staged(record.agents)
      && forall k :: 0 <= k < |agents| ==> |PeerView(record.agents, agents[k].agentId)| == |agents| - 1
    }

    /**
     * Since the state whose records were `h0` and results `r0`, one record
     * of this round has been appended to both `history` and `results`, and
     * every agent has staged its view of it.
     */
    predicate Appended(h0: seq<RoundData>, r0: seq<RoundData>)
      reads this`history, this`results, this`currentRound, si`members, sfi`members
      reads agents`roundPayoff, agents`currentRoundAnonymousData
    {
      && |history| == |h0| + 1 && history[..|h0|] == h0
      && results == r0 + [history[|h0|]]
      && RecordsRound(history[|h0|])
      && StagedViews(history[|h0|])
    }

    /**
     * Once every agent is paid, the record about to be appended is of this
     * round and shows each agent's round payoff, and every agent's view of
     * it holds N-1 entries.
     */
    lemma RecordShape()
      requires Valid() && forall k :: 0 <= k < |agents| ==> Paid(agents[k])
      ensures RecordsRound(RoundRecord())
      ensures forall k :: 0 <= k < |agents| ==> |PeerView(RoundRecord().agents, agents[k].agentId)| == |agents| - 1
    {
      RecordEntries();
      var record := RoundRecord();
      assert DistinctRecordIds(record.agents);
      forall k | 0 <= k < |agents|
        ensures |PeerView(record.agents, agents[k].agentId)| == |agents| - 1
      {
        PeerViewSkipsOwn(record.agents, k);
      }
    }

    /** `record_round_history` once the record it is about to append is known to be of this round. */
    method AppendRound()
      requires Valid() && RecordsRound(RoundRecord())
      requires forall k :: 0 <= k < |agents| ==> |PeerView(RoundRecord().agents, agents[k].agentId)| == |agents| - 1
      modifies this`history, this`results, agents`history, agents`currentRoundAnonymousData
      ensures Appended(old(history), old(results))
      ensures FedBack(old(Histories(agents)), history[|history| - 1])
    {
      var record := KeepRecord();
      AppendedBy(old(history), old(results), record);
    }

    /**
     * Proof step of `AppendRound`: recording the round changes no payoff and
     * no member list, so the appended record still describes the round.
     */
    method KeepRecord() returns (record: RoundData)
      requires DistinctIds(agents) && RecordsRound(RoundRecord())
      modifies this`history, this`results, agents`history, agents`currentRoundAnonymousData
      ensures record == old(RoundRecord()) && RecordsRound(record)
      ensures history == old(history) + [record] && results == old(results) + [record]
      ensures FedBack(old(Histories(agents)), record)
      ensures Staged(record.agents)
    {
      record := RecordAndFeedBack();
    }

    /** Proof step of `AppendRound`: appending `record`, of this round and staged, to `h0` and `r0` is what `Appended` describes. */
    lemma AppendedBy(h0: seq<RoundData>, r0: seq<RoundData>, record: RoundData)
      requires history == h0 + [record] && results == r0 + [record]
      requires RecordsRound(record) && StagedViews(record)
      ensures Appended(h0, r0)
    {
    }

    /** Proof step of `KeepRecord`: `RecordRoundHistory` with its contract narrowed to the record and the feedback. */
    method RecordAndFeedBack() returns (record: RoundData)
      requires DistinctIds(agents)
      modifies this`history, this`results, agents`history, agents`currentRoundAnonymousData
      ensures record == old(RoundRecord())
      ensures history == old(history) + [record] && results == old(results) + [record]
      ensures FedBack(old(Histories(agents)), record)
      ensures Staged(record.agents)
    {
      record := RecordRoundHistory();
    }

    /**
     * The last stage of `run_round`, `record_round_history`, read from the
     * record it appends: the record is of this round and lists the members
     * of each institution; entry k belongs to agent k and shows its round
     * payoff; agent k gains one feedback entry carrying that entry, and
     * stages its view of the N-1 other entries.
     */
    method CloseRound(ghost choices: int -> ChoiceReply, ghost before: seq<real>)
      requires Valid() && EnrolledBy(choices) && Banked(before)
      modifies this`history, this`results, agents`history, agents`currentRoundAnonymousData
      ensures EnrolledBy(choices) && Banked(before)
      ensures Appended(old(history), old(results))
      ensures FedBack(old(Histories(agents)), history[|history| - 1])
    {
      RecordPaidRound();
    }

    /** Proof step of `CloseRound`: the record of a round whose agents are all paid. */
    method RecordPaidRound()
      requires Valid() && forall k :: 0 <= k < |agents| ==> Paid(agents[k])
      modifies this`history, this`results, agents`history, agents`currentRoundAnonymousData
      ensures Appended(old(history), old(results))
      ensures FedBack(old(Histories(agents)), history[|history| - 1])
    {
      RecordShape();
      AppendRound();
    }

    /**
     * `run_round`: the stages above, then the record. Afterwards the member
     * lists are the enrolment by the round's replies; `history` and
     * `results` gain the same one record, of this round, whose entries
     * follow the population with each agent's round payoff; every agent has
     * banked that payoff, gained exactly one feedback entry carrying its
     * record entry, and staged a view of its N-1 peers.
     */
    method RunRound(oracle: Oracle)
      requires Valid()
      modifies si, sfi, this`history, this`results
      modifies agents`anonymousDataHistory, agents`currentRoundAnonymousData, agents`contribution
      modifies agents`receivedPunishments, agents`receivedRewards, agents`assignedPunishments, agents`assignedRewards
      modifies agents`roundPayoff, agents`cumulativePayoff, agents`institutionReasoning, agents`contributionReasoning
      modifies agents`punishmentReasoning, agents`deanonymizedPunishmentReasoning, agents`anonymizedIdMapping
      modifies agents`roundNumber, agents`institutionChoice, agents`history
      ensures EnrolledBy(Choices(oracle, currentRound))
      ensures Banked(old(CumulativePayoffs(agents)))
      ensures Appended(old(history), old(results))
      ensures FedBack(old(Histories(agents)), history[|history| - 1])
    {
      ghost var before := Histories(agents);
      PlayStages(oracle);
      assert Histories(agents) == before;
      CloseRound(Choices(oracle, currentRound), old(CumulativePayoffs(agents)));
    }

    /** A round appended and fed back has grown `history`, `results` and every agent's history by one entry of this round. */
    lemma Grown(h0: seq<RoundData>, r0: seq<RoundData>, before: seq<seq<Feedback>>)
      requires Appended(h0, r0) && FedBack(before, history[|history| - 1])
      ensures h0 <= history && |history| == |h0| + 1 && history[|h0|].roundNumber == currentRound
      ensures results == r0 + [history[|h0|]]
      ensures forall k :: 0 <= k < |agents| ==> before[k] <= agents[k].history && |agents[k].history| == |before[k]| + 1
    {
    }

    /** One turn of the loop of `run_simulation`: set the round number, then play the round. */
    method PlayRound(oracle: Oracle, round: int)
      requires Valid()
      modifies this`currentRound, si, sfi, this`history, this`results
      modifies agents`anonymousDataHistory, agents`currentRoundAnonymousData, agents`contribution
      modifies agents`receivedPunishments, agents`receivedRewards, agents`assignedPunishments, agents`assignedRewards
      modifies agents`roundPayoff, agents`cumulativePayoff, agents`institutionReasoning, agents`contributionReasoning
      modifies agents`punishmentReasoning, agents`deanonymizedPunishmentReasoning, agents`anonymizedIdMapping
      modifies agents`roundNumber, agents`institutionChoice, agents`history
      ensures currentRound == round
      ensures EnrolledBy(Choices(oracle, round))
      ensures Banked(old(CumulativePayoffs(agents)))
      ensures old(history) <= history && |history| == |old(history)| + 1 && history[|old(history)|].roundNumber == round
      ensures results == old(results) + [history[|old(history)|]]
      ensures forall k :: 0 <= k < |agents| ==>
        old(agents[k].history) <= agents[k].history && |agents[k].history| == |old(agents[k].history)| + 1
    {
      ghost var before := Histories(agents);
      ghost var banked := CumulativePayoffs(agents);
      currentRound := round;
      assert Histories(agents) == before && CumulativePayoffs(agents) == banked;
      RunRound(oracle);
      Grown(old(history), old(results), before);
    }

    /** Proof step of `RunSimulation`: one turn of its loop, seen only through the growth of the records and the histories. */
    method GrowRound(oracle: Oracle, round: int)
      requires Valid()
      modifies this`currentRound, si, sfi, this`history, this`results
      modifies agents`anonymousDataHistory, agents`currentRoundAnonymousData, agents`contribution
      modifies agents`receivedPunishments, agents`receivedRewards, agents`assignedPunishments, agents`assignedRewards
      modifies agents`roundPayoff, agents`cumulativePayoff, agents`institutionReasoning, agents`contributionReasoning
      modifies agents`punishmentReasoning, agents`deanonymizedPunishmentReasoning, agents`anonymizedIdMapping
      modifies agents`roundNumber, agents`institutionChoice, agents`history
      ensures currentRound == round
      ensures old(history) <= history && |history| == |old(history)| + 1 && history[|old(history)|].roundNumber == round
      ensures results == old(results) + [history[|old(history)|]]
      ensures forall k :: 0 <= k < |agents| ==>
        old(agents[k].history) <= agents[k].history && |agents[k].history| == |old(agents[k].history)| + 1
    {
      PlayRound(oracle, round);
    }

    /**
     * `run_simulation`: rounds 1 to `NumRounds`, in order, each opened by
     * setting the round number and then played by `run_round`. Afterwards
     * `history` and `results` hold one more record per round, numbered 1
     * to `NumRounds` in order, and every agent has gained one feedback
     * entry per round.
     */
    method RunSimulation(oracle: Oracle)
      requires Valid()
      modifies this`currentRound, si, sfi, this`history, this`results
      modifies agents`anonymousDataHistory, agents`currentRoundAnonymousData, agents`contribution
      modifies agents`receivedPunishments, agents`receivedRewards, agents`assignedPunishments, agents`assignedRewards
      modifies agents`roundPayoff, agents`cumulativePayoff, agents`institutionReasoning, agents`contributionReasoning
      modifies agents`punishmentReasoning, agents`deanonymizedPunishmentReasoning, agents`anonymizedIdMapping
      modifies agents`roundNumber, agents`institutionChoice, agents`history
      ensures currentRound == NumRounds
      ensures old(history) <= history && |history| == |old(history)| + NumRounds
      ensures forall r :: |old(history)| <= r < |history| ==> history[r].roundNumber == r - |old(history)| + 1
      ensures results == old(results) + history[|old(history)|..]
      ensures forall k :: 0 <= k < |agents| ==>
        old(agents[k].history) <= agents[k].history && |agents[k].history| == |old(agents[k].history)| + NumRounds
    {
      var round := 1;
      while round <= NumRounds
        invariant 1 <= round <= NumRounds + 1
        invariant round > 1 ==> currentRound == round - 1
        invariant old(history) <= history && |history| == |old(history)| + round - 1
        invariant forall r :: |old(history)| <= r < |history| ==> history[r].roundNumber == r - |old(history)| + 1
        invariant results == old(results) + history[|old(history)|..]
        invariant forall k :: 0 <= k < |agents| ==>
          old(agents[k].history) <= agents[k].history && |agents[k].history| == |old(agents[k].history)| + round - 1
      {
        GrowRound(oracle, round);
        round := round + 1;
      }
    }
  }
}
