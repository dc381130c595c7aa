# SanctSim round engine in Dafny

SanctSim simulates a repeated public-goods game. Language-model agents play it and choose between two
institutions each round: the Sanctioning Institution (SI) and the Sanction-Free Institution (SFI).
This project models the game's round engine and proves properties of that model.

The engine has three parts. Each part is modelled in the form of the Python source.

- **Agents** (`agent.dfy`, module `Agents`) model `code/agent.py`.
  - An `Agent` class holds the per-round fields, the cumulative payoff, the feedback history and the bounded window of anonymised peer batches.
  - The two payoff formulas are functions.
  - The three reply parsers are in module `Decisions` (`decisions.dfy`). The allocation parser is a method whose loop keeps a running token budget. It is proved equal to a recursive specification, `Allocate`, and the lemmas about the budget are proved on that specification.
- **Institutions** (`institution.dfy`, module `Institutions`) model `code/institution.py`.
  - One `Institution` class stands for both variants. Its `sanctioning` constant is true for SI.
  - The SFI allocation phases do nothing, as in the source.
  - The decide phase fills `punishment_matrix[victim][punisher]` and `reward_matrix[beneficiary][benefactor]` one member at a time. The apply phase credits the effects afterwards.
- **Environment** (`environment.dfy`, module `Environments`) models `code/environment.py`.
  - The `Environment` class runs the stages of `run_round` in the source's order and the round loop of `run_simulation`.
  - `record_round_history` produces the round record, the per-agent feedback entries and the anonymised peer batches.
  - The ranking is a pure step. It lives in module `Ranking` (`ranking.dfy`).

Supporting modules:
- `Params` holds the constants of `code/parameters.py`.
- `Dicts` models Python's insertion-ordered `dict` from agent id to token count, as an association list.
- `Text` models the parts of `str.strip`, `str.upper`, `int(str)` and `str(n)` that can change a parser's outcome.
- `Records` holds the record, feedback and anonymised-entry values.
- `Wrappers` holds `Option`.

Every language-model reply is an input. An `Oracle` value gives the decoded reply for each round number and agent id, one per prompt kind.
- A decoded reply is either a failure value or the JSON record. The failure value stands for everything that makes the source fall into its `except` branch:
  - no JSON object found;
  - `json.loads` failing;
  - a field of a type the parser cannot use.
- In the JSON record, missing keys carry the source's defaults.
- An allocation map is what `dict.items()` yields for the decoded object: its entries in order, each key text once. Each entry pairs the key text with a token value that `int()` either accepts or rejects.
- `Decisions.DictItems` models how `json.loads` builds that dict from the entries as written: a key text seen again keeps its first position and takes the last value.

Numbers:
- Payoffs, the 1.6 multiplier and all averages are exact `real`s.
- Token counts and contributions are `int`s.

Python behaviour worth knowing:
- Python's `sorted(..., reverse=True)` is stable. Agents with equal cumulative payoffs therefore keep their population order.
- Ranks are positions in that order, so they are distinct. They are not shared "dense" ranks.
- `Ranking.Before` states exactly this order.

## Model

| member | source | states |
|---|---|---|
| Decisions.ParseInstitutionChoice | code/agent.py:250-270 | the choice is SI if and only if the reply was read and its `institution_choice` upper-cases to "SI"; every other value, a missing key or a failed parse gives SFI; the reasoning is the reply's, or "" after a failure |
| Decisions.ChoiceIsCaseInsensitive | code/agent.py:260-265 | "si" and the non-ASCII letters that upper-case to "SI" select SI; "sﬁ" (upper-cased "SFI") and a missing key select SFI; the reasoning is kept in each case |
| Decisions.ParseContribution | code/agent.py:418-437 | the amount always lies in [MIN_CONTRIBUTION, MAX_CONTRIBUTION]; an in-range request is kept, one below the range becomes the minimum, one above becomes the maximum; a missing key asks for ENDOWMENT_STAGE_1 // 2; a failed parse gives ENDOWMENT_STAGE_1 // 2 and reasoning "" |
| Decisions.AliasMapping | code/agent.py:485-491 | the alias table has exactly the keys 1..n, and alias k names the k-th peer of the roster |
| Agents.Agent.BuildAliasMapping | code/agent.py:485-491 | the loop over the roster leaves `anonymized_id_mapping` equal to the alias table |
| Decisions.ResolveAlias | code/agent.py:657-667 | a key is resolved only to an agent id of the roster, never to the alias itself |
| Decisions.ResolveAliasAgreesWithMapping | code/agent.py:648-667 | the parser resolves a cleaned integer key k exactly as the prompt's alias table assigns it; any other key resolves to nothing |
| Decisions.AliasKeyResolves | code/agent.py:657-667 | the alias text "k", for k in 1..n, names the k-th peer |
| Decisions.QuotedAliasKeyResolves | code/agent.py:635-640 | a quoted alias "\"k\"" names the same peer as "k" |
| Decisions.PaddedAliasKeyResolves | code/agent.py:635-640 | an alias padded with blanks, " k ", names the same peer as "k" |
| Decisions.SmallAliasesResolve | code/agent.py:650-667 | the keys "1", "2" and "3" name the first three peers |
| Decisions.ResolveEntries | code/agent.py:656-662 | there is one resolved entry per key, and every resolved id is on the roster |
| Decisions.AllocateBounds | code/agent.py:656-671 | one allocation loop records only non-negative counts under distinct keys, and only roster ids become keys; recorded tokens plus the budget left never exceed what there was; the budget left stays in [0, remaining] |
| Decisions.ResolveEntriesAppend | code/agent.py:656-661 | keys are resolved entry by entry, so resolving a concatenation gives the concatenation of the resolutions |
| Decisions.UnresolvedEntrySkipped | code/agent.py:657-662 | an entry that names no peer leaves the loop's result unchanged wherever it stands; the entries after it are still read |
| Decisions.UnresolvedKeyIgnored | code/agent.py:657-664 | a key that is not an integer in 1..n once cleaned is skipped together with its token value, which is never converted, and the loop goes on |
| Decisions.AllocateExhausted | code/agent.py:664-671 | with no budget left, a loop records at most the first peer it resolves, with 0 tokens, and then stops |
| Decisions.Allocations | code/agent.py:615-695 | both maps hold non-negative counts under distinct keys that are roster ids; punishments and rewards together stay within ENDOWMENT_STAGE_2; a malformed reply gives ({}, {}) with both reasoning strings ""; a decoded reply either ends in that same discard or keeps its `reasoning` and de-anonymised reasoning |
| Decisions.AllocationLoop | code/agent.py:655-671 | the loop, with its running `tokens_remaining`, clamping and early `break`, computes the recursive specification `Allocate` |
| Decisions.ParsePunishmentResponse | code/agent.py:615-695 | the punishment loop and then the reward loop share one budget and give exactly `Allocations`; the total recorded is at most ENDOWMENT_STAGE_2, and every count is non-negative |
| Decisions.RewardsAfterExhaustedBudget | code/agent.py:673-688 | once the punishments have used the whole budget, the reward map holds at most one entry, worth 0 |
| Decisions.BudgetTruncationLoops | code/agent.py:655-688 | on resolved entries, {a:15, b:10} against 20 gives {a:15, b:5} with 0 left, and a first reward against 0 is recorded as 0 |
| Decisions.BudgetTruncationExample | code/agent.py:615-688 | punishments {"1":15, "2":10} and rewards {"3":5, ...} give {peer1:15, peer2:5} and {peer3:0}, whatever follows the first reward |
| Decisions.NonIntegerTokenDiscardsAll | code/agent.py:656-695 | a punishment token value that `int()` rejects, on a key that names a peer, discards both maps and both reasoning strings whenever the loop reaches it, that is, whenever the entries before it pass without a `break` |
| Decisions.NonIntegerRewardDiscardsAll | code/agent.py:674-695 | a reward token value that `int()` rejects, on a key that names a peer, reached by the reward loop, discards both maps and both reasoning strings, the punishments already recorded included |
| Decisions.PunishmentsAfterBreakIgnored | code/agent.py:670-671 | punishment entries after the `break` are never read, so whatever they hold, rejected token values included, the result is as if they were absent |
| Decisions.LaterNonIntegerTokenExample | code/agent.py:656-695 | punishments `{"1": 5, "2": "x"}` are discarded whole: the first entry is recorded and the budget is not used up, so the second is reached and rejected |
| Decisions.DictItems | code/agent.py:625-627 | the decoded object has each key text once, and the same key texts as the entries written |
| Decisions.DictItemsOfDistinct | code/agent.py:625-627 | an object that repeats no key text is read entry for entry, in document order |
| Decisions.RepeatedKeyKeepsLastValue | code/agent.py:625-627 | `{"1": 15, "1": 3}` decodes to the single entry `"1": 3` |
| Decisions.RepeatedKeyAllocation | code/agent.py:625-671 | punishments `{"1": 15, "1": 3}` record 3 tokens for the first peer, not 15 and not both |
| Decisions.CleanKey | code/agent.py:635-640 | after stripping, a key enclosed in double quotes loses exactly that pair, a lone quote becomes "", and any other key is the stripped text |
| Decisions.Allocate | code/agent.py:655-671 | a loop that completes leaves a budget in [0, remaining] |
| Decisions.AllocateFailsOnlyOnNotWhole | code/agent.py:656-664 | a loop fails only if some entry whose key names a peer has a token value `int()` rejects |
| Decisions.AllocateFailsOnReachedNotWhole | code/agent.py:656-664 | a loop that passes every entry before a peer key with a rejected token value fails, whatever comes after it |
| Decisions.AllocateBreakIgnoresRest | code/agent.py:663-671 | once a loop reaches its `break`, appending any entries changes nothing |
| Decisions.AllocateEntry | code/agent.py:656-671 | one turn of the loop fails, stops, or goes on with the recorded dict and budget exactly as the recursive specification does on the remaining entries |
| Text.StripStartSuffix | code/agent.py:636 | stripping the front leaves a suffix that does not start with white space |
| Text.StripEndPrefix | code/agent.py:636 | stripping the back leaves a prefix that does not end with white space |
| Text.StripResult | code/agent.py:636 | `strip()` keeps one contiguous piece of the text, with no white space at either end |
| Text.StripTrimmed | code/agent.py:636 | text with no white space at either end is left unchanged by `strip()` |
| Text.UpperChar | code/agent.py:260 | upper-casing one character gives one to three characters, none of them a lower-case ASCII letter |
| Text.Upper | code/agent.py:260 | `upper()` never shortens the text and leaves no lower-case ASCII letter |
| Text.AllDigitsGroups | code/agent.py:659 | a run of plain digits is a well-formed digit sequence for `int()` |
| Text.NatToString | code/environment.py:169 | `str(n)` is non-empty and made of decimal digits |
| Text.DigitsValueOfNatToString | code/environment.py:169 | the digits of `str(n)` have the value n |
| Text.DigitsTrimmed | code/agent.py:636 | a run of digits has nothing to strip |
| Text.DigitsPaddedStrip | code/agent.py:636 | blanks around a run of digits are stripped off |
| Text.ParseIntDigits | code/agent.py:659 | `int()` reads a run of plain digits as its decimal value |
| Text.ParseIntNatToString | code/agent.py:659 | `int(str(n)) == n`: an alias printed by the prompt reads back as the same number |
| Text.IsSpace | code/agent.py:636 | no white-space character is a digit, a double quote, a sign or an underscore, so stripping never eats into a key's number or quotes |
| Text.Strip | code/agent.py:636 | the result is no longer than the text, has no white space at either end, and is the text itself when there was nothing to strip |
| Text.ParseInt | code/agent.py:659 | `int()` succeeds exactly on stripped text that is a well-formed digit sequence, with or without one leading sign; a negative result comes only from a leading '-' |
| Dicts.Keys | code/agent.py:667 | the keys of a dict, in insertion order |
| Dicts.DistinctKeysTail | code/institution.py:123-132 | after the first entry, the keys are still distinct, and none of them is the first key |
| Dicts.Get | code/institution.py:143-144 | a lookup succeeds exactly for the keys of the dict |
| Dicts.GetStored | code/institution.py:143-144 | a value a lookup returns is stored in the dict |
| Dicts.PutKeys | code/agent.py:667 | assigning `d[k] = v` keeps an existing key in its place and appends a new key at the end |
| Dicts.GetPut | code/agent.py:667 | after `d[k] = v`, k maps to v and every other key maps to what it did before |
| Dicts.PutDistinct | code/agent.py:667 | assignment keeps the keys distinct |
| Dicts.PutNonNegative | code/agent.py:665-667 | assigning a non-negative value keeps every value non-negative |
| Dicts.SumNonNegative | code/agent.py:889-892 | `sum(d.values())` of non-negative values is non-negative |
| Dicts.SumPut | code/agent.py:667-669 | `d[k] = v` replaces the old value of k in the sum, or adds v when k is new |
| Dicts.SumPutBound | code/agent.py:665-669 | with non-negative values, `d[k] = v` raises the sum by at most v |
| Agents.PublicGoodShare | code/agent.py:874-879 | the share times the group size is 1.6 times the total, and the share is 0 for an empty group |
| Agents.GroupStage1Shares | code/agent.py:864-881 | the stage-one payoffs of a group add up to the endowments, less the contributions, plus one pool share per member |
| Agents.GroupStage1Conserved | code/institution.py:56-73 | in a non-empty group the pool is shared out exactly: the stage-one payoffs add up to the endowments, less the contributions, plus 1.6 times the contributions |
| Agents.Stage1Payoff | code/agent.py:864-881 | in a non-empty group, the payoff times the group size is the endowment kept times the group size plus 1.6 times the group total; in an empty group it is the endowment kept |
| Agents.Stage2Payoff | code/agent.py:883-903 | with nothing assigned, the payoff is ENDOWMENT_STAGE_2 plus the rewards received less the punishments received |
| Agents.Stage2PayoffRange | code/agent.py:883-903 | for allocations the parser can produce (non-negative, within ENDOWMENT_STAGE_2 together), the payoff lies between the net effect received and that net effect plus ENDOWMENT_STAGE_2 |
| Agents.SanctionFreeExample | code/agent.py:864-881 | contributions 10 and 20 in a group of two give stage-one payoffs of 34 and 24, and round totals of 54 and 44 with the flat stage-two endowment |
| Agents.SanctioningExample | code/agent.py:883-903 | a punisher who assigns 5 tokens keeps 15 of the stage-two endowment; the target receives an effect of 15 and ends stage two with 5 |
| Agents.Latest | code/agent.py:826-829 | the window holds min(|log|, DISPLAY_PAST_ACTIONS) batches |
| Agents.WindowKeepsLatest | code/agent.py:821-830 | appending a batch and then dropping the oldest when there are more than DISPLAY_PAST_ACTIONS keeps exactly the newest DISPLAY_PAST_ACTIONS batches, oldest first |
| Agents.Agent.constructor | code/agent.py:50-98 | a new agent has no choice, INITIAL_TOKENS banked, strategy "LLM", and every round field, reasoning string, history and map empty or 0 |
| Agents.Agent.ChooseInstitution | code/agent.py:100-117 | the round number is updated first; the choice and its reasoning are those the reply parses to |
| Agents.Agent.DecideContribution | code/agent.py:272-282 | the contribution is the parsed, clamped amount, so it lies in [MIN, MAX]; the reasoning is the parsed reasoning |
| Agents.Agent.AssignPunishment | code/agent.py:439-457 | the alias table is rebuilt for the roster; the returned and stored maps are the parsed allocations, which together stay within ENDOWMENT_STAGE_2; both reasoning strings are the parsed ones |
| Agents.Agent.UpdatePayoff | code/agent.py:799-806 | `round_payoff` becomes the amount, and `cumulative_payoff` grows by exactly that amount |
| Agents.Agent.UpdateHistory | code/agent.py:808-814 | the history gains exactly the given entry at its end |
| Agents.Agent.ResetForNewRound | code/agent.py:816-846 | a staged batch, if any, is filed under the round number still held from the previous round, and the window stays within DISPLAY_PAST_ACTIONS; with no staged batch the window is unchanged; the staged slot becomes empty; contribution, received totals, assigned maps, round payoff, reasoning strings and alias table are cleared; cumulative payoff and history are kept |
| Agents.Agent.ClearRound | code/agent.py:832-846 | every round-scoped field is zeroed or emptied |
| Agents.Agent.FileStagedBatch | code/agent.py:820-830 | a staged batch is pushed into the window, dropping the oldest batch once the window is over DISPLAY_PAST_ACTIONS; with nothing staged nothing changes; afterwards nothing is staged |
| Agents.Agent.ReceivePunishment | code/agent.py:848-854 | `received_punishments` grows by exactly the amount |
| Agents.Agent.ReceiveReward | code/agent.py:856-862 | `received_rewards` grows by exactly the amount |
| Agents.Agent.Stage2 | code/agent.py:883-903 | the same bounds on the agent's own assigned maps and received totals |
| Agents.Agent.RecordedStage2 | code/environment.py:138-143 | an SI member's recorded stage-two payoff is `get_stage2_payoff`; any other agent's is ENDOWMENT_STAGE_2 |
| Agents.Agent.Snapshot | code/environment.py:152-170 | the record entry copies the agent's choice, contribution, received totals, assigned maps and cumulative payoff, shows the given stage-one payoff and rank, the recorded stage-two payoff, and their sum as the payoff |
| Institutions.Ids | code/environment.py:112-113 | the member ids, one per member, in membership order |
| Institutions.Peers | code/institution.py:161-172 | an SI member's group state names every member except itself, matched by id: the same multiset of ids with the requester's removed |
| Institutions.RecordCell | code/institution.py:122-132 | recording one member's map sets exactly that member's cells, to what it assigned, and leaves every other cell as it was |
| Institutions.RecordAllStep | code/institution.py:118-132 | each member's turn extends the matrix by recording that member's map |
| Institutions.RecordAllOtherSource | code/institution.py:118-132 | a source that took no turn has its cells unchanged |
| Institutions.RecordAllCell | code/institution.py:113-132 | after the decide phase, starting from an empty matrix, cell [target][source] holds exactly what that source assigned to that target |
| Institutions.RecordRowSum | code/institution.py:122-144 | recording a source's map changes the target's row total from the source's old cell value to its new one |
| Institutions.RecordAllRowSum | code/institution.py:113-152 | the row total the apply phase charges is the sum of what every source assigned to the target in the decide phase |
| Institutions.DistinctMembers | code/institution.py:140-155 | members with distinct ids are distinct objects, so updating one member leaves the others alone |
| Institutions.SharesOfMembers | code/institution.py:56-73 | `stage1_payoffs` holds exactly one entry per member id, the stage-one payoff of that member's own contribution |
| Institutions.Institution.constructor | code/institution.py:15-22 | a new institution of either kind is empty, with round 0 and empty payoff dicts and matrices |
| Institutions.Institution.AddMember | code/institution.py:24-28 | the agent is appended to the member list |
| Institutions.Institution.ResetInstitution | code/institution.py:30-40 | members, total, group size, the payoff dict and the anonymised contributions are emptied, and the round number is set; both matrices are emptied too, as SI's override at lines 108-111 does |
| Institutions.Institution.AverageContribution | code/institution.py:95-99 | the average times the group size is the total, and the average is 0.0 for an empty group |
| Institutions.Institution.GroupStateFor | code/institution.py:161-172 | the group state copies the anonymised contributions, group size and round number; its members are all members in SFI, and in SI exactly the members whose id differs from the requester's |
| Institutions.Institution.Stage1Of | code/environment.py:85 | `stage1_payoffs.get(id, 0)`: the stored payoff for an id in the dict, 0 otherwise |
| Institutions.Institution.CollectContributions | code/institution.py:42-54 | the group size is the member count; every member's contribution is the one its own reply decides; the anonymised list holds these contributions in membership order; the total is their sum and lies in [0, size·MAX_CONTRIBUTION] |
| Institutions.Institution.CollectFrom | code/institution.py:50-53 | member i decides from its reply, and the total and the anonymised list are extended by its contribution |
| Institutions.Institution.DistributePublicGoods | code/institution.py:56-73 | every member's id is set to its stage-one payoff, computed from the final total and group size; every other entry is as before |
| Institutions.Institution.RecordAllocations | code/institution.py:122-132 | the inner loops enter one member's map into a matrix under its id |
| Institutions.Institution.DecideTurn | code/institution.py:118-132 | one SI member decides on the peers its group state names, and both of its maps are entered under its id |
| Institutions.Institution.RecordedAll | code/institution.py:118-132 | once every member has taken its turn, both matrices hold what all members decided |
| Institutions.Institution.DecideNext | code/institution.py:118-132 | member i takes its turn, and members 0..i-1 keep what they decided |
| Institutions.Institution.DecideAll | code/institution.py:113-134 | each SI member, in membership order, decides from its reply on its peers; both matrices are the fold of all members' maps |
| Institutions.Institution.HandlePunishmentsAndRewards | code/institution.py:113-134 | in SI the matrices are the fold of every member's decision; in SFI the matrices and assigned maps are untouched; in neither case does any member's received total change |
| Institutions.Institution.ApplyPunishmentsAndRewards | code/institution.py:136-159 | in SI each member's received punishments grow by PUNISHMENT_EFFECT times its punishment-row total, and its received rewards by REWARD_EFFECT times its reward-row total; in SFI nothing changes (lines 185-189) |
| Environments.EnrolledMembers | code/environment.py:52-57 | an institution gains exactly the agents whose reply chose it |
| Environments.EnrolledWithin | code/environment.py:45-58 | every member an institution gains is one of the agents |
| Environments.EnrolmentCovers | code/environment.py:45-58 | the two member lists together hold every agent exactly once (as multisets) |
| Environments.JoinOne | code/environment.py:52-57 | one more agent joining one of two lists that split the population splits the grown population |
| Environments.EnrolmentDisjoint | code/environment.py:52-57 | no agent id is in both SI and SFI |
| Environments.EnrolledDistinct | code/environment.py:45-58 | each member list keeps the population's ids distinct |
| Environments.AverageRoundPayoff | code/environment.py:184-193 | the average round payoff times the member count is the members' total round payoff, and the average is 0 when there are no members |
| Environments.PeerViewOfStranger | code/environment.py:200-218 | for an id absent from the record, the view anonymises every entry in order |
| Environments.PeerViewSkipsOwn | code/environment.py:200-218 | agent k's view has N-1 entries: everyone before k, then everyone after k, in population order, with none of its own |
| Environments.PeerView | code/environment.py:200-218 | a view never has more entries than the record |
| Environments.PeerViewOthersOnly | code/environment.py:200-218 | every entry of an agent's view is the anonymised entry of a record entry under another id |
| Environments.AnonymousBatch | code/environment.py:201-218 | the inner loop builds exactly the peer view: the seven shareable fields of every other agent's entry |
| Environments.CumulativePayoffs | code/environment.py:122-124 | one cumulative payoff per agent, in population order |
| Environments.Histories | code/environment.py:196-197 | one feedback history per agent, in population order |
| Records.Anonymize | code/environment.py:207-215 | the anonymised entry carries the choice, contribution, received totals, both stage payoffs and the round payoff of the record entry |
| Records.AnonymizeHidesAllocations | code/environment.py:207-217 | entries that agree on those seven fields look the same to peers, whatever their assigned maps, reasoning, cumulative payoff or rank |
| Environments.Environment.constructor | code/environment.py:17-25 | a new environment has round 0, no records, and two fresh, empty institutions, one of each kind |
| Environments.Environment.Enrol | code/environment.py:45-58 | the agent is reset, takes the choice its reply makes, and is appended to SI if it chose SI and to SFI otherwise |
| Environments.Environment.EnrolNext | code/environment.py:45-58 | agent i enrols, and agents 0..i-1 stay enrolled and ready |
| Environments.Environment.EnrolAgents | code/environment.py:44-58 | after the loop, the member lists are the enrolment the replies make, and every agent is reset for the round and holds its chosen institution |
| Environments.Environment.PaySanctioning | code/environment.py:84-92 | each SI member's round payoff is its stage-one payoff plus `get_stage2_payoff`, and its cumulative payoff grows by that amount |
| Environments.Environment.PaySanctionFree | code/environment.py:95-103 | each SFI member's round payoff is its stage-one payoff plus ENDOWMENT_STAGE_2, and its cumulative payoff grows by that amount |
| Environments.Environment.CalculatePayoffs | code/environment.py:78-103 | both loops: SI members earn stage one plus `get_stage2_payoff`, SFI members stage one plus the flat endowment; each amount becomes the round payoff and is banked |
| Environments.Environment.PayAll | code/environment.py:78-103 | once every agent is enrolled, every agent's round payoff is its stage-one plus stage-two payoff, and its cumulative payoff grows by exactly that amount |
| Environments.Environment.EntriesAt | code/environment.py:136-173 | record entry k is agent k's id with its snapshot, stage-one payoff and rank text |
| Environments.Environment.RoundRecord | code/environment.py:110-119 | the record carries the round number, the member ids of each institution in membership order, and both totals |
| Environments.Environment.RecordAverages | code/environment.py:116-117 | each average shown times its group size is the institution's total |
| Environments.Environment.FeedbackFor | code/environment.py:182-194 | the feedback carries the record entry, the round number, both payoff averages, and the average contribution of the agent's own institution |
| Environments.Environment.RoundAverages | code/environment.py:184-193 | each institution's average round payoff times its member count is its members' total round payoff |
| Environments.Environment.RecordEntries | code/environment.py:136-173 | the record has one entry per agent in population order; entry k is keyed by agent k's id, its `payoff` is stage one plus stage two, and its rank is "<rank> out of N" |
| Environments.Environment.RecordAgents | code/environment.py:136-197 | the first loop yields the record's entries, and each agent's history gains exactly its feedback entry: its record entry, the round number, both institution averages and its institution's average contribution |
| Environments.Environment.StageBatches | code/environment.py:199-220 | every agent's staged batch is its anonymised view of the record |
| Environments.Environment.AppendRecord | code/environment.py:222-226 | the round record is made of the round number, both member lists, both totals and averages, and the entries, and is appended to both `history` and `results` |
| Environments.Environment.RecordAndStage | code/environment.py:121-220 | the ranks are computed, then every agent is fed back its entry, then every agent's batch is staged |
| Environments.Environment.RecordRoundHistory | code/environment.py:105-226 | the record appended to `history` and `results` is this round's record; every agent gains one feedback entry carrying its entry, and stages its peer view |
| Environments.Environment.ResetInstitutions | code/environment.py:40-42 | both institutions start the round empty and numbered for it, and SI's matrices are empty |
| Environments.Environment.OpenRound | code/environment.py:40-58 | after the reset and the enrolment loop, the member lists are the replies' enrolment, every agent holds its choice, and no cumulative payoff has changed |
| Environments.Environment.CollectAll | code/environment.py:60-62 | in both institutions the total is the sum of the collected contributions, and the group size is the member count |
| Environments.Environment.Contribute | code/environment.py:60-66 | after contributions and the public good, both institutions' totals are the sums of their members' contributions |
| Environments.Environment.DecideSanctions | code/environment.py:68-69 | SI's matrices are the fold of every SI member's decision |
| Environments.Environment.ApplySanctions | code/environment.py:70 | every SI member's received totals grow by the effects of its matrix rows |
| Environments.Environment.Sanction | code/environment.py:68-70 | SI decides first and then applies; the matrices hold every SI member's decision |
| Environments.Environment.SanctionAndPay | code/environment.py:68-73 | after SI's sanctions and the payoffs, every agent is paid stage one plus stage two and has banked that amount |
| Environments.Environment.PlayInstitutions | code/environment.py:60-73 | after contributions, the public good, SI's sanctions and the payoffs, every agent is paid and has banked exactly its round payoff |
| Environments.Environment.PlayStages | code/environment.py:40-73 | the stages before the record, in order: the member lists are the round's enrolment, and every agent is paid and has banked its round payoff |
| Environments.Environment.RecordShape | code/environment.py:136-220 | once every agent is paid, the record to be appended is of this round, lists both memberships, shows each agent's round payoff, and gives every agent a view of N-1 entries |
| Environments.Environment.AppendRound | code/environment.py:105-226 | one record of this round is appended to both `history` and `results`, every agent stages its view of N-1 entries, and every agent's history gains one entry of this round carrying its record entry |
| Environments.Environment.CloseRound | code/environment.py:76 | the record of a paid round is appended, and every agent is fed back its entry and stages its view; the enrolment and every banked payoff are left as they were |
| Environments.Environment.RunRound | code/environment.py:36-76 | every agent is in the institution its reply for this round chose, and the member lists are that enrolment; every agent is paid stage one plus stage two and its cumulative payoff grew by exactly that round payoff; `history` and `results` gain the same one record of this round, whose entries follow the population and show each agent's round payoff; every agent has banked that payoff, gained one feedback entry carrying its record entry, and staged a view of its N-1 peers |
| Environments.Environment.Grown | code/environment.py:36-76 | a round grows `history`, `results` and every agent's history by one entry of this round |
| Environments.Environment.PlayRound | code/environment.py:31-34 | one turn of the round loop sets the round number, enrols every agent as that round's replies choose, pays and banks every agent's round payoff, and appends one record with that number |
| Environments.Environment.RunSimulation | code/environment.py:27-34 | rounds 1..NUM_ROUNDS are played in order: `history` and `results` gain NUM_ROUNDS records, numbered 1 to NUM_ROUNDS, and every agent gains NUM_ROUNDS feedback entries |
| Ranking.BeforeAsymmetric | code/environment.py:126-128 | no two agents are each ranked above the other |
| Ranking.Insert | code/environment.py:126-128 | inserting an index adds exactly that index to the ranked list |
| Ranking.RankedCons | code/environment.py:126-128 | a ranked list stays ranked behind an index ranked above all of its members |
| Ranking.InsertRanked | code/environment.py:126-128 | insertion keeps the list in ranking order: higher payoff first, equal payoffs in population order |
| Ranking.Order | code/environment.py:126-128 | the sorted order has one index per agent |
| Ranking.OrderRanked | code/environment.py:126-128 | the sorted order lists each agent index exactly once, in ranking order |
| Ranking.IndexOf | code/environment.py:129-131 | the position found holds the index looked for, and every present index is found |
| Ranking.Ranks | code/environment.py:129-131 | one rank per agent |
| Ranking.RanksInRange | code/environment.py:121-133 | every rank lies in 1..N |
| Ranking.RanksDistinct | code/environment.py:121-133 | no two agents share a rank, so the ranks are a permutation of 1..N |
| Ranking.RanksFollowPayoffs | code/environment.py:121-133 | an agent with a higher cumulative payoff, or an equal payoff and an earlier place in the population, gets the smaller rank |
| Ranking.TopRanked | code/environment.py:121-133 | the agent with the best payoff, earliest among equals, is ranked 1 |
| Ranking.RankTextReadsBack | code/environment.py:169 | the rank text is the rank's digits, then " out of ", then the total's digits, and `int()` reads each number back |

## Left out

- The language-model clients, the prompt text (`construct_*_prompt` apart from the alias table, `get_past_actions_string`) and `deanonymize_reasoning` are not modelled. Each reply, including the de-anonymised reasoning, is an input.
- `json.loads` and the locating of the JSON object are not modelled, apart from how a repeated key is folded (`Decisions.DictItems`). Their outcome is part of the decoded reply, which is either the failure value or the record.
- File I/O, printing, `VERBOSE` logging and `random.seed` are not modelled. The debug dump in `assign_punishment` and `save_results_to_filename` are among them.
- `code/main.py` is not part of this model. It creates agents with ids 0..N-1 and changes `parameters` at run time. Here the parameters are constants.
- Floating point is not modelled. Payoffs, the 1.6 multiplier and the averages are exact reals, so rounding in the Python floats does not show up.
- `current_group` is never read by the core, so it is not modelled.
- `get_stage2_payoff` is also called in `apply_punishments_and_rewards`, but that result is discarded, so the call is not modelled.
- The group state handed to `decide_contribution` is not read by the contribution prompt, so contributions depend only on the reply.
- Text.Upper: models `str.upper` only for ASCII letters and for the characters whose upper-case form is made only of the letters S, F and I. Every other character is kept as it is, which cannot change whether the result equals "SI" or "SFI".
- Text.ParseInt: Python's `int()` also accepts non-ASCII Unicode decimal digits. The model rejects them.
- Text.IsSpace: the white-space set of `str.isspace` is written out as a fixed list of characters.
- Environments.Environment.constructor: requires that the agents' ids are distinct, which the Python constructor does not check. Every record is keyed by agent id, and `code/main.py` numbers agents 0..N-1.
- Institutions.Institution.HandlePunishmentsAndRewards: requires distinct member ids, for the same reason.
- Institutions.Institution.ApplyPunishmentsAndRewards: requires distinct member ids, for the same reason.
- Environments.Environment.RecordAgents: computes `avg_payoff_SI` and `avg_payoff_SFI` once per round instead of once per agent. Nothing changes the round payoffs inside that loop, so the values are the same.
- Environments.Environment.RecordRoundHistory: returns the record it appends, which the Python method does not. The return value serves only the contracts.
- Environments.Environment.OpenRound: does not restate the institutions' round numbers, the emptied matrices or each agent's cleared fields. Those are stated by ResetInstitutions and Enrol.
- Environments.Environment.CollectAll: states only the totals and group sizes. Each member's contribution is stated by Institutions.Institution.CollectContributions.
- Environments.Environment.Contribute: states only the totals and group sizes. The stage-one payoffs are stated by Institutions.Institution.DistributePublicGoods.
- Environments.Environment.Sanction: states the matrices only. The received totals are stated by ApplySanctions.
- Environments.Environment.PlayInstitutions: states the payoffs only. The stage methods it calls state the rest.
- Environments.Environment.PlayStages: states the enrolment and the payoffs only.
- Environments.Environment.RunRound: states the enrolment, the payoffs, and what the round leaves in the records, the histories and the staged views. Contributions and matrices are stated by the stage methods.
- Environments.Environment.PlayRound: states the enrolment, the payoffs and the growth of the records and histories. What the record holds is stated by RunRound.
- Environments.Environment.RunSimulation: states the number, order and round numbers of the records and the growth of every history. What each record holds is stated per round by RunRound.
- Decisions.Allocate: its own contract states only the budget bound. What it records is stated by AllocateBounds, and when it fails by AllocateFailsOnlyOnNotWhole.
- Agents.Stage2Payoff: its own contract states only the case with nothing assigned. The general bounds are stated by Stage2PayoffRange.
- Environments.Environment.RoundRecord: its own contract states the header fields. The averages are stated by RecordAverages and the entries by RecordEntries.
- Environments.PeerView: its own contract states only the length bound. The contents are stated by PeerViewOthersOnly, PeerViewSkipsOwn and PeerViewOfStranger.
