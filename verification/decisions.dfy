/**
 * The three reply parsers of an agent (code/agent.py): institution choice,
 * contribution, and punishment/reward allocation. The oracle's reply comes
 * in already decoded: either the failure value (the JSON could not be
 * located or read, or a field had a type the parser chokes on) or a record
 * whose missing keys have been filled with the source's defaults.
 */
module Decisions {
  import opened Wrappers
  import opened Params
  import opened Text
  import opened Dicts

  datatype Kind = SI | SFI

  /** Decoded reply to the institution prompt; `None` when the key is absent. */
  datatype ChoiceReply =
    | ChoiceMalformed
    | ChoiceJson(institutionChoice: Option<string>, reasoning: string)

  datatype ChoiceDecision = ChoiceDecision(choice: Kind, reasoning: string)

  /** `parse_institution_choice_response`: anything but a case-insensitive "SI" means SFI. */
  function ParseInstitutionChoice(reply: ChoiceReply): (d: ChoiceDecision)
    ensures d.choice == SI <==> reply.ChoiceJson? && Upper(reply.institutionChoice.GetOr("")) == "SI"
    ensures d.reasoning == if reply.ChoiceJson? then reply.reasoning else ""
  {
    match reply
    case ChoiceMalformed => ChoiceDecision(SFI, "")
    case ChoiceJson(choice, reasoning) =>
      var u := Upper(choice.GetOr(""));
      if u == "SI" then ChoiceDecision(SI, reasoning) else ChoiceDecision(SFI, reasoning)
  }

  /** Lower case, and the Unicode letters that upper-case to S and I, still select SI. */
  lemma ChoiceIsCaseInsensitive(r: string)
    ensures ParseInstitutionChoice(ChoiceJson(Some("si"), r)) == ChoiceDecision(SI, r)
    ensures ParseInstitutionChoice(ChoiceJson(Some("\U{17F}\U{131}"), r)) == ChoiceDecision(SI, r)
    ensures ParseInstitutionChoice(ChoiceJson(Some("s\U{FB01}"), r)) == ChoiceDecision(SFI, r)
    ensures ParseInstitutionChoice(ChoiceJson(None, r)) == ChoiceDecision(SFI, r)
  {
    assert Upper("si") == "SI";
    assert Upper("\U{17F}\U{131}") == "SI";
  }

  /** Decoded reply to the contribution prompt; `None` when the key is absent. */
  datatype ContributionReply =
    | ContributionMalformed
    | ContributionJson(contribution: Option<int>, reasoning: string)

  datatype ContributionDecision = ContributionDecision(amount: int, reasoning: string)

  /** The fallback contribution, `ENDOWMENT_STAGE_1 // 2`. */
  const DefaultContribution: int := EndowmentStage1 / 2

  /** `parse_contribution_response`: the requested amount clamped into the allowed range. */
  function ParseContribution(reply: ContributionReply): (d: ContributionDecision)
    ensures MinContribution <= d.amount <= MaxContribution
    ensures reply.ContributionMalformed? ==> d == ContributionDecision(DefaultContribution, "")
    ensures reply.ContributionJson? ==> d.reasoning == reply.reasoning
    ensures reply.ContributionJson? ==>
      var v := reply.contribution.GetOr(DefaultContribution);
      && (MinContribution <= v <= MaxContribution ==> d.amount == v)
      && (v < MinContribution ==> d.amount == MinContribution)
      && (v > MaxContribution ==> d.amount == MaxContribution)
  {
    match reply
    case ContributionMalformed => ContributionDecision(DefaultContribution, "")
    case ContributionJson(amount, reasoning) =>
      var v := amount.GetOr(DefaultContribution);
      var clamped := Max(MinContribution, Min(v, MaxContribution));
      ContributionDecision(clamped, reasoning)
  }

  function Max(a: int, b: int): int { if a >= b then a else b }
  function Min(a: int, b: int): int { if a <= b then a else b }

  /** A token value as found in the JSON: one `int()` accepts, or one it rejects. */
  datatype TokenValue = Whole(n: int) | NotWhole

  /** Pairs of alias text and token value, in document order. */
  type Entries = seq<(string, TokenValue)>

  /** The key texts of a list of entries. */
  function Texts(es: Entries): set<string> {
    set i | 0 <= i < |es| :: es[i].0
  }

  /** No key text occurs twice, as in every Python dict. */
  predicate DistinctTexts(es: Entries) {
    forall i, j :: 0 <= i < j < |es| ==> es[i].0 != es[j].0
  }

  /** What `dict.items()` yields for a decoded JSON object: its entries in order, each key text once. */
  type Items = es: Entries | DistinctTexts(es) witness []

  /** Storing a key text in a dict being built: an existing key keeps its place and takes the new value; a new key is appended. */
  function PutText(es: Entries, key: string, v: TokenValue): Entries {
    if es == [] then [(key, v)]
    else if es[0].0 == key then [(key, v)] + es[1..]
    else [es[0]] + PutText(es[1..], key, v)
  }

  lemma TextsOne(e: (string, TokenValue))
    ensures Texts([e]) == {e.0} && Texts([]) == {}
  {
    forall t | t in Texts([e]) ensures t == e.0 {
      var i :| 0 <= i < 1 && [e][i].0 == t;
    }
    assert [e][0] == e && e.0 in Texts([e]);
  }

  lemma TextsAppend(a: Entries, b: Entries)
    ensures Texts(a + b) == Texts(a) + Texts(b)
  {
    forall t | t in Texts(a + b) ensures t in Texts(a) + Texts(b) {
      var i :| 0 <= i < |a + b| && (a + b)[i].0 == t;
      if i < |a| {
        assert (a + b)[i] == a[i];
      } else {
        assert (a + b)[i] == b[i - |a|];
      }
    }
    forall t | t in Texts(a) + Texts(b) ensures t in Texts(a + b) {
      if t in Texts(a) {
        var i :| 0 <= i < |a| && a[i].0 == t;
        assert (a + b)[i] == a[i];
      } else {
        var i :| 0 <= i < |b| && b[i].0 == t;
        assert (a + b)[|a| + i] == b[i];
      }
    }
  }

  lemma TextsCons(e: (string, TokenValue), tail: Entries)
    ensures Texts([e] + tail) == {e.0} + Texts(tail)
  {
    TextsAppend([e], tail);
    TextsOne(e);
  }

  lemma {:induction false} PutTextTexts(es: Entries, key: string, v: TokenValue)
    ensures Texts(PutText(es, key, v)) == Texts(es) + {key}
    ensures key !in Texts(es) ==> PutText(es, key, v) == es + [(key, v)]
  {
    if es == [] {
      TextsOne((key, v));
    } else {
      assert es == [es[0]] + es[1..];
      TextsCons(es[0], es[1..]);
      if es[0].0 == key {
        TextsCons((key, v), es[1..]);
      } else {
        var tail := PutText(es[1..], key, v);
        PutTextTexts(es[1..], key, v);
        TextsCons(es[0], tail);
        if key !in Texts(es) {
          assert [es[0]] + (es[1..] + [(key, v)]) == es + [(key, v)];
        }
      }
    }
  }

  /** In a list without repeated key texts, the head's key text does not recur in the tail. */
  lemma HeadNotInTail(es: Entries)
    requires es != [] && DistinctTexts(es)
    ensures DistinctTexts(es[1..]) && es[0].0 !in Texts(es[1..])
  {
    forall i | 0 <= i < |es[1..]| ensures es[1..][i].0 != es[0].0 {
      assert es[1..][i] == es[i + 1];
    }
  }

  /** Putting an entry whose key text is new in front of a list without repeats makes none. */
  lemma ConsDistinct(e: (string, TokenValue), tail: Entries)
    requires DistinctTexts(tail) && e.0 !in Texts(tail)
    ensures DistinctTexts([e] + tail)
  {
    var r := [e] + tail;
    forall i, j | 0 <= i < j < |r| ensures r[i].0 != r[j].0 {
      assert r[j] == tail[j - 1];
      if i > 0 {
        assert r[i] == tail[i - 1];
      }
    }
  }

  lemma {:induction false} PutTextDistinct(es: Entries, key: string, v: TokenValue)
    requires DistinctTexts(es)
    ensures DistinctTexts(PutText(es, key, v))
  {
    if es != [] {
      HeadNotInTail(es);
      if es[0].0 == key {
        ConsDistinct((key, v), es[1..]);
      } else {
        PutTextDistinct(es[1..], key, v);
        PutTextTexts(es[1..], key, v);
        ConsDistinct(es[0], PutText(es[1..], key, v));
      }
    }
  }

  /**
   * `json.loads` on an object whose entries, in document order, are `raw`:
   * a key text seen again keeps its first position and takes the last value.
   */
  function DictItems(raw: Entries): (es: Items)
    ensures Texts(es) == Texts(raw)
  {
    if raw == [] then []
    else
      var n := |raw| - 1;
      var prefix := DictItems(raw[..n]);
      PutTextDistinct(prefix, raw[n].0, raw[n].1);
      PutTextTexts(prefix, raw[n].0, raw[n].1);
      assert raw == raw[..n] + [raw[n]];
      TextsAppend(raw[..n], [raw[n]]);
      TextsOne(raw[n]);
      PutText(prefix, raw[n].0, raw[n].1)
  }

  /** An object that repeats no key text is read entry for entry. */
  lemma {:induction false} DictItemsOfDistinct(raw: Entries)
    requires DistinctTexts(raw)
    ensures DictItems(raw) == raw
  {
    if raw != [] {
      var n := |raw| - 1;
      assert DistinctTexts(raw[..n]);
      DictItemsOfDistinct(raw[..n]);
      assert raw[n].0 !in Texts(raw[..n]);
      PutTextTexts(raw[..n], raw[n].0, raw[n].1);
      assert raw == raw[..n] + [raw[n]];
    }
  }

  /** `{"1": 15, "1": 3}` decodes to the single entry `"1": 3`. */
  lemma RepeatedKeyKeepsLastValue()
    ensures DictItems([("1", Whole(15)), ("1", Whole(3))]) == [("1", Whole(3))]
  {
    var raw: Entries := [("1", Whole(15)), ("1", Whole(3))];
    assert raw[..1] == [("1", Whole(15))];
    assert [("1", Whole(15))][..0] == [];
  }

  /** Decoded reply to the allocation prompt; absent maps are empty, absent reasoning is "". */
  datatype AllocationReply =
    | AllocationMalformed
    | AllocationJson(reasoning: string, punishments: Items, rewards: Items, deanonymizedReasoning: string)

  datatype AllocationDecision =
    AllocationDecision(punishments: Dict, rewards: Dict, reasoning: string, deanonymizedReasoning: string)

  const NoAllocations := AllocationDecision([], [], "", "")

  /**
   * The alias table of the allocation prompt (code/agent.py:485-493):
   * the peer at position i of the roster is shown as "Agent i+1".
   */
  function AliasMapping(roster: seq<int>): (m: map<int, int>)
    ensures forall k :: k in m <==> 1 <= k <= |roster|
    ensures forall k :: 1 <= k <= |roster| ==> m[k] == roster[k - 1]
  {
    map k | 1 <= k <= |roster| && IsAlias(k, |roster|) :: roster[k - 1]
  }

  /**
   * The aliases 1..n of a roster of n peers. The comprehension above needs
   * the explicit bounds to be finite and this predicate as its trigger.
   */
  predicate IsAlias(k: int, n: int) {
    1 <= k <= n
  }

  /** `clean_agent_key`: strip white space, then one pair of enclosing double quotes. */
  function CleanKey(key: string): (r: string)
    ensures var k := Strip(key);
      && (|k| >= 2 && k[0] == '"' && k[|k| - 1] == '"' ==> k == "\"" + r + "\"")
      && (k == "\"" ==> r == "")
      && (k == [] || k[0] != '"' || k[|k| - 1] != '"' ==> r == k)
  {
    var k := Strip(key);
    if |k| >= 1 && k[0] == '"' && k[|k| - 1] == '"' then
      if |k| >= 2 then k[1..|k| - 1] else ""
    else k
  }

  /** The agent id an alias key names, if it is an integer in 1..|roster| once cleaned. */
  function ResolveAlias(key: string, roster: seq<int>): (r: Option<int>)
    ensures r.Some? ==> r.value in roster
  {
    match ParseInt(CleanKey(key))
    case Some(n) => if 1 <= n <= |roster| then Some(roster[n - 1]) else None
    case None => None
  }

  /** The parser reads the keys exactly as the prompt's alias table assigns them. */
  lemma ResolveAliasAgreesWithMapping(key: string, roster: seq<int>)
    ensures ResolveAlias(key, roster) ==
      match ParseInt(CleanKey(key))
      case Some(n) => if n in AliasMapping(roster) then Some(AliasMapping(roster)[n]) else None
      case None => None
  {
  }

  /** The alias exactly as the prompt prints it names the k-th peer of the roster. */
  lemma AliasKeyResolves(k: nat, roster: seq<int>)
    requires 1 <= k <= |roster|
    ensures ResolveAlias(NatToString(k), roster) == Some(roster[k - 1])
  {
    var s := NatToString(k);
    ParseIntNatToString(k);
    DigitsTrimmed(s);
    assert CleanKey(s) == s;
  }

  /** A quoted alias, "\"k\"", names the same peer. */
  lemma QuotedAliasKeyResolves(k: nat, roster: seq<int>)
    requires 1 <= k <= |roster|
    ensures ResolveAlias("\"" + NatToString(k) + "\"", roster) == Some(roster[k - 1])
  {
    var s := NatToString(k);
    ParseIntNatToString(k);
    var q := "\"" + s + "\"";
    StripTrimmed(q);
    assert q[1..|q| - 1] == s;
    assert CleanKey(q) == s;
  }

  /** So does an alias padded with blanks, " k ". */
  lemma PaddedAliasKeyResolves(k: nat, roster: seq<int>)
    requires 1 <= k <= |roster|
    ensures ResolveAlias(" " + NatToString(k) + " ", roster) == Some(roster[k - 1])
  {
    var s := NatToString(k);
    ParseIntNatToString(k);
    DigitsPaddedStrip(s);
    assert s[0] != '"';
    assert CleanKey(" " + s + " ") == s;
  }

  /** An entry of a reply's dict once its key is resolved: the peer it names, if any, and its token value. */
  type Resolved = seq<(Option<int>, TokenValue)>

  /** Every key of a reply's dict, resolved against the roster. */
  function ResolveEntries(entries: Entries, roster: seq<int>): (rs: Resolved)
    ensures |rs| == |entries|
    ensures forall j :: 0 <= j < |rs| && rs[j].0.Some? ==> rs[j].0.value in roster
  {
    seq(|entries|, j requires 0 <= j < |entries| => (ResolveAlias(entries[j].0, roster), entries[j].1))
  }

  /**
   * One of the two allocation loops of `parse_punishment_response`, from
   * the given dict and remaining budget: each resolvable entry is clamped to
   * [0, remaining], recorded under the peer's agent id and charged to the
   * budget; the loop stops once the budget is used up. `None` stands for the
   * exception `int()` raises on a token value.
   */
  function Allocate(rs: Resolved, d: Dict, remaining: int): (r: Option<(Dict, int)>)
    requires remaining >= 0
    ensures r.Some? ==> 0 <= r.value.1 <= remaining
    decreases |rs|
  {
    if rs == [] then Some((d, remaining))
    else
      match rs[0].0
      case None => Allocate(rs[1..], d, remaining)
      case Some(id) =>
        match rs[0].1
        case NotWhole => None
        case Whole(n) =>
          var t := Max(0, Min(n, remaining));
          var d' := Put(d, id, t);
          if remaining - t <= 0 then Some((d', remaining - t))
          else Allocate(rs[1..], d', remaining - t)
  }

  /**
   * What one allocation loop guarantees: recorded counts are non-negative,
   * they and the budget left never exceed what there was, the budget left
   * stays within [0, remaining], and only roster ids become keys.
   */
  lemma {:induction false} AllocateBounds(rs: Resolved, roster: seq<int>, d: Dict, remaining: int)
    requires remaining >= 0
    requires NonNegative(d) && DistinctKeys(d)
    requires forall j :: 0 <= j < |rs| && rs[j].0.Some? ==> rs[j].0.value in roster
    ensures var r := Allocate(rs, d, remaining);
      r.Some? ==>
        && 0 <= r.value.1 <= remaining
        && NonNegative(r.value.0) && DistinctKeys(r.value.0)
        && Sum(r.value.0) + r.value.1 <= Sum(d) + remaining
        && forall k :: k in Keys(r.value.0) ==> k in Keys(d) || k in roster
    decreases |rs|
  {
    if rs != [] {
      assert forall j :: 0 <= j < |rs[1..]| ==> rs[1..][j] == rs[j + 1];
      match rs[0].0
      case None =>
        AllocateBounds(rs[1..], roster, d, remaining);
      case Some(id) =>
        match rs[0].1
        case NotWhole =>
        case Whole(n) =>
          var t := Max(0, Min(n, remaining));
          SumPutBound(d, id, t);
          PutKeys(d, id, t);
          PutDistinct(d, id, t);
          PutNonNegative(d, id, t);
          if remaining - t > 0 {
            AllocateBounds(rs[1..], roster, Put(d, id, t), remaining - t);
          }
    }
  }

  /** A loop fails only on a token value `int()` rejects, under a key that names a peer. */
  lemma {:induction false} AllocateFailsOnlyOnNotWhole(rs: Resolved, d: Dict, remaining: int)
    requires remaining >= 0
    ensures Allocate(rs, d, remaining).None? ==> exists j :: 0 <= j < |rs| && rs[j].0.Some? && rs[j].1.NotWhole?
    decreases |rs|
  {
    if rs != [] && Allocate(rs, d, remaining).None? && !(rs[0].0.Some? && rs[0].1.NotWhole?) {
      if rs[0].0.None? {
        AllocateFailsOnlyOnNotWhole(rs[1..], d, remaining);
      } else {
        var t := Max(0, Min(rs[0].1.n, remaining));
        AllocateFailsOnlyOnNotWhole(rs[1..], Put(d, rs[0].0.value, t), remaining - t);
      }
      var j :| 0 <= j < |rs[1..]| && rs[1..][j].0.Some? && rs[1..][j].1.NotWhole?;
      assert rs[j + 1] == rs[1..][j];
    }
  }

  /**
   * The loop goes through every entry of `rs`, from `d` and `remaining`,
   * without an exception and without reaching its `break`, so it goes on to
   * whatever entry follows.
   */
  predicate Passes(rs: Resolved, d: Dict, remaining: int)
    requires remaining >= 0
    decreases |rs|
  {
    if rs == [] then true
    else
      match rs[0].0
      case None => Passes(rs[1..], d, remaining)
      case Some(id) =>
        match rs[0].1
        case NotWhole => false
        case Whole(n) =>
          var t := Max(0, Min(n, remaining));
          remaining - t > 0 && Passes(rs[1..], Put(d, id, t), remaining - t)
  }

  /** The loop reaches its `break` on one of the entries of `rs`, before any exception. */
  predicate Breaks(rs: Resolved, d: Dict, remaining: int)
    requires remaining >= 0
    decreases |rs|
  {
    if rs == [] then false
    else
      match rs[0].0
      case None => Breaks(rs[1..], d, remaining)
      case Some(id) =>
        match rs[0].1
        case NotWhole => false
        case Whole(n) =>
          var t := Max(0, Min(n, remaining));
          remaining - t <= 0 || Breaks(rs[1..], Put(d, id, t), remaining - t)
  }

  /**
   * A token value `int()` rejects, under a key that names a peer, makes the
   * loop fail wherever it stands, as long as the loop gets there.
   */
  lemma {:induction false} AllocateFailsOnReachedNotWhole(xs: Resolved, id: int, ys: Resolved, d: Dict, remaining: int)
    requires remaining >= 0 && Passes(xs, d, remaining)
    ensures Allocate(xs + [(Some(id), NotWhole)] + ys, d, remaining).None?
    decreases |xs|
  {
    var l := xs + [(Some(id), NotWhole)] + ys;
    if xs == [] {
      assert l[0] == (Some(id), NotWhole);
    } else {
      assert l[0] == xs[0] && l[1..] == xs[1..] + [(Some(id), NotWhole)] + ys;
      match xs[0].0
      case None =>
        AllocateFailsOnReachedNotWhole(xs[1..], id, ys, d, remaining);
      case Some(k) =>
        var t := Max(0, Min(xs[0].1.n, remaining));
        AllocateFailsOnReachedNotWhole(xs[1..], id, ys, Put(d, k, t), remaining - t);
    }
  }

  /** Entries after the `break` are never read: whatever follows, token values `int()` rejects included, changes nothing. */
  lemma {:induction false} AllocateBreakIgnoresRest(xs: Resolved, ys: Resolved, d: Dict, remaining: int)
    requires remaining >= 0 && Breaks(xs, d, remaining)
    ensures Allocate(xs + ys, d, remaining) == Allocate(xs, d, remaining)
    decreases |xs|
  {
    var l := xs + ys;
    assert l[0] == xs[0] && l[1..] == xs[1..] + ys;
    match xs[0].0
    case None =>
      AllocateBreakIgnoresRest(xs[1..], ys, d, remaining);
    case Some(k) =>
      var t := Max(0, Min(xs[0].1.n, remaining));
      if remaining - t > 0 {
        AllocateBreakIgnoresRest(xs[1..], ys, Put(d, k, t), remaining - t);
      }
  }

  /** Keys are resolved one entry at a time, so resolution distributes over concatenation. */
  lemma ResolveEntriesAppend(a: Entries, b: Entries, roster: seq<int>)
    ensures ResolveEntries(a + b, roster) == ResolveEntries(a, roster) + ResolveEntries(b, roster)
  {
    var l := ResolveEntries(a + b, roster);
    var r := ResolveEntries(a, roster) + ResolveEntries(b, roster);
    assert |l| == |r|;
    forall j | 0 <= j < |l|
      ensures l[j] == r[j]
    {
      if j < |a| {
        assert (a + b)[j] == a[j];
      } else {
        assert (a + b)[j] == b[j - |a|];
      }
    }
  }

  /** An entry whose key names no peer is passed over wherever it stands; the entries after it are still read. */
  lemma {:induction false} UnresolvedEntrySkipped(xs: Resolved, v: TokenValue, ys: Resolved, d: Dict, remaining: int)
    requires remaining >= 0
    ensures Allocate(xs + [(None, v)] + ys, d, remaining) == Allocate(xs + ys, d, remaining)
    decreases |xs|
  {
    var l := xs + [(None, v)] + ys;
    if xs == [] {
      assert l[0] == (None, v) && l[1..] == ys && xs + ys == ys;
    } else {
      assert l[0] == xs[0] && (xs + ys)[0] == xs[0];
      assert l[1..] == xs[1..] + [(None, v)] + ys;
      assert (xs + ys)[1..] == xs[1..] + ys;
      match xs[0].0
      case None =>
        UnresolvedEntrySkipped(xs[1..], v, ys, d, remaining);
      case Some(id) =>
        match xs[0].1
        case NotWhole =>
        case Whole(n) =>
          var t := Max(0, Min(n, remaining));
          if remaining - t > 0 {
            UnresolvedEntrySkipped(xs[1..], v, ys, Put(d, id, t), remaining - t);
          }
    }
  }

  /**
   * A key that is not an alias in 1..|roster| once cleaned is ignored, token
   * value included, and does not stop the loop.
   */
  lemma UnresolvedKeyIgnored(xs: Entries, key: string, v: TokenValue, ys: Entries, roster: seq<int>, d: Dict, remaining: int)
    requires remaining >= 0
    requires ResolveAlias(key, roster).None?
    ensures Allocate(ResolveEntries(xs + [(key, v)] + ys, roster), d, remaining)
         == Allocate(ResolveEntries(xs + ys, roster), d, remaining)
  {
    ResolveEntriesAppend(xs + [(key, v)], ys, roster);
    ResolveEntriesAppend(xs, [(key, v)], roster);
    ResolveEntriesAppend(xs, ys, roster);
    assert ResolveEntries([(key, v)], roster) == [(None, v)];
    UnresolvedEntrySkipped(ResolveEntries(xs, roster), v, ResolveEntries(ys, roster), d, remaining);
  }

  /**
   * With no budget left a loop records at most the first peer it can
   * resolve, with 0 tokens, and stops there.
   */
  lemma {:induction false} AllocateExhausted(rs: Resolved, d: Dict)
    ensures var r := Allocate(rs, d, 0);
      r.Some? ==> r.value.1 == 0 && (r.value.0 == d || exists id :: r.value.0 == Put(d, id, 0))
    decreases |rs|
  {
    if rs != [] {
      match rs[0].0
      case None =>
        AllocateExhausted(rs[1..], d);
      case Some(id) =>
        if rs[0].1.Whole? {
          assert Allocate(rs, d, 0) == Some((Put(d, id, 0), 0));
        }
    }
  }

  /**
   * `parse_punishment_response` as a value: the punishment loop starts with
   * the whole stage-two endowment and the reward loop continues with what
   * the punishments left over.
   */
  function Allocations(reply: AllocationReply, roster: seq<int>): (d: AllocationDecision)
    ensures NonNegative(d.punishments) && NonNegative(d.rewards)
    ensures DistinctKeys(d.punishments) && DistinctKeys(d.rewards)
    ensures Sum(d.punishments) + Sum(d.rewards) <= EndowmentStage2
    ensures forall k :: k in Keys(d.punishments) ==> k in roster
    ensures forall k :: k in Keys(d.rewards) ==> k in roster
    ensures reply.AllocationMalformed? ==> d == NoAllocations
    ensures reply.AllocationJson? ==>
      d == NoAllocations || (d.reasoning == reply.reasoning && d.deanonymizedReasoning == reply.deanonymizedReasoning)
  {
    match reply
    case AllocationMalformed => NoAllocations
    case AllocationJson(reasoning, punishments, rewards, deanonymized) =>
      AllocateBounds(ResolveEntries(punishments, roster), roster, [], EndowmentStage2);
      match Allocate(ResolveEntries(punishments, roster), [], EndowmentStage2)
      case None => NoAllocations
      case Some((p, left)) =>
        AllocateBounds(ResolveEntries(rewards, roster), roster, [], left);
        match Allocate(ResolveEntries(rewards, roster), [], left)
        case None => NoAllocations
        case Some((r, _)) =>
          SumNonNegative(p);
          SumNonNegative(r);
          AllocationDecision(p, r, reasoning, deanonymized)
  }

  /**
   * The body of the loop of `AllocationLoop` for entry i of `rs`, once its key
   * has been resolved to `id`: `failed` when `int()` rejects the token value,
   * `stop` when the budget is used up; otherwise the loop goes on from the
   * dict and budget returned.
   */
  method AllocateEntry(ghost rs: Resolved, ghost i: int, id: Option<int>, tokens: TokenValue, allocations: Dict, tokensRemaining: int)
    returns (failed: bool, stop: bool, next: Dict, left: int)
    requires 0 <= i < |rs| && rs[i] == (id, tokens) && tokensRemaining >= 0
    ensures failed ==> Allocate(rs[i..], allocations, tokensRemaining).None?
    ensures !failed && stop ==> Allocate(rs[i..], allocations, tokensRemaining) == Some((next, left))
    ensures !failed && !stop ==> left >= 0 && Allocate(rs[i..], allocations, tokensRemaining) == Allocate(rs[i + 1..], next, left)
  {
    assert rs[i..][0] == rs[i] && rs[i..][1..] == rs[i + 1..];
    failed, stop, next, left := false, false, allocations, tokensRemaining;
    if id.Some? {
      if tokens.NotWhole? {
        failed := true;
        return;
      }
      var t := Max(0, Min(tokens.n, tokensRemaining));
      next := Put(allocations, id.value, t);
      left := tokensRemaining - t;
      stop := left <= 0;
    }
  }

  /**
   * One allocation loop of `parse_punishment_response` (punishments, or
   * rewards), starting from an empty dict and the given budget.
   */
  method AllocationLoop(entries: Entries, roster: seq<int>, budget: int) returns (r: Option<(Dict, int)>)
    requires budget >= 0
    ensures r == Allocate(ResolveEntries(entries, roster), [], budget)
  {
    ghost var rs := ResolveEntries(entries, roster);
    var allocations: Dict := [];
    var tokensRemaining := budget;
    var i := 0;
    while i < |entries|
      invariant 0 <= i <= |entries|
      invariant 0 <= tokensRemaining
      invariant Allocate(rs, [], budget) == Allocate(rs[i..], allocations, tokensRemaining)
    {
      var id := ResolveAlias(entries[i].0, roster);
      var failed, stop;
      failed, stop, allocations, tokensRemaining := AllocateEntry(rs, i, id, entries[i].1, allocations, tokensRemaining);
      if failed {
        return None;
      }
      if stop {
        return Some((allocations, tokensRemaining));
      }
      i := i + 1;
    }
    return Some((allocations, tokensRemaining));
  }

  /**
   * `parse_punishment_response`: the punishment loop and then the reward
   * loop, sharing one running token budget; a token value `int()` rejects
   * discards everything, reasoning included.
   */
  method ParsePunishmentResponse(reply: AllocationReply, roster: seq<int>) returns (d: AllocationDecision)
    ensures d == Allocations(reply, roster)
    ensures Sum(d.punishments) + Sum(d.rewards) <= EndowmentStage2
    ensures NonNegative(d.punishments) && NonNegative(d.rewards)
  {
    if reply.AllocationMalformed? {
      return NoAllocations;
    }
    var punished := AllocationLoop(reply.punishments, roster, EndowmentStage2);
    if punished.None? {
      return NoAllocations;
    }
    var (punishments, tokensRemaining) := punished.value;
    AllocateBounds(ResolveEntries(reply.punishments, roster), roster, [], EndowmentStage2);
    var rewarded := AllocationLoop(reply.rewards, roster, tokensRemaining);
    if rewarded.None? {
      return NoAllocations;
    }
    d := AllocationDecision(punishments, rewarded.value.0, reply.reasoning, reply.deanonymizedReasoning);
  }

  /** Once the punishments have used up the whole budget, the rewards hold at most one entry, worth 0. */
  lemma RewardsAfterExhaustedBudget(reply: AllocationReply, roster: seq<int>)
    requires reply.AllocationJson?
    requires var p := Allocate(ResolveEntries(reply.punishments, roster), [], EndowmentStage2);
      p.Some? && p.value.1 == 0
    ensures var r := Allocations(reply, roster).rewards;
      |r| <= 1 && forall j :: 0 <= j < |r| ==> r[j].1 == 0
  {
    AllocateExhausted(ResolveEntries(reply.rewards, roster), []);
  }

  /** The aliases "1", "2" and "3" name the first three peers. */
  lemma SmallAliasesResolve(roster: seq<int>)
    requires |roster| >= 3
    ensures ResolveAlias("1", roster) == Some(roster[0])
    ensures ResolveAlias("2", roster) == Some(roster[1])
    ensures ResolveAlias("3", roster) == Some(roster[2])
  {
    assert NatToString(1) == "1" && NatToString(2) == "2" && NatToString(3) == "3";
    AliasKeyResolves(1, roster);
    AliasKeyResolves(2, roster);
    AliasKeyResolves(3, roster);
  }

  /** The two loops of the budget-truncation example, on resolved entries. */
  lemma BudgetTruncationLoops(a: int, b: int, c: int, more: Resolved)
    requires a != b
    ensures Allocate([(Some(a), Whole(15)), (Some(b), Whole(10))], [], 20) == Some(([(a, 15), (b, 5)], 0))
    ensures Allocate([(Some(c), Whole(5))] + more, [], 0) == Some(([(c, 0)], 0))
  {
    var ps: Resolved := [(Some(a), Whole(15)), (Some(b), Whole(10))];
    assert ps[1..] == [(Some(b), Whole(10))];
    assert Put([], a, 15) == [(a, 15)];
    var d1: Dict := [(a, 15)];
    assert d1[1..] == [];
    assert Put(d1, b, 5) == [(a, 15)] + Put([], b, 5) == [(a, 15), (b, 5)];
    assert Allocate(ps[1..], [(a, 15)], 5) == Some(([(a, 15), (b, 5)], 0));
  }

  /**
   * The worked example of budget truncation: punishments {"1": 15, "2": 10}
   * and rewards {"3": 5, ...} against a budget of 20 give {peer1: 15, peer2: 5}
   * and {peer3: 0}; nothing after the first reward is considered.
   */
  lemma BudgetTruncationExample(roster: seq<int>, more: Entries, reasoning: string, deanonymized: string)
    requires |roster| >= 3 && roster[0] != roster[1]
    requires DistinctTexts([("3", Whole(5))] + more)
    ensures var d := Allocations(AllocationJson(reasoning, [("1", Whole(15)), ("2", Whole(10))], [("3", Whole(5))] + more, deanonymized), roster);
      d == AllocationDecision([(roster[0], 15), (roster[1], 5)], [(roster[2], 0)], reasoning, deanonymized)
  {
    SmallAliasesResolve(roster);
    var ps := ResolveEntries([("1", Whole(15)), ("2", Whole(10))], roster);
    assert ps == [(Some(roster[0]), Whole(15)), (Some(roster[1]), Whole(10))];
    var rw := ResolveEntries([("3", Whole(5))] + more, roster);
    assert rw == [(Some(roster[2]), Whole(5))] + rw[1..];
    BudgetTruncationLoops(roster[0], roster[1], roster[2], rw[1..]);
    assert Allocate(ps, [], EndowmentStage2) == Some(([(roster[0], 15), (roster[1], 5)], 0));
    assert Allocate(rw, [], 0) == Some(([(roster[2], 0)], 0));
  }

  /**
   * A punishment object that names the first peer twice, `{"1": 15, "1": 3}`,
   * records only the last value: 3 tokens, leaving 17 of the budget for the
   * rewards.
   */
  lemma RepeatedKeyAllocation(roster: seq<int>, reasoning: string, deanonymized: string)
    requires |roster| >= 1
    ensures var d := Allocations(AllocationJson(reasoning, DictItems([("1", Whole(15)), ("1", Whole(3))]), [], deanonymized), roster);
      d == AllocationDecision([(roster[0], 3)], [], reasoning, deanonymized)
  {
    RepeatedKeyKeepsLastValue();
    assert NatToString(1) == "1";
    AliasKeyResolves(1, roster);
    var ps := ResolveEntries([("1", Whole(3))], roster);
    assert ps == [(Some(roster[0]), Whole(3))];
    assert Put([], roster[0], 3) == [(roster[0], 3)];
    assert Allocate(ps, [], EndowmentStage2) == Some(([(roster[0], 3)], 17));
    assert ResolveEntries([], roster) == [];
  }

  /**
   * A token value `int()` rejects, on a key that names a peer, discards both
   * maps and both reasoning strings once the punishment loop reaches it: the
   * entries `xs` before it pass without a `break`.
   */
  lemma NonIntegerTokenDiscardsAll(xs: Entries, key: string, ys: Entries, rewards: Items, roster: seq<int>, reasoning: string, deanonymized: string)
    requires ResolveAlias(key, roster).Some? && DistinctTexts(xs + [(key, NotWhole)] + ys)
    requires Passes(ResolveEntries(xs, roster), [], EndowmentStage2)
    ensures Allocations(AllocationJson(reasoning, xs + [(key, NotWhole)] + ys, rewards, deanonymized), roster) == NoAllocations
  {
    ResolveEntriesAppend(xs + [(key, NotWhole)], ys, roster);
    ResolveEntriesAppend(xs, [(key, NotWhole)], roster);
    assert ResolveEntries([(key, NotWhole)], roster) == [(ResolveAlias(key, roster), NotWhole)];
    AllocateFailsOnReachedNotWhole(ResolveEntries(xs, roster), ResolveAlias(key, roster).value, ResolveEntries(ys, roster), [], EndowmentStage2);
  }

  /**
   * The same in the reward loop: a rejected token value it reaches discards
   * the punishments already recorded too.
   */
  lemma NonIntegerRewardDiscardsAll(punishments: Items, xs: Entries, key: string, ys: Entries, roster: seq<int>, reasoning: string, deanonymized: string)
    requires ResolveAlias(key, roster).Some? && DistinctTexts(xs + [(key, NotWhole)] + ys)
    requires var p := Allocate(ResolveEntries(punishments, roster), [], EndowmentStage2);
      p.Some? && Passes(ResolveEntries(xs, roster), [], p.value.1)
    ensures Allocations(AllocationJson(reasoning, punishments, xs + [(key, NotWhole)] + ys, deanonymized), roster) == NoAllocations
  {
    var left := Allocate(ResolveEntries(punishments, roster), [], EndowmentStage2).value.1;
    ResolveEntriesAppend(xs + [(key, NotWhole)], ys, roster);
    ResolveEntriesAppend(xs, [(key, NotWhole)], roster);
    assert ResolveEntries([(key, NotWhole)], roster) == [(ResolveAlias(key, roster), NotWhole)];
    AllocateFailsOnReachedNotWhole(ResolveEntries(xs, roster), ResolveAlias(key, roster).value, ResolveEntries(ys, roster), [], left);
  }

  /** Punishment entries after the `break` are never read, so a rejected token value there discards nothing. */
  lemma PunishmentsAfterBreakIgnored(xs: Entries, ys: Entries, rewards: Items, roster: seq<int>, reasoning: string, deanonymized: string)
    requires DistinctTexts(xs + ys) && Breaks(ResolveEntries(xs, roster), [], EndowmentStage2)
    ensures DistinctTexts(xs)
    ensures Allocations(AllocationJson(reasoning, xs + ys, rewards, deanonymized), roster)
         == Allocations(AllocationJson(reasoning, xs, rewards, deanonymized), roster)
  {
    assert forall i :: 0 <= i < |xs| ==> (xs + ys)[i] == xs[i];
    ResolveEntriesAppend(xs, ys, roster);
    AllocateBreakIgnoresRest(ResolveEntries(xs, roster), ResolveEntries(ys, roster), [], EndowmentStage2);
  }

  /** `{"1": 5, "2": "x"}`: the second punishment token value is reached and rejected, so everything is discarded. */
  lemma LaterNonIntegerTokenExample(rewards: Items, roster: seq<int>, reasoning: string, deanonymized: string)
    requires |roster| >= 2
    ensures Allocations(AllocationJson(reasoning, [("1", Whole(5)), ("2", NotWhole)], rewards, deanonymized), roster) == NoAllocations
  {
    assert NatToString(1) == "1" && NatToString(2) == "2";
    AliasKeyResolves(1, roster);
    AliasKeyResolves(2, roster);
    var xs: Entries := [("1", Whole(5))];
    assert ResolveEntries(xs, roster) == [(Some(roster[0]), Whole(5))];
    assert Passes(ResolveEntries(xs, roster), [], EndowmentStage2);
    assert xs + [("2", NotWhole)] + [] == [("1", Whole(5)), ("2", NotWhole)];
    NonIntegerTokenDiscardsAll(xs, "2", [], rewards, roster, reasoning, deanonymized);
  }
}
