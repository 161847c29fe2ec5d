/** The serverless demo endpoint (`frontend/api/demo.js`): reputation-weighted
    votes of four banks plus a weightless regulator, aggregated into a risk
    score and an action. Module-level state (the reputation cache and the
    market counter) lives in the class `DemoBackend`. */
module DemoApi {
  import opened Wrappers
  import opened Text
  import opened Aggregation
  import opened Tables
  import opened Ledger

  const HighProfile := Profile(0.85, 0.08)
  const MediumProfile := Profile(0.70, 0.08)
  const LowProfile := Profile(0.28, 0.12)

  /** `const { scenario = 'high' } = req.body || {}` followed by
      `scenarios[scenario] || scenarios.high`. A scenario named after an
      inherited member of the table has no profile (`None`): its `base` and
      `variance` are `undefined`. */
  function ProfileFor(scenario: Option<string>): (p: Option<Profile>)
    ensures p.None? <==> scenario.Some? && InheritedName(scenario.value)
    ensures scenario == Some("medium") ==> p == Some(MediumProfile)
    ensures scenario == Some("low") ==> p == Some(LowProfile)
    ensures p.Some? && scenario != Some("medium") && scenario != Some("low") ==> p == Some(HighProfile)
  {
    var id := scenario.GetOr("high");
    if id == "medium" then Some(MediumProfile)
    else if id == "low" then Some(LowProfile)
    else if InheritedName(id) then None
    else Some(HighProfile)
  }

  /** A missing or unknown scenario behaves exactly like `'high'`, unless it
      names an inherited member. */
  lemma UnknownScenarioIsHigh(id: string)
    requires id != "high" && id != "medium" && id != "low" && !InheritedName(id)
    ensures ProfileFor(Some(id)) == ProfileFor(Some("high")) == ProfileFor(None) == Some(HighProfile)
  {
  }

  /** A bank's reputation as read from a `BankReputation` contract. */
  datatype Reputation = Reputation(score: real, accuracy: real)

  /** The table `loadReputations` returns when the ledger cannot be read. */
  const FallbackReputations: map<string, Reputation> := map[
    "Bank_A" := Reputation(92.0, 0.91),
    "Bank_B" := Reputation(85.0, 0.86),
    "Bank_C" := Reputation(78.0, 0.83),
    "Bank_D" := Reputation(74.0, 0.79)]

  /** Reputation score to vote weight, by inclusive thresholds 90/75/50/25. */
  function ReputationToWeight(score: real): (w: real)
    ensures 0.5 <= w <= 2.0
    ensures w == 2.0 <==> score >= 90.0
    ensures w == 1.5 <==> 75.0 <= score < 90.0
    ensures w == 1.0 <==> 50.0 <= score < 75.0
    ensures w == 0.75 <==> 25.0 <= score < 50.0
    ensures w == 0.5 <==> score < 25.0
  {
    if score >= 90.0 then 2.0
    else if score >= 75.0 then 1.5
    else if score >= 50.0 then 1.0
    else if score >= 25.0 then 0.75
    else 0.5
  }

  /** A better reputation never earns a smaller weight. */
  lemma WeightMonotone(a: real, b: real)
    requires a <= b
    ensures ReputationToWeight(a) <= ReputationToWeight(b)
  {
  }

  /** `String(ce.templateId).includes(':BankReputation:')`; an undefined
      template id stringifies to "undefined". */
  predicate IsReputationTemplate(templateId: Option<string>) {
    Contains(templateId.GetOr("undefined"), ":BankReputation:")
  }

  /** An entry the loop of `loadReputations` does not skip. */
  predicate IsReputationItem(item: LedgerEntry) {
    item.contractEntry.Some? && IsReputationTemplate(EventOf(item.contractEntry.value).templateId)
  }

  /** What the loop assigns for a kept entry: `reps[name] = { score, accuracy }`. */
  function ItemReputation(item: LedgerEntry): (kv: (string, Reputation))
    requires IsReputationItem(item)
    ensures !Contains(kv.0, "::")
    ensures kv.1.score != 0.0 && kv.1.accuracy != 0.0
    ensures var args := ArgsOf(EventOf(item.contractEntry.value));
      && kv.0 == BankName(args)
      && kv.1 == Reputation(ParsedOr(args.reputationScore, 50.0), ParsedOr(args.accuracy, 0.5))
  {
    var args := ArgsOf(EventOf(item.contractEntry.value));
    (BankName(args), Reputation(ParsedOr(args.reputationScore, 50.0), ParsedOr(args.accuracy, 0.5)))
  }

  /** The assignments the loop makes, in order. */
  function ReputationPairs(items: seq<LedgerEntry>): seq<(string, Reputation)>
    decreases |items|
  {
    if |items| == 0 then []
    else
      var last := items[|items| - 1];
      ReputationPairs(items[..|items| - 1]) + (if IsReputationItem(last) then [ItemReputation(last)] else [])
  }

  /** The table the loop of `loadReputations` builds from the ledger entries. */
  function ReputationTable(items: seq<LedgerEntry>): map<string, Reputation> {
    Overwrite(map[], ReputationPairs(items))
  }

  lemma {:induction false} ReputationPairsFrom(items: seq<LedgerEntry>)
    ensures forall p :: p in ReputationPairs(items) ==>
      exists i :: 0 <= i < |items| && IsReputationItem(items[i]) && ItemReputation(items[i]) == p
    ensures forall i :: 0 <= i < |items| && IsReputationItem(items[i]) ==>
      ItemReputation(items[i]) in ReputationPairs(items)
  {
    if |items| > 0 {
      var init := items[..|items| - 1];
      ReputationPairsFrom(init);
      assert forall i :: 0 <= i < |init| ==> init[i] == items[i];
    }
  }

  /** The keys of the table are exactly the cut-down bank names of the
      `:BankReputation:` entries; every stored score and accuracy is non-zero
      (an unparsable or zero score became 50, an accuracy 0.5). */
  lemma ReputationTableSpec(items: seq<LedgerEntry>, k: string)
    ensures k in ReputationTable(items) <==>
      exists i :: 0 <= i < |items| && IsReputationItem(items[i]) && ItemReputation(items[i]).0 == k
    ensures k in ReputationTable(items) ==>
      !Contains(k, "::") && ReputationTable(items)[k].score != 0.0 && ReputationTable(items)[k].accuracy != 0.0
  {
    var pairs := ReputationPairs(items);
    ReputationPairsFrom(items);
    OverwriteKeys(map[], pairs);
    if k in ReputationTable(items) {
      assert k in (set j | 0 <= j < |pairs| :: pairs[j].0);
      var j :| 0 <= j < |pairs| && pairs[j].0 == k;
      assert pairs[j] in pairs;
      OverwriteValueFrom(map[], pairs, k);
      var j' :| 0 <= j' < |pairs| && pairs[j'] == (k, ReputationTable(items)[k]);
      assert pairs[j'] in pairs;
    } else {
      forall i | 0 <= i < |items| && IsReputationItem(items[i])
        ensures ItemReputation(items[i]).0 != k
      {
        var p := ItemReputation(items[i]);
        assert p in pairs;
        var j :| 0 <= j < |pairs| && pairs[j] == p;
        assert pairs[j].0 in (set j | 0 <= j < |pairs| :: pairs[j].0);
      }
    }
  }

  /** The loop of `loadReputations` (`for (const item of entries) ...`). */
  method CollectReputations(items: seq<LedgerEntry>) returns (reps: map<string, Reputation>)
    ensures reps == ReputationTable(items)
  {
    reps := map[];
    for i := 0 to |items|
      invariant reps == Overwrite(map[], ReputationPairs(items[..i]))
    {
      var item := items[i];
      assert items[..i + 1][..i] == items[..i];
      assert ReputationPairs(items[..i + 1]) == ReputationPairs(items[..i])
        + (if IsReputationItem(item) then [ItemReputation(item)] else []);
      if item.contractEntry.None? {
        assert ReputationPairs(items[..i + 1]) == ReputationPairs(items[..i]);
        continue;
      }
      var ce := EventOf(item.contractEntry.value);
      if !IsReputationTemplate(ce.templateId) {
        assert ReputationPairs(items[..i + 1]) == ReputationPairs(items[..i]);
        continue;
      }
      var args := ArgsOf(ce);
      var name := BankName(args);
      assert ItemReputation(item) == (name, Reputation(ParsedOr(args.reputationScore, 50.0), ParsedOr(args.accuracy, 0.5)));
      OverwriteAppend(map[], ReputationPairs(items[..i]), ItemReputation(item));
      reps := reps[name := Reputation(ParsedOr(args.reputationScore, 50.0), ParsedOr(args.accuracy, 0.5))];
    }
    assert items[..|items|] == items;
  }

  /** The cache is used while less than 60000 ms have passed since it was filled. */
  predicate CacheFresh(cache: Option<map<string, Reputation>>, cacheTime: int, now: int) {
    cache.Some? && now - cacheTime < 60000
  }

  /** The table `loadReputations` returns: the cache while fresh, otherwise the
      parsed ledger reply, or the fallback table when the ledger calls fail
      (`reply` is `None`). */
  function ReputationsFor(cache: Option<map<string, Reputation>>, cacheTime: int, now: int,
                          reply: Option<ActiveContractsReply>): (reps: map<string, Reputation>)
    ensures CacheFresh(cache, cacheTime, now) ==> reps == cache.value
    ensures !CacheFresh(cache, cacheTime, now) && reply.None? ==> reps == FallbackReputations
    ensures !CacheFresh(cache, cacheTime, now) && reply.Some? ==> reps == ReputationTable(EntriesOf(reply.value))
  {
    if CacheFresh(cache, cacheTime, now) then cache.value
    else match reply
      case None => FallbackReputations
      case Some(r) => ReputationTable(EntriesOf(r))
  }

  /** The ten-or-so lines of bank configuration: ledger key and display name. */
  datatype BankEntry = BankEntry(key: string, name: string)

  const BankConfig: seq<BankEntry> := [
    BankEntry("Bank_A", "Bank A"),
    BankEntry("Bank_B", "Bank B"),
    BankEntry("Bank_C", "Bank C"),
    BankEntry("Bank_D", "Bank D")]

  /** `(reps[key] || { score: 50 }).score`. */
  function ScoreOf(reps: map<string, Reputation>, key: string): real {
    if key in reps then reps[key].score else 50.0
  }

  /** `Math.min(95, Math.max(15, Math.round(raw * 100)))`. */
  function BankConfidence(p: Profile, u: real): (c: int)
    ensures 15 <= c <= 95
    ensures 15 <= Round(RawConfidence(p, u) * 100.0) <= 95 ==> c == Round(RawConfidence(p, u) * 100.0)
    ensures Round(RawConfidence(p, u) * 100.0) < 15 ==> c == 15
    ensures Round(RawConfidence(p, u) * 100.0) > 95 ==> c == 95
  {
    var r := Round(RawConfidence(p, u) * 100.0);
    if r < 15 then 15 else if r > 95 then 95 else r
  }

  /** For the three configured scenarios the clamp never fires: every draw in
      [0, 1) already rounds into the profile's own band. */
  lemma ClampIdleForScenarios(scenario: Option<string>, u: real)
    requires 0.0 <= u < 1.0
    ensures ProfileFor(scenario).Some? ==> var p := ProfileFor(scenario).value;
      BankConfidence(p, u) == Round(RawConfidence(p, u) * 100.0)
    ensures ProfileFor(scenario) == Some(HighProfile) ==> 77 <= BankConfidence(HighProfile, u) <= 93
    ensures ProfileFor(scenario) == Some(MediumProfile) ==> 62 <= BankConfidence(MediumProfile, u) <= 78
    ensures ProfileFor(scenario) == Some(LowProfile) ==> 16 <= BankConfidence(LowProfile, u) <= 40
  {
    var p := ProfileFor(scenario).GetOr(HighProfile);
    var x := RawConfidence(p, u) * 100.0;
    assert x == p.base * 100.0 + (u - 0.5) * p.variance * 200.0;
    if p == HighProfile {
      RoundWithin(x, 77, 93);
    } else if p == MediumProfile {
      RoundWithin(x, 62, 78);
    } else {
      RoundWithin(x, 16, 40);
    }
  }

  /** One entry of the `votes` array. */
  datatype Vote = Vote(bank: string, confidence: int, weight: real, isRegulator: bool, txId: string)

  const RegulatorName := "Regulator"

  function BankVote(reps: map<string, Reputation>, b: BankEntry, p: Profile, u: real, txId: string): Vote {
    Vote(b.name, BankConfidence(p, u), ReputationToWeight(ScoreOf(reps, b.key)), false, txId)
  }

  /** `bankConfig.map(...)` with one random draw per bank, then the regulator's
      vote pushed last. */
  function SynthesizeVotes(reps: map<string, Reputation>, p: Profile, draws: seq<real>, txId: string): (votes: seq<Vote>)
    requires |draws| == 4
    ensures |votes| == 5
    ensures forall i :: 0 <= i < 4 ==>
      votes[i].bank == BankConfig[i].name && !votes[i].isRegulator && votes[i].txId == txId
      && 15 <= votes[i].confidence <= 95
      && votes[i].confidence == BankConfidence(p, draws[i])
      && votes[i].weight == ReputationToWeight(ScoreOf(reps, BankConfig[i].key))
    ensures votes[4] == Vote(RegulatorName, 0, 0.0, true, txId)
  {
    seq(4, i requires 0 <= i < 4 => BankVote(reps, BankConfig[i], p, draws[i], txId))
      + [Vote(RegulatorName, 0, 0.0, true, txId)]
  }

  /** The four bank weights, which do not depend on the scenario. */
  function BankWeights(reps: map<string, Reputation>): (ws: seq<real>)
    ensures |ws| == 4
    ensures forall i :: 0 <= i < 4 ==> ws[i] == ReputationToWeight(ScoreOf(reps, BankConfig[i].key))
  {
    seq(4, i requires 0 <= i < 4 => ReputationToWeight(ScoreOf(reps, BankConfig[i].key)))
  }

  /** Whatever the profile, the synthesized bank votes carry those weights. */
  lemma BankWeightsOfVotes(reps: map<string, Reputation>, p: Profile, draws: seq<real>, txId: string)
    requires |draws| == 4
    ensures forall i :: 0 <= i < 4 ==> SynthesizeVotes(reps, p, draws, txId)[i].weight == BankWeights(reps)[i]
  {
  }

  /** A bank with no reputation entry votes with weight 1.0 (score 50). */
  lemma MissingBankWeighsOne(reps: map<string, Reputation>, p: Profile, draws: seq<real>, txId: string, i: nat)
    requires |draws| == 4 && i < 4
    requires BankConfig[i].key !in reps
    ensures SynthesizeVotes(reps, p, draws, txId)[i].weight == 1.0
  {
  }

  /** `votes.filter(v => !v.isRegulator)`. */
  function NonRegulator(votes: seq<Vote>): (r: seq<Vote>)
    decreases |votes|
  {
    if |votes| == 0 then []
    else
      var last := votes[|votes| - 1];
      NonRegulator(votes[..|votes| - 1]) + (if last.isRegulator then [] else [last])
  }

  lemma NonRegulatorAppend(votes: seq<Vote>, v: Vote)
    ensures NonRegulator(votes + [v]) == NonRegulator(votes) + (if v.isRegulator then [] else [v])
  {
    assert (votes + [v])[..|votes|] == votes;
  }

  lemma {:induction false} NonRegulatorKeepsBanks(votes: seq<Vote>)
    requires forall i :: 0 <= i < |votes| ==> !votes[i].isRegulator
    ensures NonRegulator(votes) == votes
  {
    if |votes| > 0 {
      NonRegulatorKeepsBanks(votes[..|votes| - 1]);
    }
  }

  function WeightOf(v: Vote): real { v.weight }

  function ConfidenceOf(v: Vote): real { v.confidence as real }

  function WeightedTerm(v: Vote): real { ConfidenceOf(v) / 100.0 * WeightOf(v) }

  /** `nonReg.reduce((s, v) => s + v.weight, 0)`. */
  function TotalWeight(votes: seq<Vote>): real {
    SumBy(votes, WeightOf)
  }

  /** `nonReg.reduce((s, v) => s + (v.confidence / 100) * v.weight, 0)`. */
  function WeightedSum(votes: seq<Vote>): real {
    SumBy(votes, WeightedTerm)
  }

  /** `Math.round((weightedSum / totalWeight) * 1000) / 10` over the
      non-regulator votes. */
  function RiskScore(votes: seq<Vote>): real
    requires TotalWeight(NonRegulator(votes)) != 0.0
  {
    var nonReg := NonRegulator(votes);
    OneDecimal(WeightedSum(nonReg) / TotalWeight(nonReg))
  }

  /** `riskScore >= 80 ? 'BLOCK' : riskScore >= 60 ? 'REVIEW' : 'APPROVE'`. */
  function ActionFor(score: real): (a: Action)
    ensures a == Block <==> score >= 80.0
    ensures a == Review <==> 60.0 <= score < 80.0
    ensures a == Approve <==> score < 60.0
  {
    if score >= 80.0 then Block else if score >= 60.0 then Review else Approve
  }

  /** The aggregation sees exactly the four bank votes, whose weights sum to
      between 2 and 8, so the division is always defined. */
  lemma {:induction false} SynthesizedTotals(reps: map<string, Reputation>, p: Profile, draws: seq<real>, txId: string)
    requires |draws| == 4
    ensures var votes := SynthesizeVotes(reps, p, draws, txId);
      NonRegulator(votes) == votes[..4]
      && 2.0 <= TotalWeight(votes[..4]) <= 8.0
  {
    var votes := SynthesizeVotes(reps, p, draws, txId);
    var banks := votes[..4];
    assert votes == banks + [votes[4]];
    NonRegulatorAppend(banks, votes[4]);
    NonRegulatorKeepsBanks(banks);
    assert banks == [banks[0], banks[1], banks[2]] + [banks[3]];
    SumByAppend([banks[0], banks[1], banks[2]], banks[3], WeightOf);
    assert [banks[0], banks[1], banks[2]] == [banks[0], banks[1]] + [banks[2]];
    SumByAppend([banks[0], banks[1]], banks[2], WeightOf);
    assert [banks[0], banks[1]] == [banks[0]] + [banks[1]];
    SumByAppend([banks[0]], banks[1], WeightOf);
    assert [banks[0]] == [] + [banks[0]];
    SumByAppend([], banks[0], WeightOf);
  }

  /** Non-regulator votes with non-negative weights and confidences between
      two whole numbers give a risk score between them. */
  lemma RiskScoreWithin(votes: seq<Vote>, lo: int, hi: int)
    requires forall v :: v in NonRegulator(votes) ==> WeightOf(v) >= 0.0 && lo as real <= ConfidenceOf(v) <= hi as real
    requires TotalWeight(NonRegulator(votes)) > 0.0
    ensures lo as real <= RiskScore(votes) <= hi as real
  {
    MeanScoreWithin(NonRegulator(votes), lo, hi);
  }

  /** The same bound for the one-decimal weighted mean of any votes. */
  lemma MeanScoreWithin(counted: seq<Vote>, lo: int, hi: int)
    requires forall v :: v in counted ==> WeightOf(v) >= 0.0 && lo as real <= ConfidenceOf(v) <= hi as real
    requires TotalWeight(counted) > 0.0
    ensures lo as real <= OneDecimal(WeightedSum(counted) / TotalWeight(counted)) <= hi as real
  {
    ScoreWithin(counted, WeightOf, ConfidenceOf, WeightedTerm, lo, hi);
  }

  /** Every synthesized bank vote has a positive weight and a confidence in [15, 95]. */
  lemma SynthesizedBanksInRange(reps: map<string, Reputation>, p: Profile, draws: seq<real>, txId: string)
    requires |draws| == 4
    ensures forall v :: v in SynthesizeVotes(reps, p, draws, txId)[..4] ==>
      WeightOf(v) > 0.0 && 15.0 <= ConfidenceOf(v) <= 95.0
  {
    var votes := SynthesizeVotes(reps, p, draws, txId);
    forall v | v in votes[..4] ensures WeightOf(v) > 0.0 && 15.0 <= ConfidenceOf(v) <= 95.0 {
      var i :| 0 <= i < 4 && votes[..4][i] == v;
      assert v == votes[i];
    }
  }

  /** The score of a synthesized run is the one-decimal weighted mean of the
      four bank confidences alone, and lies in [15, 95]. */
  lemma {:induction false} SynthesizedScore(reps: map<string, Reputation>, p: Profile, draws: seq<real>, txId: string)
    requires |draws| == 4
    ensures var votes := SynthesizeVotes(reps, p, draws, txId);
      NonRegulator(votes) == votes[..4]
      && TotalWeight(votes[..4]) > 0.0
      && RiskScore(votes) == OneDecimal(WeightedSum(votes[..4]) / TotalWeight(votes[..4]))
      && 15.0 <= RiskScore(votes) <= 95.0
  {
    var votes := SynthesizeVotes(reps, p, draws, txId);
    SynthesizedTotals(reps, p, draws, txId);
    SynthesizedBanksInRange(reps, p, draws, txId);
    RiskScoreWithin(votes, 15, 95);
  }

  /** Appending a regulator vote, whatever its confidence and weight, leaves
      the risk score unchanged. */
  lemma RegulatorExcluded(votes: seq<Vote>, r: Vote)
    requires r.isRegulator
    requires TotalWeight(NonRegulator(votes)) != 0.0
    ensures TotalWeight(NonRegulator(votes + [r])) != 0.0
    ensures RiskScore(votes + [r]) == RiskScore(votes)
  {
    NonRegulatorAppend(votes, r);
    assert NonRegulator(votes + [r]) == NonRegulator(votes);
  }

  /** What the handler sends back. */
  datatype Response =
    | CountReply(marketCount: int)
    | MethodNotAllowed
    | DemoReply(transactionId: string, marketCount: int, votes: seq<Vote>, riskScore: real, action: Action)
      /** A scenario with no profile: the bank votes keep their `weights`, but
          every bank confidence and the risk score are NaN (sent as `null`);
          as `NaN >= 80` and `NaN >= 60` are both false the action is APPROVE. */
    | UnscoredReply(transactionId: string, marketCount: int, weights: seq<real>, action: Action)

  datatype HttpMethod = Get | Post | OtherMethod

  /** The module-level state of `demo.js`. */
  class DemoBackend {
    var cachedReputations: Option<map<string, Reputation>>
    var cacheTime: int
    var marketCount: int

    constructor ()
      ensures cachedReputations == None && cacheTime == 0 && marketCount == 47
    {
      cachedReputations := None;
      cacheTime := 0;
      marketCount := 47;
    }

    /** `loadReputations()`: `now` is the `Date.now()` of the freshness test
        and `loadedAt` the later one stored after the ledger calls; `reply` is
        the ledger's answer, or `None` when a ledger call throws. */
    method LoadReputations(now: int, loadedAt: int, reply: Option<ActiveContractsReply>)
      returns (reps: map<string, Reputation>)
      modifies this`cachedReputations, this`cacheTime
      ensures reps == ReputationsFor(old(cachedReputations), old(cacheTime), now, reply)
      ensures CacheFresh(old(cachedReputations), old(cacheTime), now) || reply.None? ==>
        cachedReputations == old(cachedReputations) && cacheTime == old(cacheTime)
      ensures !CacheFresh(old(cachedReputations), old(cacheTime), now) && reply.Some? ==>
        cachedReputations == Some(reps) && cacheTime == loadedAt
    {
      if CacheFresh(cachedReputations, cacheTime, now) {
        return cachedReputations.value;
      }
      if reply.None? {
        return FallbackReputations;
      }
      reps := CollectReputations(EntriesOf(reply.value));
      cachedReputations := Some(reps);
      cacheTime := loadedAt;
    }

    /** `handler(req, res)`: `draws` are the four `Math.random()` values used
        for the bank confidences, `txId` the generated transaction id, and
        `now` and `loadedAt` the two clock reads of `loadReputations`. */
    method Handle(m: HttpMethod, scenario: Option<string>, txId: string, draws: seq<real>,
                  now: int, loadedAt: int, reply: Option<ActiveContractsReply>) returns (resp: Response)
      requires |draws| == 4
      modifies this
      ensures m == Get ==> resp == CountReply(old(marketCount)) && unchanged(this)
      ensures m == OtherMethod ==> resp == MethodNotAllowed && unchanged(this)
      ensures m == Post ==> marketCount == old(marketCount) + 1
      ensures m == Post && (CacheFresh(old(cachedReputations), old(cacheTime), now) || reply.None?) ==>
        cachedReputations == old(cachedReputations) && cacheTime == old(cacheTime)
      ensures m == Post && !CacheFresh(old(cachedReputations), old(cacheTime), now) && reply.Some? ==>
        cachedReputations == Some(ReputationTable(EntriesOf(reply.value))) && cacheTime == loadedAt
      ensures m == Post && ProfileFor(scenario).Some? ==>
        var votes := SynthesizeVotes(ReputationsFor(old(cachedReputations), old(cacheTime), now, reply),
                                     ProfileFor(scenario).value, draws, txId);
        && TotalWeight(NonRegulator(votes)) != 0.0
        && resp == DemoReply(txId, marketCount, votes, RiskScore(votes), ActionFor(RiskScore(votes)))
      ensures m == Post && ProfileFor(scenario).None? ==>
        resp == UnscoredReply(txId, marketCount,
          BankWeights(ReputationsFor(old(cachedReputations), old(cacheTime), now, reply)), Approve)
    {
      if m == Get {
        return CountReply(marketCount);
      }
      if m != Post {
        return MethodNotAllowed;
      }
      var profile := ProfileFor(scenario);
      var reps := LoadReputations(now, loadedAt, reply);
      marketCount := marketCount + 1;
      if profile.None? {
        return UnscoredReply(txId, marketCount, BankWeights(reps), Approve);
      }
      var votes := SynthesizeVotes(reps, profile.value, draws, txId);
      SynthesizedScore(reps, profile.value, draws, txId);
      var riskScore := RiskScore(votes);
      resp := DemoReply(txId, marketCount, votes, riskScore, ActionFor(riskScore));
    }
  }
}
