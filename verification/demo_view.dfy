/** The cinematic demo page (`frontend/src/Demo.tsx`): the running risk score
    over the votes revealed so far, the decision banner, the transaction
    counter, the score-counter animation and the step machine the page's
    effects drive (0 intro, 1 alert, 2 votes, 3 verdict, 4 cross-bank scene,
    5 its conclusion). */
module DemoView {
  import opened Wrappers
  import opened Aggregation
  import opened Tables
  import DemoApi

  // -------------------------------------------------------------- scenarios

  datatype Scenario = Scenario(id: string, title: string, amount: string, destination: string)

  const Scenarios: seq<Scenario> := [
    Scenario("high", "Crypto Wire Transfer", "$25,000", "Binance (Crypto Exchange)"),
    Scenario("medium", "International Wire", "$12,500", "Dubai Investment LLC"),
    Scenario("low", "Domestic Transfer", "$3,200", "Verified Merchant")]

  /** `SCENARIOS.find(s => s.id === scenarioId) || SCENARIOS[0]`. */
  function ScenarioFor(id: string): Scenario {
    Find(Scenarios, (c: Scenario) => c.id == id).GetOr(Scenarios[0])
  }

  /** A listed id selects its own scenario; any other id the first one. */
  lemma ScenarioLookup(id: string)
    ensures ScenarioFor(id) in Scenarios
    ensures (exists i :: 0 <= i < |Scenarios| && Scenarios[i].id == id) ==> ScenarioFor(id).id == id
    ensures (forall i :: 0 <= i < |Scenarios| ==> Scenarios[i].id != id) ==> ScenarioFor(id) == Scenarios[0]
  {
  }

  // ------------------------------------------------------------ running score

  /** A vote as the page receives it. The page reads `stake`; the reputation
      backend sends `weight` instead, so both are optional here. An absent
      `isRegulator` reads as false. */
  datatype ClientVote = ClientVote(bank: string, confidence: real, stake: Option<real>, weight: Option<real>,
                                   isRegulator: bool)

  datatype MarketResult = MarketResult(transactionId: string, votes: seq<ClientVote>, riskScore: real)

  /** `votes.filter((_, i) => revealed.includes(i)).filter(v => !v.isRegulator)`. */
  function Visible(votes: seq<ClientVote>, revealed: seq<int>): (vis: seq<ClientVote>)
    ensures |vis| <= |votes|
    ensures forall v :: v in vis ==> v in votes && !v.isRegulator
    decreases |votes|
  {
    if |votes| == 0 then []
    else
      var i := |votes| - 1;
      Visible(votes[..i], revealed) + (if i in revealed && !votes[i].isRegulator then [votes[i]] else [])
  }

  /** `votes.filter(v => !v.isRegulator)`. */
  function NonRegulator(votes: seq<ClientVote>): (r: seq<ClientVote>)
    decreases |votes|
  {
    if |votes| == 0 then []
    else
      var i := |votes| - 1;
      NonRegulator(votes[..i]) + (if votes[i].isRegulator then [] else [votes[i]])
  }

  /** Every counted vote carries a `stake`; otherwise the sums are NaN. */
  predicate StakesPresent(vs: seq<ClientVote>) {
    forall i :: 0 <= i < |vs| ==> vs[i].stake.Some?
  }

  function StakeOf(v: ClientVote): real { v.stake.GetOr(0.0) }

  function StakeTerm(v: ClientVote): real { v.confidence / 100.0 * StakeOf(v) }

  /** `totalStake > 0 ? Math.round((weightedSum / totalStake) * 1000) / 10 : 0`
      over the counted votes; a NaN total fails the comparison and gives 0. */
  function RunningScore(counted: seq<ClientVote>): real {
    if !StakesPresent(counted) then 0.0
    else
      var total := SumBy(counted, StakeOf);
      if total > 0.0 then OneDecimal(SumBy(counted, StakeTerm) / total) else 0.0
  }

  /** `liveRiskScore`. */
  function LiveRiskScore(mr: Option<MarketResult>, revealed: seq<int>): (r: real)
    ensures mr.None? || |revealed| == 0 ==> r == 0.0
  {
    if mr.None? || |revealed| == 0 then 0.0 else RunningScore(Visible(mr.value.votes, revealed))
  }

  /** A vote is counted exactly when its index is revealed and it is not the
      regulator's. */
  lemma {:induction false} VisibleMembers(votes: seq<ClientVote>, revealed: seq<int>, i: nat)
    requires i < |votes| && i in revealed && !votes[i].isRegulator
    ensures votes[i] in Visible(votes, revealed)
    decreases |votes|
  {
    if i < |votes| - 1 {
      VisibleMembers(votes[..|votes| - 1], revealed, i);
    }
  }

  lemma {:induction false} VisibleAllRevealed(votes: seq<ClientVote>, revealed: seq<int>)
    requires forall i :: 0 <= i < |votes| ==> i in revealed
    ensures Visible(votes, revealed) == NonRegulator(votes)
    decreases |votes|
  {
    if |votes| > 0 {
      VisibleAllRevealed(votes[..|votes| - 1], revealed);
    }
  }

  /** Once every index is revealed, the running score is the batch score of
      all non-regulator votes. */
  lemma FullRevealIsBatch(mr: MarketResult, revealed: seq<int>)
    requires |revealed| > 0
    requires forall i :: 0 <= i < |mr.votes| ==> i in revealed
    ensures LiveRiskScore(Some(mr), revealed) == RunningScore(NonRegulator(mr.votes))
  {
    VisibleAllRevealed(mr.votes, revealed);
  }

  /** A regulator vote never changes the running score, whatever its stake. */
  lemma RegulatorNeverCounts(tx: string, votes: seq<ClientVote>, score: real, r: ClientVote, revealed: seq<int>)
    requires r.isRegulator
    ensures LiveRiskScore(Some(MarketResult(tx, votes + [r], score)), revealed)
         == LiveRiskScore(Some(MarketResult(tx, votes, score)), revealed)
  {
    assert (votes + [r])[..|votes|] == votes;
    assert Visible(votes + [r], revealed) == Visible(votes, revealed);
  }

  /** With non-negative stakes, a running score is 0 (nothing staked) or lies
      between the lowest and highest counted confidence. */
  lemma RunningScoreWithin(counted: seq<ClientVote>, lo: int, hi: int)
    requires forall v :: v in counted ==>
      v.stake.Some? && v.stake.value >= 0.0 && lo as real <= v.confidence <= hi as real
    ensures RunningScore(counted) == 0.0 || lo as real <= RunningScore(counted) <= hi as real
    ensures SumBy(counted, StakeOf) > 0.0 ==> lo as real <= RunningScore(counted) <= hi as real
  {
    assert StakesPresent(counted) by {
      forall i | 0 <= i < |counted| ensures counted[i].stake.Some? {
        assert counted[i] in counted;
      }
    }
    if SumBy(counted, StakeOf) > 0.0 {
      ScoreWithin(counted, StakeOf, (v: ClientVote) => v.confidence, StakeTerm, lo, hi);
    }
  }

  /** The running score over the revealed votes lies between the lowest and
      highest confidence among them, unless nothing is staked. */
  lemma LiveScoreWithin(mr: MarketResult, revealed: seq<int>, lo: int, hi: int)
    requires forall i :: 0 <= i < |mr.votes| && i in revealed && !mr.votes[i].isRegulator ==>
      mr.votes[i].stake.Some? && mr.votes[i].stake.value >= 0.0
      && lo as real <= mr.votes[i].confidence <= hi as real
    ensures var r := LiveRiskScore(Some(mr), revealed);
      r == 0.0 || lo as real <= r <= hi as real
  {
    var vis := Visible(mr.votes, revealed);
    VisibleFrom(mr.votes, revealed);
    forall v | v in vis
      ensures v.stake.Some? && v.stake.value >= 0.0 && lo as real <= v.confidence <= hi as real
    {
      var i :| 0 <= i < |mr.votes| && i in revealed && !mr.votes[i].isRegulator && mr.votes[i] == v;
    }
    RunningScoreWithin(vis, lo, hi);
  }

  lemma {:induction false} VisibleFrom(votes: seq<ClientVote>, revealed: seq<int>)
    ensures forall v :: v in Visible(votes, revealed) ==>
      exists i :: 0 <= i < |votes| && i in revealed && !votes[i].isRegulator && votes[i] == v
    decreases |votes|
  {
    if |votes| > 0 {
      var init := votes[..|votes| - 1];
      VisibleFrom(init, revealed);
      assert forall i :: 0 <= i < |init| ==> init[i] == votes[i];
    }
  }

  // ------------------------------------------- the stake/weight field mismatch

  /** How a vote of the reputation backend arrives here: it has `weight` but
      no `stake`. */
  function FromApi(v: DemoApi.Vote): (c: ClientVote)
    ensures c.stake.None? && c.weight == Some(v.weight) && c.isRegulator == v.isRegulator
    ensures c.confidence == v.confidence as real
  {
    ClientVote(v.bank, v.confidence as real, None, Some(v.weight), v.isRegulator)
  }

  function FromApiVotes(vs: seq<DemoApi.Vote>): (cs: seq<ClientVote>)
    ensures |cs| == |vs| && forall i :: 0 <= i < |vs| ==> cs[i] == FromApi(vs[i])
  {
    seq(|vs|, i requires 0 <= i < |vs| => FromApi(vs[i]))
  }

  /** As written, the running score over votes from the reputation backend is
      0 whatever is revealed, although that backend's own score is at least 15. */
  lemma RunningScoreIgnoresApiWeights(reps: map<string, DemoApi.Reputation>, p: Profile, draws: seq<real>,
                                      txId: string, revealed: seq<int>)
    requires |draws| == 4
    ensures var votes := DemoApi.SynthesizeVotes(reps, p, draws, txId);
      && DemoApi.TotalWeight(DemoApi.NonRegulator(votes)) != 0.0
      && DemoApi.RiskScore(votes) >= 15.0
      && LiveRiskScore(Some(MarketResult(txId, FromApiVotes(votes), DemoApi.RiskScore(votes))), revealed) == 0.0
  {
    var votes := DemoApi.SynthesizeVotes(reps, p, draws, txId);
    DemoApi.SynthesizedScore(reps, p, draws, txId);
    var cs := FromApiVotes(votes);
    var vis := Visible(cs, revealed);
    if |vis| > 0 {
      assert vis[0] in vis;
      assert vis[0] in cs;
      assert !StakesPresent(vis);
    } else {
      assert SumBy(vis, StakeOf) == 0.0;
    }
  }

  /** The weight the page evidently means to use: `stake`, or the backend's
      `weight` when there is no stake. */
  function CountedWeight(v: ClientVote): real {
    match v.stake
    case Some(s) => s
    case None => v.weight.GetOr(0.0)
  }

  function CountedTerm(v: ClientVote): real { v.confidence / 100.0 * CountedWeight(v) }

  predicate WeightsPresent(vs: seq<ClientVote>) {
    forall i :: 0 <= i < |vs| ==> vs[i].stake.Some? || vs[i].weight.Some?
  }

  function CorrectedRunningScore(counted: seq<ClientVote>): real {
    if !WeightsPresent(counted) then 0.0
    else
      var total := SumBy(counted, CountedWeight);
      if total > 0.0 then OneDecimal(SumBy(counted, CountedTerm) / total) else 0.0
  }

  /** The running score reading `stake` or, failing that, `weight`. */
  function CorrectedLiveRiskScore(mr: Option<MarketResult>, revealed: seq<int>): (r: real)
    ensures mr.None? || |revealed| == 0 ==> r == 0.0
  {
    if mr.None? || |revealed| == 0 then 0.0 else CorrectedRunningScore(Visible(mr.value.votes, revealed))
  }

  lemma {:induction false} FromApiNonRegulator(vs: seq<DemoApi.Vote>)
    ensures NonRegulator(FromApiVotes(vs)) == FromApiVotes(DemoApi.NonRegulator(vs))
    decreases |vs|
  {
    if |vs| > 0 {
      var init := vs[..|vs| - 1];
      FromApiNonRegulator(init);
      assert FromApiVotes(vs)[..|vs| - 1] == FromApiVotes(init);
      var last := vs[|vs| - 1];
      assert FromApiVotes(DemoApi.NonRegulator(init) + (if last.isRegulator then [] else [last]))
          == FromApiVotes(DemoApi.NonRegulator(init)) + (if last.isRegulator then [] else [FromApi(last)]);
    }
  }

  lemma {:induction false} FromApiSums(vs: seq<DemoApi.Vote>)
    ensures SumBy(FromApiVotes(vs), CountedWeight) == DemoApi.TotalWeight(vs)
    ensures SumBy(FromApiVotes(vs), CountedTerm) == DemoApi.WeightedSum(vs)
    decreases |vs|
  {
    if |vs| > 0 {
      var init := vs[..|vs| - 1];
      FromApiSums(init);
      assert FromApiVotes(vs)[..|vs| - 1] == FromApiVotes(init);
    }
  }

  /** Corrected, the page's score at full reveal is the reputation backend's
      own risk score. */
  lemma CorrectedMatchesServer(reps: map<string, DemoApi.Reputation>, p: Profile, draws: seq<real>,
                               txId: string, revealed: seq<int>)
    requires |draws| == 4
    requires forall i :: 0 <= i < 5 ==> i in revealed
    ensures var votes := DemoApi.SynthesizeVotes(reps, p, draws, txId);
      && DemoApi.TotalWeight(DemoApi.NonRegulator(votes)) != 0.0
      && CorrectedLiveRiskScore(Some(MarketResult(txId, FromApiVotes(votes), DemoApi.RiskScore(votes))), revealed)
         == DemoApi.RiskScore(votes)
  {
    var votes := DemoApi.SynthesizeVotes(reps, p, draws, txId);
    DemoApi.SynthesizedScore(reps, p, draws, txId);
    var cs := FromApiVotes(votes);
    assert 0 in revealed;
    VisibleAllRevealed(cs, revealed);
    FromApiNonRegulator(votes);
    var banks := DemoApi.NonRegulator(votes);
    FromApiSums(banks);
    assert WeightsPresent(FromApiVotes(banks));
  }

  /** Where every counted vote has a stake the correction changes nothing. */
  lemma CorrectedAgreesWithStakes(mr: MarketResult, revealed: seq<int>)
    requires StakesPresent(Visible(mr.votes, revealed))
    ensures CorrectedLiveRiskScore(Some(mr), revealed) == LiveRiskScore(Some(mr), revealed)
  {
    var vis := Visible(mr.votes, revealed);
    forall v | v in vis ensures CountedWeight(v) == StakeOf(v) && CountedTerm(v) == StakeTerm(v) {
      var i :| 0 <= i < |vis| && vis[i] == v;
    }
    SumByCongruent(vis, CountedWeight, StakeOf);
    SumByCongruent(vis, CountedTerm, StakeTerm);
  }

  // ---------------------------------------------------------------- decision

  /** `getDecision`: BLOCK TRANSACTION, ENHANCED DUE DILIGENCE (`Review`) or
      APPROVE TRANSACTION, by inclusive thresholds 80 and 60. */
  function GetDecision(score: real): (a: Action)
    ensures a == Block <==> score >= 80.0
    ensures a == Review <==> 60.0 <= score < 80.0
    ensures a == Approve <==> score < 60.0
  {
    if score >= 80.0 then Block else if score >= 60.0 then Review else Approve
  }

  // ----------------------------------------------------------- score counter

  /** `current` after `ticks` ticks of `current += target / 20`. */
  function Accumulated(target: real, ticks: nat): real {
    if ticks == 0 then 0.0 else Accumulated(target, ticks - 1) + target / 20.0
  }

  lemma {:induction false} AccumulatedIsMultiple(target: real, ticks: nat)
    ensures Accumulated(target, ticks) == ticks as real * (target / 20.0)
  {
    if ticks > 0 {
      AccumulatedIsMultiple(target, ticks - 1);
    }
  }

  /** For a non-negative target, `current` never goes backwards. */
  lemma {:induction false} AccumulatedMonotone(target: real, j: nat, k: nat)
    requires target >= 0.0 && j <= k
    ensures Accumulated(target, j) <= Accumulated(target, k)
    decreases k
  {
    if j < k {
      AccumulatedMonotone(target, j, k - 1);
    }
  }

  /** What the counter shows after `ticks` ticks of 50 ms towards `target`. */
  function CounterValue(target: real, ticks: nat): real {
    var current := Accumulated(target, ticks);
    if current >= target then target else Round(current * 10.0) as real / 10.0
  }

  /** Within the twenty ticks, the counter reaches its target on the first
      tick when the target is at most 0, and on the twentieth otherwise. */
  lemma CounterReaches(target: real, ticks: nat)
    requires 1 <= ticks <= 20
    ensures Accumulated(target, ticks) >= target <==> target <= 0.0 || ticks == 20
  {
    AccumulatedIsMultiple(target, ticks);
    var step := target / 20.0;
    var gap := 20.0 - ticks as real;
    assert target - ticks as real * step == gap * step;
    if ticks == 20 {
      assert gap * step == 0.0;
    } else if target > 0.0 {
      assert gap > 0.0 && step > 0.0;
      assert gap * step > 0.0;
    } else {
      assert gap >= 0.0 && step <= 0.0;
      assert gap * step <= 0.0;
    }
  }

  /** The interval of the step-3 effect: `current += target / 20` until it
      reaches the target, showing the target itself last. */
  method ScoreCounter(target: real) returns (shown: seq<real>)
    ensures |shown| == (if target > 0.0 then 20 else 1)
    ensures forall i :: 0 <= i < |shown| ==> shown[i] == CounterValue(target, i + 1)
    ensures shown[|shown| - 1] == target
  {
    var current := 0.0;
    var ticks := 0;
    var done := false;
    shown := [];
    while !done
      invariant 0 <= ticks <= 20 && |shown| == ticks
      invariant current == Accumulated(target, ticks)
      invariant forall i :: 0 <= i < ticks ==> shown[i] == CounterValue(target, i + 1)
      invariant done ==> ticks == (if target > 0.0 then 20 else 1) && shown[ticks - 1] == target
      invariant !done ==> ticks < 20 && (target <= 0.0 ==> ticks == 0)
      decreases 20 - ticks
    {
      current := current + target / 20.0;
      ticks := ticks + 1;
      CounterReaches(target, ticks);
      if current >= target {
        shown := shown + [target];
        done := true;
      } else {
        shown := shown + [Round(current * 10.0) as real / 10.0];
      }
    }
  }

  /** For a non-negative one-decimal target the counter never shows more than
      the target. */
  lemma CounterNeverExceeds(target: real, ticks: nat)
    requires target >= 0.0 && IsWhole(target * 10.0)
    ensures CounterValue(target, ticks) <= target
  {
    var current := Accumulated(target, ticks);
    if current < target {
      RoundBelow(current * 10.0, (target * 10.0).Floor);
    }
  }

  /** ... and never goes backwards. */
  lemma CounterMonotone(target: real, j: nat, k: nat)
    requires target >= 0.0 && IsWhole(target * 10.0)
    requires j <= k
    ensures CounterValue(target, j) <= CounterValue(target, k)
  {
    AccumulatedMonotone(target, j, k);
    CounterNeverExceeds(target, j);
    var cj, ck := Accumulated(target, j), Accumulated(target, k);
    if ck < target {
      RoundMonotone(cj * 10.0, ck * 10.0);
    }
  }

  /** Every score the backends produce is a one-decimal value, so the counter
      stays at or below it when it is non-negative. */
  lemma CounterBoundedForScores(x: real, ticks: nat)
    requires OneDecimal(x) >= 0.0
    ensures CounterValue(OneDecimal(x), ticks) <= OneDecimal(x)
  {
    CounterNeverExceeds(OneDecimal(x), ticks);
  }

  // ------------------------------------------------------------- the page

  /** The page's state. */
  class DemoSession {
    var scenarioId: string
    var step: int
    var marketResult: Option<MarketResult>
    var revealed: seq<int>
    var displayScore: real

    /** What every transition keeps: a step in 0..5, and a market result from
        the verdict on. */
    ghost predicate Valid()
      reads this
    {
      0 <= step <= 5 && (step >= 3 ==> marketResult.Some?)
    }

    constructor ()
      ensures Valid()
      ensures scenarioId == "high" && step == 0 && marketResult == None && revealed == [] && displayScore == 0.0
    {
      scenarioId := "high";
      step := 0;
      marketResult := None;
      revealed := [];
      displayScore := 0.0;
    }

    /** `txCount`: the market creation plus one exercise per revealed vote,
        once a run has started. */
    function TxCount(): (n: int)
      reads this
      ensures step >= 1 ==> n == 1 + |revealed|
      ensures step < 1 ==> n == 0
    {
      if step >= 1 then 1 + |revealed| else 0
    }

    function CurrentScenario(): Scenario
      reads this
    {
      ScenarioFor(scenarioId)
    }

    /** The scenario select. */
    method SelectScenario(id: string)
      requires Valid()
      modifies this`scenarioId
      ensures Valid() && scenarioId == id
    {
      scenarioId := id;
    }

    /** `startDemo` up to its request: the alert scene. Its button belongs to
        the step-0 scene. */
    method StartDemo()
      requires Valid() && step == 0
      modifies this`step
      ensures Valid() && step == 1
    {
      step := 1;
    }

    /** The reply to `startDemo`'s request arrives: `reply` is `data.market`
        when `data.success`. At step 2 the reveal effect starts over. */
    method ReceiveMarket(reply: Option<MarketResult>)
      requires Valid()
      modifies this`marketResult, this`revealed
      ensures Valid()
      ensures reply.None? ==> marketResult == old(marketResult) && revealed == old(revealed)
      ensures reply.Some? ==> marketResult == reply
      ensures reply.Some? && step == 2 ==> revealed == []
      ensures reply.Some? && step != 2 ==> revealed == old(revealed)
    {
      if reply.Some? {
        marketResult := reply;
        if step == 2 {
          revealed := [];
        }
      }
    }

    /** The 3 s timer of step 1; entering step 2 with a result clears the reveals. */
    method LoadingTimer()
      requires Valid() && step == 1
      modifies this`step, this`revealed
      ensures Valid() && step == 2
      ensures marketResult.Some? ==> revealed == []
      ensures marketResult.None? ==> revealed == old(revealed)
    {
      step := 2;
      if marketResult.Some? {
        revealed := [];
      }
    }

    /** One of the per-vote reveal timers fires. These timers are never
        cancelled, so one may fire in any step. */
    method RevealTimer(i: nat)
      requires Valid()
      modifies this`revealed
      ensures Valid() && revealed == old(revealed) + [i]
    {
      revealed := revealed + [i];
    }

    /** The 1.5 s timer armed at step 2 once as many reveals as votes have happened. */
    method VotingTimer()
      requires Valid() && step == 2
      requires marketResult.Some? && |revealed| == |marketResult.value.votes|
      modifies this`step
      ensures Valid() && step == 3
    {
      step := 3;
    }

    /** The counter effect of step 3 runs to its end. */
    method AnimateScore() returns (frames: seq<real>)
      requires Valid() && step == 3
      modifies this`displayScore
      ensures Valid()
      ensures |frames| > 0 && forall i :: 0 <= i < |frames| ==> frames[i] == CounterValue(marketResult.value.riskScore, i + 1)
      ensures displayScore == marketResult.value.riskScore
    {
      frames := ScoreCounter(marketResult.value.riskScore);
      displayScore := frames[|frames| - 1];
    }

    /** The "Next: Cross-Bank Detection" button, shown at step 3 only for a
        score of at least 80. */
    method NextScene()
      requires Valid() && step == 3 && marketResult.Some? && marketResult.value.riskScore >= 80.0
      modifies this`step
      ensures Valid() && step == 4
    {
      step := 4;
    }

    /** The 2.5 s timer of step 4. */
    method SceneTimer()
      requires Valid() && step == 4
      modifies this`step
      ensures Valid() && step == 5
    {
      step := 5;
    }

    /** `reset`. */
    method Reset()
      requires Valid()
      modifies this`step, this`marketResult, this`revealed, this`displayScore
      ensures Valid()
      ensures step == 0 && marketResult == None && revealed == [] && displayScore == 0.0
      ensures TxCount() == 0 && LiveRiskScore(marketResult, revealed) == 0.0
    {
      step := 0;
      marketResult := None;
      revealed := [];
      displayScore := 0.0;
    }
  }
}
