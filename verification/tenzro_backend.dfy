/** The Tenzro DevNet backend (`canton-devnet-demo/backend/server-tenzro.js`):
    a cache of party ids keyed by a normalised display name, the party
    listing, and a demo run in which five stake-weighted votes, the FinCEN
    regulator's included, are exercised one after another on a market
    contract whose id changes with every vote. */
module TenzroBackend {
  import opened Wrappers
  import opened Text
  import opened Aggregation
  import opened Tables

  // ---------------------------------------------------------------- parties

  /** One party as the ledger lists it. */
  datatype LedgerParty = LedgerParty(displayName: string, partyId: string)

  /** `p.displayName.toLowerCase().replace(/_/g, '')`. */
  function PartyKey(displayName: string): (key: string)
    ensures '_' !in key
    ensures |key| <= |displayName|
    ensures forall ch :: ch in key ==> !IsAsciiUpper(ch)
    ensures key == RemoveChar(ToLowerAscii(displayName), '_')
  {
    var lower := ToLowerAscii(displayName);
    assert forall ch :: ch in lower ==> !IsAsciiUpper(ch) by {
      forall ch | ch in lower ensures !IsAsciiUpper(ch) {
        var i :| 0 <= i < |lower| && lower[i] == ch;
      }
    }
    RemoveChar(lower, '_')
  }

  /** A display name already in lower case and without underscores is its own key. */
  lemma PartyKeyOfPlainName(displayName: string)
    requires forall i :: 0 <= i < |displayName| ==> displayName[i] != '_' && !IsAsciiUpper(displayName[i])
    ensures PartyKey(displayName) == displayName
  {
    assert ToLowerAscii(displayName) == displayName;
  }

  /** Letter case does not matter to the key. */
  lemma PartyKeyIgnoresCase(displayName: string)
    ensures PartyKey(ToLowerAscii(displayName)) == PartyKey(displayName)
  {
    ToLowerAsciiIdempotent(displayName);
  }

  /** Neither does an underscore anywhere in the display name. */
  lemma PartyKeyIgnoresUnderscore(front: string, back: string)
    ensures PartyKey(front + "_" + back) == PartyKey(front + back)
  {
    var lf, lb := ToLowerAscii(front), ToLowerAscii(back);
    ToLowerAsciiAppend(front + "_", back);
    ToLowerAsciiAppend(front, "_");
    ToLowerAsciiAppend(front, back);
    assert ToLowerAscii("_") == "_";
    assert ToLowerAscii(front + "_" + back) == (lf + "_") + lb;
    assert RemoveChar("_", '_') == [] by {
      assert "_"[1..] == [];
    }
    calc {
      RemoveChar((lf + "_") + lb, '_');
      { RemoveCharAppend(lf + "_", lb, '_'); }
      RemoveChar(lf + "_", '_') + RemoveChar(lb, '_');
      { RemoveCharAppend(lf, "_", '_'); }
      RemoveChar(lf, '_') + RemoveChar(lb, '_');
      { RemoveCharAppend(lf, lb, '_'); }
      RemoveChar(lf + lb, '_');
    }
  }

  /** The assignments `parties[key] = p.partyId` the loop makes, in order. */
  function PartyAssignments(ps: seq<LedgerParty>): (kvs: seq<(string, string)>)
    ensures |kvs| == |ps|
    ensures forall i :: 0 <= i < |ps| ==> kvs[i] == (PartyKey(ps[i].displayName), ps[i].partyId)
  {
    seq(|ps|, i requires 0 <= i < |ps| => (PartyKey(ps[i].displayName), ps[i].partyId))
  }

  lemma PartyAssignmentsSnoc(ps: seq<LedgerParty>, i: nat)
    requires i < |ps|
    ensures PartyAssignments(ps[..i + 1]) ==
      PartyAssignments(ps[..i]) + [(PartyKey(ps[i].displayName), ps[i].partyId)]
  {
    var a, b := PartyAssignments(ps[..i + 1]), PartyAssignments(ps[..i]) + [(PartyKey(ps[i].displayName), ps[i].partyId)];
    assert |a| == |b|;
    forall j | 0 <= j < |a| ensures a[j] == b[j] {
      if j < i {
        assert ps[..i + 1][j] == ps[..i][j];
      }
    }
  }

  /** A party is reachable under its key unless a later party in the same
      response has the same key, in which case the later one overwrites it. */
  lemma LoadedPartyLastWins(m: map<string, string>, ps: seq<LedgerParty>, i: nat)
    requires i < |ps|
    requires forall j :: i < j < |ps| ==> PartyKey(ps[j].displayName) != PartyKey(ps[i].displayName)
    ensures var loaded := Overwrite(m, PartyAssignments(ps));
      PartyKey(ps[i].displayName) in loaded && loaded[PartyKey(ps[i].displayName)] == ps[i].partyId
  {
    OverwriteLastWins(m, PartyAssignments(ps), i);
  }

  /** A key no listed party normalises to keeps its old entry, or stays absent. */
  lemma LoadedPartyUntouched(m: map<string, string>, ps: seq<LedgerParty>, k: string)
    requires forall i :: 0 <= i < |ps| ==> PartyKey(ps[i].displayName) != k
    ensures k in Overwrite(m, PartyAssignments(ps)) <==> k in m
    ensures k in m ==> Overwrite(m, PartyAssignments(ps))[k] == m[k]
  {
    OverwriteUntouched(m, PartyAssignments(ps), k);
  }

  /** After a load the keys are the old keys plus the listed parties' keys. */
  lemma LoadedPartyKeys(m: map<string, string>, ps: seq<LedgerParty>)
    ensures Overwrite(m, PartyAssignments(ps)).Keys == m.Keys + (set i | 0 <= i < |ps| :: PartyKey(ps[i].displayName))
  {
    var kvs := PartyAssignments(ps);
    OverwriteKeys(m, kvs);
    assert (set i | 0 <= i < |kvs| :: kvs[i].0) == (set i | 0 <= i < |ps| :: PartyKey(ps[i].displayName));
  }

  /** The module-level `parties` object. */
  class PartyRegistry {
    var parties: map<string, string>

    constructor ()
      ensures parties == map[]
    {
      parties := map[];
    }

    /** `loadParties()`: `listed` is `res.parties`, `None` when absent. */
    method LoadParties(listed: Option<seq<LedgerParty>>)
      modifies this
      ensures parties == Overwrite(old(parties), PartyAssignments(listed.GetOr([])))
    {
      var ps := listed.GetOr([]);
      ghost var start := parties;
      for i := 0 to |ps|
        invariant parties == Overwrite(start, PartyAssignments(ps[..i]))
      {
        var key := PartyKey(ps[i].displayName);
        PartyAssignmentsSnoc(ps, i);
        OverwriteAppend(start, PartyAssignments(ps[..i]), (key, ps[i].partyId));
        parties := parties[key := ps[i].partyId];
      }
      assert ps[..|ps|] == ps;
    }
  }

  /** One element of the `/api/parties` list. */
  datatype PartyView = PartyView(name: string, identifier: string, isRegulator: bool)

  /** `GET /api/parties`: `(result.parties || []).map(...)`. */
  function PartyList(listed: Option<seq<LedgerParty>>): (views: seq<PartyView>)
    ensures |views| == |listed.GetOr([])|
    ensures forall i :: 0 <= i < |views| ==>
      var p := listed.value[i];
      && views[i].name == ReplaceChar(p.displayName, '_', ' ')
      && '_' !in views[i].name
      && views[i].identifier == p.partyId
      && (views[i].isRegulator <==> p.displayName == "FinCEN")
  {
    var ps := listed.GetOr([]);
    seq(|ps|, i requires 0 <= i < |ps| =>
      PartyView(ReplaceChar(ps[i].displayName, '_', ' '), ps[i].partyId, ps[i].displayName == "FinCEN"))
  }

  /** Exactly the FinCEN party is flagged as the regulator; no display name
      with an underscore is. */
  lemma OnlyFinCENRegulates(listed: Option<seq<LedgerParty>>, i: nat)
    requires i < |listed.GetOr([])|
    requires '_' in listed.value[i].displayName
    ensures !PartyList(listed)[i].isRegulator
  {
  }

  // ---------------------------------------------------------------- demo run

  const HighProfile := Profile(0.78, 0.12)
  const MediumProfile := Profile(0.55, 0.15)
  const LowProfile := Profile(0.28, 0.12)

  /** `scenarios[scenario] || scenarios.high` with `scenario` defaulting to
      'high'; a scenario named after an inherited member of the table has no
      profile (`None`). */
  function ProfileFor(scenario: Option<string>): (p: Option<Profile>)
    ensures p.None? <==> scenario.Some? && InheritedName(scenario.value)
    ensures scenario == Some("medium") ==> p == Some(MediumProfile)
    ensures scenario == Some("low") ==> p == Some(LowProfile)
    ensures p.Some? && scenario != Some("medium") && scenario != Some("low") ==> p == Some(HighProfile)
  {
    var id := scenario.GetOr("high");
    if id == "medium" then Some(MediumProfile)
    else if id == "low" then Some(LowProfile)
    else if InheritedName(id) then None
    else Some(HighProfile)
  }

  /** `Math.min(0.95, Math.max(0.15, raw))`: the clamp is applied to the
      fraction, before it is turned into a percentage. */
  function Confidence(p: Profile, u: real): (c: real)
    ensures 0.15 <= c <= 0.95
    ensures 0.15 <= RawConfidence(p, u) <= 0.95 ==> c == RawConfidence(p, u)
    ensures RawConfidence(p, u) < 0.15 ==> c == 0.15
    ensures RawConfidence(p, u) > 0.95 ==> c == 0.95
  {
    var raw := RawConfidence(p, u);
    if raw > 0.95 then 0.95 else if raw < 0.15 then 0.15 else raw
  }

  /** `Math.round(confidence * 100)` for a clamped confidence. */
  function Percent(c: real): (pct: int)
    requires 0.15 <= c <= 0.95
    ensures 15 <= pct <= 95
    ensures c * 100.0 - 0.5 < pct as real <= c * 100.0 + 0.5
  {
    Round(c * 100.0)
  }

  /** One entry of `bankConfig`. */
  datatype StakeHolder = StakeHolder(key: string, name: string, stake: int, isRegulator: bool)

  const BankConfig: seq<StakeHolder> := [
    StakeHolder("bankofamerica", "Bank of America", 200, false),
    StakeHolder("wellsfargo", "Wells Fargo", 150, false),
    StakeHolder("citibank", "Citibank", 120, false),
    StakeHolder("jpmorganchase", "JPMorgan Chase", 250, false),
    StakeHolder("fincen", "FinCEN", 300, true)]

  /** What the ledger answers to one `SubmitVote` exercise. */
  datatype VoteReply = VoteReply(createdContractIds: Option<seq<string>>, transactionId: Option<string>)

  /** What the ledger answers to the market creation. */
  datatype CreateReply = CreateReply(contractId: Option<string>)

  /** `voteRes.createdContractIds?.[0]` is truthy: a non-empty first id. */
  predicate CreatesContract(r: VoteReply) {
    r.createdContractIds.Some? && |r.createdContractIds.value| > 0 && r.createdContractIds.value[0] != ""
  }

  /** The contract id after one vote. */
  function NextContractId(current: Option<string>, r: VoteReply): Option<string> {
    if CreatesContract(r) then Some(r.createdContractIds.value[0]) else current
  }

  /** The contract id after the votes `rs`, starting from `init`. */
  function ThreadContractId(init: Option<string>, rs: seq<VoteReply>): Option<string>
    decreases |rs|
  {
    if |rs| == 0 then init
    else NextContractId(ThreadContractId(init, rs[..|rs| - 1]), rs[|rs| - 1])
  }

  /** When no vote creates a contract, the market's original id survives. */
  lemma {:induction false} ThreadKeepsInitial(init: Option<string>, rs: seq<VoteReply>)
    requires forall i :: 0 <= i < |rs| ==> !CreatesContract(rs[i])
    ensures ThreadContractId(init, rs) == init
  {
    if |rs| > 0 {
      ThreadKeepsInitial(init, rs[..|rs| - 1]);
    }
  }

  /** Otherwise the final id is the first created id of the last vote that
      created one. */
  lemma {:induction false} ThreadTakesLastCreated(init: Option<string>, rs: seq<VoteReply>, i: nat)
    requires i < |rs| && CreatesContract(rs[i])
    requires forall j :: i < j < |rs| ==> !CreatesContract(rs[j])
    ensures ThreadContractId(init, rs) == Some(rs[i].createdContractIds.value[0])
  {
    if i < |rs| - 1 {
      ThreadTakesLastCreated(init, rs[..|rs| - 1], i);
    }
  }

  /** One entry of `votes`. */
  datatype Vote = Vote(bank: string, confidence: int, stake: int, isRegulator: bool, txId: Option<string>)

  function VoteFor(b: StakeHolder, p: Profile, u: real, r: VoteReply): Vote {
    Vote(b.name, Percent(Confidence(p, u)), b.stake, b.isRegulator, r.transactionId)
  }

  /** The five votes, in `bankConfig` order. */
  function TenzroVotes(p: Profile, draws: seq<real>, rs: seq<VoteReply>): (votes: seq<Vote>)
    requires |draws| == 5 && |rs| == 5
    ensures |votes| == 5
    ensures forall i :: 0 <= i < 5 ==>
      && votes[i].bank == BankConfig[i].name
      && votes[i].stake == BankConfig[i].stake
      && 15 <= votes[i].confidence <= 95
      && votes[i].confidence == Percent(Confidence(p, draws[i]))
      && (votes[i].isRegulator <==> i == 4)
      && votes[i].txId == rs[i].transactionId
  {
    seq(5, i requires 0 <= i < 5 => VoteFor(BankConfig[i], p, draws[i], rs[i]))
  }

  function StakeOf(v: Vote): real { v.stake as real }

  function ConfidenceOf(v: Vote): real { v.confidence as real }

  function StakeTerm(v: Vote): real { ConfidenceOf(v) / 100.0 * StakeOf(v) }

  /** `votes.reduce((s, v) => s + v.stake, 0)`: every vote, regulator included. */
  function TotalStake(votes: seq<Vote>): real {
    SumBy(votes, StakeOf)
  }

  /** `Math.round((weightedSum / totalStake) * 1000) / 10` over every vote. */
  function StakeScore(votes: seq<Vote>): real
    requires TotalStake(votes) != 0.0
  {
    OneDecimal(SumBy(votes, StakeTerm) / TotalStake(votes))
  }

  /** `riskScore >= 80 ? 'BLOCK' : riskScore >= 60 ? 'REVIEW' : 'APPROVE'`. */
  function ActionFor(score: real): (a: Action)
    ensures a == Block <==> score >= 80.0
    ensures a == Review <==> 60.0 <= score < 80.0
    ensures a == Approve <==> score < 60.0
  {
    if score >= 80.0 then Block else if score >= 60.0 then Review else Approve
  }

  lemma SumOfFive(votes: seq<Vote>, f: Vote -> real)
    requires |votes| == 5
    ensures SumBy(votes[..4], f) == f(votes[0]) + f(votes[1]) + f(votes[2]) + f(votes[3])
    ensures SumBy(votes, f) == SumBy(votes[..4], f) + f(votes[4])
  {
    assert votes[..0] == [];
    SumByStep(votes, 0, f);
    SumByStep(votes, 1, f);
    SumByStep(votes, 2, f);
    SumByStep(votes, 3, f);
    SumByStep(votes, 4, f);
    assert votes[..5] == votes;
  }

  /** The five stakes sum to 1020, FinCEN's 300 included. */
  lemma TenzroTotalStake(p: Profile, draws: seq<real>, rs: seq<VoteReply>)
    requires |draws| == 5 && |rs| == 5
    ensures TotalStake(TenzroVotes(p, draws, rs)) == 1020.0
  {
    var votes := TenzroVotes(p, draws, rs);
    SumOfFive(votes, StakeOf);
    assert votes[0].stake == 200 && votes[1].stake == 150 && votes[2].stake == 120;
    assert votes[3].stake == 250 && votes[4].stake == 300;
  }

  /** The score is the one-decimal stake-weighted mean of all five
      confidences, and lies in [15, 95]. */
  lemma TenzroScoreBounds(p: Profile, draws: seq<real>, rs: seq<VoteReply>)
    requires |draws| == 5 && |rs| == 5
    ensures var votes := TenzroVotes(p, draws, rs);
      && TotalStake(votes) == 1020.0
      && 15.0 <= StakeScore(votes) <= 95.0
  {
    var votes := TenzroVotes(p, draws, rs);
    TenzroTotalStake(p, draws, rs);
    forall v | v in votes ensures StakeOf(v) >= 0.0 && 15.0 <= ConfidenceOf(v) <= 95.0 {
      var i :| 0 <= i < 5 && votes[i] == v;
    }
    StakeScoreWithin(votes, 15, 95);
  }

  /** Votes with non-negative stakes and confidences between two whole
      numbers score between them. */
  lemma StakeScoreWithin(votes: seq<Vote>, lo: int, hi: int)
    requires forall v :: v in votes ==> StakeOf(v) >= 0.0 && lo as real <= ConfidenceOf(v) <= hi as real
    requires TotalStake(votes) > 0.0
    ensures lo as real <= StakeScore(votes) <= hi as real
  {
    ScoreWithin(votes, StakeOf, ConfidenceOf, StakeTerm, lo, hi);
  }

  /** The replies and draws of the example run: every bank draws 0.5 and
      FinCEN draws 0.99. */
  const ExampleReplies: seq<VoteReply> := seq(5, i => VoteReply(None, None))
  const ExampleDraws: seq<real> := [0.5, 0.5, 0.5, 0.5, 0.99]

  lemma ExampleVotes()
    ensures var votes := TenzroVotes(HighProfile, ExampleDraws, ExampleReplies);
      && votes[4].confidence == 90
      && (forall i :: 0 <= i < 4 ==> votes[i].confidence == 78)
  {
    assert Confidence(HighProfile, 0.5) == 0.78;
    assert Confidence(HighProfile, 0.99) == 0.8976;
  }

  /** With the four banks at 78 and FinCEN at 90 the run scores 81.5. */
  lemma ExampleScore()
    ensures var votes := TenzroVotes(HighProfile, ExampleDraws, ExampleReplies);
      TotalStake(votes) == 1020.0 && StakeScore(votes) == 81.5
  {
    var votes := TenzroVotes(HighProfile, ExampleDraws, ExampleReplies);
    ExampleVotes();
    SumOfFive(votes, StakeOf);
    SumOfFive(votes, StakeTerm);
    assert TotalStake(votes) == 1020.0 && SumBy(votes, StakeTerm) == 831.6;
    OneDecimalExact(831.6 / 1020.0, 815);
  }

  /** The four banks of the same run, alone, score 78.0. */
  lemma ExampleBanksScore()
    ensures var votes := TenzroVotes(HighProfile, ExampleDraws, ExampleReplies);
      TotalStake(votes[..4]) == 720.0 && StakeScore(votes[..4]) == 78.0
  {
    var votes := TenzroVotes(HighProfile, ExampleDraws, ExampleReplies);
    ExampleVotes();
    SumOfFive(votes, StakeOf);
    SumOfFive(votes, StakeTerm);
    assert TotalStake(votes[..4]) == 720.0 && SumBy(votes[..4], StakeTerm) == 561.6;
    OneDecimalExact(561.6 / 720.0, 780);
  }

  /** The regulator's stake weighs in: with the four banks at 78 and FinCEN at
      90 the run is blocked at 81.5, while the banks alone would score 78.0
      and only be reviewed. */
  lemma RegulatorTipsTheAction()
    ensures var votes := TenzroVotes(HighProfile, ExampleDraws, ExampleReplies);
      && votes[4].confidence == 90
      && (forall i :: 0 <= i < 4 ==> votes[i].confidence == 78)
      && TotalStake(votes) == 1020.0
      && StakeScore(votes) == 81.5 && ActionFor(StakeScore(votes)) == Block
      && TotalStake(votes[..4]) != 0.0
      && StakeScore(votes[..4]) == 78.0 && ActionFor(StakeScore(votes[..4])) == Review
  {
    ExampleVotes();
    ExampleScore();
    ExampleBanksScore();
  }

  /** The market object of a successful run. */
  datatype Market = Market(marketId: string, transactionId: string, contractId: Option<string>,
                           votes: seq<Vote>, riskScore: real, action: Action)

  datatype DemoResponse =
    | DemoOk(market: Market)
      /** A run for a scenario with no profile: every confidence is NaN (the
          votes go out with `null` confidences and the risk score is `null`),
          and as `NaN >= 80` and `NaN >= 60` are both false the action is
          APPROVE. */
    | DemoUnscored(marketId: string, transactionId: string, contractId: Option<string>, action: Action)
    | DemoFailed

  /** The vote replies, once every exercise succeeded. */
  function ReplyValues(replies: seq<Option<VoteReply>>): (rs: seq<VoteReply>)
    requires forall i :: 0 <= i < |replies| ==> replies[i].Some?
    ensures |rs| == |replies| && forall i :: 0 <= i < |rs| ==> replies[i] == Some(rs[i])
  {
    seq(|replies|, i requires 0 <= i < |replies| => replies[i].value)
  }

  /** What `POST /api/demo` answers: `created` is the creation reply and
      `replies` the five exercise replies, `None` where the call threw. */
  function DemoOutcome(scenario: Option<string>, txId: string, marketId: string, created: Option<CreateReply>,
                       draws: seq<real>, replies: seq<Option<VoteReply>>): (resp: DemoResponse)
    requires |draws| == 5 && |replies| == 5
    ensures resp.DemoFailed? <==> created.None? || exists i :: 0 <= i < 5 && replies[i].None?
    ensures resp.DemoUnscored? <==> !resp.DemoFailed? && ProfileFor(scenario).None?
    ensures resp.DemoUnscored? ==>
      resp == DemoUnscored(marketId, txId, ThreadContractId(created.value.contractId, ReplyValues(replies)), Approve)
    ensures resp.DemoOk? ==>
      var rs := ReplyValues(replies);
      var votes := TenzroVotes(ProfileFor(scenario).value, draws, rs);
      && resp.market.votes == votes
      && resp.market.contractId == ThreadContractId(created.value.contractId, rs)
      && resp.market.transactionId == txId && resp.market.marketId == marketId
      && TotalStake(votes) == 1020.0
      && resp.market.riskScore == StakeScore(votes)
      && 15.0 <= resp.market.riskScore <= 95.0
      && resp.market.action == ActionFor(resp.market.riskScore)
  {
    if created.None? || exists i :: 0 <= i < 5 && replies[i].None? then DemoFailed
    else
      var rs := ReplyValues(replies);
      match ProfileFor(scenario)
      case None => DemoUnscored(marketId, txId, ThreadContractId(created.value.contractId, rs), Approve)
      case Some(p) =>
        var votes := TenzroVotes(p, draws, rs);
        TenzroScoreBounds(p, draws, rs);
        var score := StakeScore(votes);
        DemoOk(Market(marketId, txId, ThreadContractId(created.value.contractId, rs), votes, score, ActionFor(score)))
  }

  /** The votes pushed once the replies `rs` have come back. */
  function VotesSoFar(p: Profile, draws: seq<real>, rs: seq<VoteReply>): (votes: seq<Vote>)
    requires |draws| == 5 && |rs| <= 5
    ensures |votes| == |rs|
    decreases |rs|
  {
    if |rs| == 0 then []
    else
      var i := |rs| - 1;
      VotesSoFar(p, draws, rs[..i]) + [VoteFor(BankConfig[i], p, draws[i], rs[i])]
  }

  /** After all five replies the pushed votes are the five votes of the run. */
  lemma {:induction false} VotesSoFarComplete(p: Profile, draws: seq<real>, rs: seq<VoteReply>)
    requires |draws| == 5 && |rs| == 5
    ensures VotesSoFar(p, draws, rs) == TenzroVotes(p, draws, rs)
  {
    VotesSoFarAt(p, draws, rs);
  }

  lemma {:induction false} VotesSoFarAt(p: Profile, draws: seq<real>, rs: seq<VoteReply>)
    requires |draws| == 5 && |rs| <= 5
    ensures forall j :: 0 <= j < |rs| ==> VotesSoFar(p, draws, rs)[j] == VoteFor(BankConfig[j], p, draws[j], rs[j])
    decreases |rs|
  {
    if |rs| > 0 {
      var i := |rs| - 1;
      VotesSoFarAt(p, draws, rs[..i]);
    }
  }

  /** The vote loop: one vote per configured party, pushed in order, with the
      contract id threaded through the exercises; it stops at the first
      exercise that throws. With no profile (`p` is `None`) the confidences
      are NaN and no vote is kept. */
  method CastVotes(p: Option<Profile>, init: Option<string>, draws: seq<real>, replies: seq<Option<VoteReply>>)
    returns (ok: bool, contractId: Option<string>, votes: seq<Vote>)
    requires |draws| == 5 && |replies| == 5
    ensures ok <==> forall i :: 0 <= i < 5 ==> replies[i].Some?
    ensures ok ==> contractId == ThreadContractId(init, ReplyValues(replies))
    ensures ok && p.Some? ==> votes == TenzroVotes(p.value, draws, ReplyValues(replies))
    ensures p.None? ==> votes == []
  {
    contractId := init;
    votes := [];
    ghost var rs: seq<VoteReply> := [];
    for i := 0 to 5
      invariant |rs| == i && forall j :: 0 <= j < i ==> replies[j] == Some(rs[j])
      invariant contractId == ThreadContractId(init, rs)
      invariant votes == if p.Some? then VotesSoFar(p.value, draws, rs) else []
    {
      if replies[i].None? {
        return false, contractId, votes;
      }
      var r := replies[i].value;
      assert (rs + [r])[..i] == rs;
      contractId := NextContractId(contractId, r);
      if p.Some? {
        votes := votes + [VoteFor(BankConfig[i], p.value, draws[i], r)];
      }
      rs := rs + [r];
    }
    assert rs == ReplyValues(replies);
    if p.Some? {
      VotesSoFarComplete(p.value, draws, rs);
    }
    ok := true;
  }

  /** The handler body: create the market, cast the votes, then score them. */
  method RunDemo(scenario: Option<string>, txId: string, marketId: string, created: Option<CreateReply>,
                 draws: seq<real>, replies: seq<Option<VoteReply>>) returns (resp: DemoResponse)
    requires |draws| == 5 && |replies| == 5
    ensures resp == DemoOutcome(scenario, txId, marketId, created, draws, replies)
  {
    var p := ProfileFor(scenario);
    if created.None? {
      return DemoFailed;
    }
    var ok, contractId, votes := CastVotes(p, created.value.contractId, draws, replies);
    if !ok {
      return DemoFailed;
    }
    if p.None? {
      return DemoUnscored(marketId, txId, contractId, Approve);
    }
    TenzroScoreBounds(p.value, draws, ReplyValues(replies));
    var riskScore := StakeScore(votes);
    resp := DemoOk(Market(marketId, txId, contractId, votes, riskScore, ActionFor(riskScore)));
  }
}
