/** The DevNet dashboard (`canton-devnet-demo/demo-ui/src/App.tsx`): a run is
    started, then advanced by the "Next Step" button through the votes
    (step 2) to the verdict (step 3), and every stage prepends entries to an
    audit log; a score of at least 80 files a suspicious-activity report
    (SAR). */
module DevnetConsole {
  import opened Wrappers
  import opened Aggregation
  import opened Tables

  datatype Scenario = Scenario(id: string, title: string, amount: string, destination: string)

  const Scenarios: seq<Scenario> := [
    Scenario("high", "Crypto Wire Transfer", "$25,000", "Binance (Crypto Exchange)"),
    Scenario("medium", "International Wire", "$12,500", "Dubai Investment LLC"),
    Scenario("low", "Domestic Transfer", "$3,200", "Verified Merchant")]

  /** `SCENARIOS.find(s => s.id === scenarioId) || SCENARIOS[0]`. */
  function ScenarioFor(id: string): Scenario {
    Find(Scenarios, (c: Scenario) => c.id == id).GetOr(Scenarios[0])
  }

  /** A listed id selects its own scenario; any other id the first one. */
  lemma ScenarioLookup(id: string)
    ensures ScenarioFor(id) in Scenarios
    ensures (exists i :: 0 <= i < |Scenarios| && Scenarios[i].id == id) ==> ScenarioFor(id).id == id
    ensures (forall i :: 0 <= i < |Scenarios| ==> Scenarios[i].id != id) ==> ScenarioFor(id) == Scenarios[0]
  {
  }

  /** `getDecision`: BLOCK TRANSACTION, ENHANCED DUE DILIGENCE (`Review`) or
      APPROVE TRANSACTION, by inclusive thresholds 80 and 60. */
  function GetDecision(score: real): (a: Action)
    ensures a == Block <==> score >= 80.0
    ensures a == Review <==> 60.0 <= score < 80.0
    ensures a == Approve <==> score < 60.0
  {
    if score >= 80.0 then Block else if score >= 60.0 then Review else Approve
  }

  datatype VoteSummary = VoteSummary(bank: string, confidence: real, stake: Option<real>)

  datatype MarketResult = MarketResult(transactionId: string, votes: seq<VoteSummary>, riskScore: real)

  datatype EntryKind = PatternMatched | VoteSubmitted | SarFiled | MarketClosed

  /** The `detail` text of an entry, kept as the values it is formatted from. */
  datatype Detail =
    | MatchedPattern(title: string)
    | VoteDetail(confidence: real, stake: Option<real>)
    | SarDetail(riskScore: real)
    | ClosedDetail(shownScore: Option<real>)

  datatype AuditEntry = AuditEntry(time: string, kind: EntryKind, bank: string, tx: string, detail: Detail)

  /** The entry a successful `startDemo` writes. */
  function PatternEntry(mr: MarketResult, title: string, now: string): AuditEntry {
    AuditEntry(now, PatternMatched, "System", mr.transactionId, MatchedPattern(title))
  }

  /** `marketResult?.votes.map(v => ...) || []`: one entry per vote. */
  function VoteEntries(mr: Option<MarketResult>, now: string): (log: seq<AuditEntry>)
    ensures mr.None? ==> log == []
    ensures mr.Some? ==> |log| == |mr.value.votes|
    ensures forall i :: 0 <= i < |log| ==>
      && log[i].kind == VoteSubmitted
      && log[i].bank == mr.value.votes[i].bank
      && log[i].tx == mr.value.transactionId
      && log[i].detail == VoteDetail(mr.value.votes[i].confidence, mr.value.votes[i].stake)
  {
    match mr
    case None => []
    case Some(m) =>
      seq(|m.votes|, i requires 0 <= i < |m.votes| =>
        AuditEntry(now, VoteSubmitted, m.votes[i].bank, m.transactionId,
                   VoteDetail(m.votes[i].confidence, m.votes[i].stake)))
  }

  /** A score that triggers the automatic SAR. */
  predicate FilesSar(mr: Option<MarketResult>) {
    mr.Some? && mr.value.riskScore >= 80.0
  }

  /** The entries closing a run: a SAR filed by JPMorgan Chase when the score
      is at least 80, then MARKET_CLOSED. */
  function CloseEntries(mr: Option<MarketResult>, now: string): (log: seq<AuditEntry>)
    ensures |log| == (if FilesSar(mr) then 2 else 1)
    ensures log[|log| - 1].kind == MarketClosed && log[|log| - 1].bank == "System"
    ensures log[|log| - 1].tx == (if mr.Some? then mr.value.transactionId else "")
    ensures FilesSar(mr) ==>
      log[0] == AuditEntry(now, SarFiled, "JPMorgan Chase", mr.value.transactionId, SarDetail(mr.value.riskScore))
  {
    var closed := AuditEntry(now, MarketClosed, "System", if mr.Some? then mr.value.transactionId else "",
                             ClosedDetail(if mr.Some? then Some(mr.value.riskScore) else None));
    if FilesSar(mr) then
      [AuditEntry(now, SarFiled, "JPMorgan Chase", mr.value.transactionId, SarDetail(mr.value.riskScore)), closed]
    else [closed]
  }

  /** The number of entries of one kind. */
  function CountKind(log: seq<AuditEntry>, k: EntryKind): nat
    decreases |log|
  {
    if |log| == 0 then 0
    else CountKind(log[..|log| - 1], k) + (if log[|log| - 1].kind == k then 1 else 0)
  }

  lemma {:induction false} CountKindAppend(a: seq<AuditEntry>, b: seq<AuditEntry>, k: EntryKind)
    ensures CountKind(a + b, k) == CountKind(a, k) + CountKind(b, k)
    decreases |b|
  {
    if |b| > 0 {
      assert (a + b)[..|a + b| - 1] == a + b[..|b| - 1];
      CountKindAppend(a, b[..|b| - 1], k);
    } else {
      assert a + b == a;
    }
  }

  lemma {:induction false} CountKindAbsent(log: seq<AuditEntry>, k: EntryKind)
    requires forall i :: 0 <= i < |log| ==> log[i].kind != k
    ensures CountKind(log, k) == 0
    decreases |log|
  {
    if |log| > 0 {
      CountKindAbsent(log[..|log| - 1], k);
    }
  }

  /** Closing a run files exactly one SAR when the score is at least 80 and
      none otherwise; the vote entries never file one. */
  lemma SarsFiledOnClose(mr: Option<MarketResult>, now: string)
    ensures CountKind(CloseEntries(mr, now), SarFiled) == (if FilesSar(mr) then 1 else 0)
    ensures CountKind(VoteEntries(mr, now), SarFiled) == 0
  {
    var log := CloseEntries(mr, now);
    if FilesSar(mr) {
      assert log[..1] == [log[0]] && [log[0]][..0] == [];
      assert CountKind([log[0]], SarFiled) == 1;
      assert CountKind(log, SarFiled) == CountKind(log[..1], SarFiled);
    } else {
      assert log[..0] == [];
      assert CountKind(log, SarFiled) == CountKind(log[..0], SarFiled);
    }
    CountKindAbsent(VoteEntries(mr, now), SarFiled);
  }

  /** The dashboard's state. */
  class Console {
    var scenarioId: string
    var step: int
    var marketResult: Option<MarketResult>
    var revealed: seq<int>
    var auditLog: seq<AuditEntry>

    /** The step stays in 0..3, and the log holds at most one SAR, only at the
        verdict of a run whose score is at least 80. */
    ghost predicate Valid()
      reads this
    {
      && 0 <= step <= 3
      && CountKind(auditLog, SarFiled) <= 1
      && (CountKind(auditLog, SarFiled) == 1 ==> step == 3 && FilesSar(marketResult))
    }

    constructor ()
      ensures Valid()
      ensures scenarioId == "high" && step == 0 && marketResult == None && revealed == [] && auditLog == []
    {
      scenarioId := "high";
      step := 0;
      marketResult := None;
      revealed := [];
      auditLog := [];
    }

    /** The "Active SARs" statistic. */
    function ActiveSars(): (n: int)
      reads this
      ensures n == 1 <==> step >= 3 && FilesSar(marketResult)
      ensures n == 0 || n == 1
    {
      if step >= 3 && marketResult.Some? && marketResult.value.riskScore >= 80.0 then 1 else 0
    }

    /** The "SAR Auto-Filed" card of the verdict. */
    predicate SarCardShown()
      reads this
    {
      step >= 3 && marketResult.Some? && marketResult.value.riskScore >= 80.0
    }

    /** A SAR in the audit log is always counted by "Active SARs" and shown
        on the verdict card. */
    lemma FiledSarIsCounted()
      requires Valid()
      ensures CountKind(auditLog, SarFiled) == 1 ==> ActiveSars() == 1 && SarCardShown()
      ensures CountKind(auditLog, SarFiled) <= ActiveSars()
    {
    }

    /** `reset`. */
    method Reset()
      requires Valid()
      modifies this`step, this`marketResult, this`revealed, this`auditLog
      ensures Valid()
      ensures step == 0 && marketResult == None && revealed == [] && auditLog == []
      ensures ActiveSars() == 0
    {
      step := 0;
      marketResult := None;
      revealed := [];
      auditLog := [];
    }

    /** The scenario select: it also resets the run. */
    method SelectScenario(id: string)
      requires Valid()
      modifies this
      ensures Valid()
      ensures scenarioId == id && step == 0 && marketResult == None && revealed == [] && auditLog == []
    {
      scenarioId := id;
      Reset();
    }

    /** `startDemo` up to its request; its button is shown only at step 0. */
    method StartDemo()
      requires Valid() && step == 0
      modifies this`step, this`auditLog
      ensures Valid()
      ensures step == 1 && auditLog == []
    {
      step := 1;
      auditLog := [];
    }

    /** The scenario the page shows. */
    function CurrentScenario(): Scenario
      reads this
    {
      ScenarioFor(scenarioId)
    }

    /** The reply to `startDemo`'s request: `reply` is `data.market` when
        `data.success`; `title` is `scenario.title` as it was in the render
        whose `startDemo` closure sent the request, which a scenario switch
        during the request does not change (the caller passes that value,
        not `CurrentScenario().title` at reply time). The log becomes the single PATTERN_MATCHED entry, and
        from step 2 on the reveal effect starts over. */
    method ReceiveMarket(reply: Option<MarketResult>, title: string, now: string)
      requires Valid()
      modifies this`marketResult, this`auditLog, this`revealed
      ensures Valid()
      ensures reply.None? ==> marketResult == old(marketResult) && auditLog == old(auditLog) && revealed == old(revealed)
      ensures reply.Some? ==>
        && marketResult == reply
        && auditLog == [PatternEntry(reply.value, title, now)]
        && (step >= 2 ==> revealed == [])
        && (step < 2 ==> revealed == old(revealed))
    {
      if reply.Some? {
        var entry := PatternEntry(reply.value, title, now);
        CountKindAbsent([entry], SarFiled);
        marketResult := reply;
        auditLog := [entry];
        if step >= 2 {
          revealed := [];
        }
      }
    }

    /** One of the per-vote reveal timers fires; they are never cancelled. */
    method RevealTimer(i: nat)
      requires Valid()
      modifies this`revealed
      ensures Valid() && revealed == old(revealed) + [i]
    {
      revealed := revealed + [i];
    }

    /** `nextStep` at time `now`. */
    method NextStep(now: string)
      requires Valid()
      modifies this`step, this`auditLog, this`revealed
      ensures Valid()
      ensures old(step) == 1 ==> step == 2 && auditLog == VoteEntries(marketResult, now) + old(auditLog)
      ensures old(step) == 2 ==> step == 3 && auditLog == CloseEntries(marketResult, now) + old(auditLog)
      ensures old(step) == 1 || old(step) == 2 ==>
        (marketResult.Some? ==> revealed == []) && (marketResult.None? ==> revealed == old(revealed))
      ensures old(step) != 1 && old(step) != 2 ==>
        step == old(step) && auditLog == old(auditLog) && revealed == old(revealed)
    {
      if step == 1 {
        step := 2;
        SarsFiledOnClose(marketResult, now);
        CountKindAppend(VoteEntries(marketResult, now), auditLog, SarFiled);
        auditLog := VoteEntries(marketResult, now) + auditLog;
      } else if step == 2 {
        step := 3;
        SarsFiledOnClose(marketResult, now);
        CountKindAppend(CloseEntries(marketResult, now), auditLog, SarFiled);
        auditLog := CloseEntries(marketResult, now) + auditLog;
      } else {
        return;
      }
      if marketResult.Some? {
        revealed := [];
      }
    }
  }

  /** A full run with a high score leaves PATTERN_MATCHED at the bottom of
      the log, the vote entries above it, and a SAR with MARKET_CLOSED on
      top; exactly one SAR is counted. */
  method FullRun(reply: MarketResult, title: string, t0: string, t1: string, t2: string) returns (c: Console)
    requires reply.riskScore >= 80.0
    ensures c.step == 3 && c.ActiveSars() == 1 && CountKind(c.auditLog, SarFiled) == 1
    ensures c.auditLog == CloseEntries(Some(reply), t2)
                          + (VoteEntries(Some(reply), t1) + [PatternEntry(reply, title, t0)])
  {
    c := new Console();
    c.StartDemo();
    c.ReceiveMarket(Some(reply), title, t0);
    ghost var start := c.auditLog;
    assert c.step == 1 && c.marketResult == Some(reply);
    c.NextStep(t1);
    ghost var votes := VoteEntries(Some(reply), t1);
    assert c.step == 2 && c.auditLog == votes + start;
    c.NextStep(t2);
    ghost var closing := CloseEntries(Some(reply), t2);
    assert c.step == 3 && c.auditLog == closing + (votes + start);
    SarsFiledOnClose(Some(reply), t2);
    CountKindAbsent(start, SarFiled);
    CountKindAppend(votes, start, SarFiled);
    CountKindAppend(closing, votes + start, SarFiled);
  }
}
