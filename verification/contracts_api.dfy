/** The `/api/contracts` handler (`frontend/api/contracts.js`): the ledger's
    active contracts projected to reputation and market summaries by a
    map / filter / map chain. */
module ContractsApi {
  import opened Wrappers
  import opened Text
  import opened Ledger

  /** The first `map` step's record. */
  datatype Mapped = Mapped(templateId: string, contractId: string, args: Args)

  /** The template-specific part of a summary. */
  datatype Details =
    | ReputationDetails(bank: string, reputationScore: real, accuracy: real)
    | MarketDetails(transactionId: Option<string>, isOpen: Option<bool>)

  /** One summary; `template` is `None` where `split(':')[1]` is undefined. */
  datatype ContractView = ContractView(contractId: string, template: Option<string>, details: Details)

  /** The JSON body: `success: true` with the counts and summaries, or the
      `catch` branch's `success: false` with `totalContracts: 0`. */
  datatype ContractsResponse =
    | ContractsOk(totalContracts: nat, contracts: seq<ContractView>)
    | ContractsFailed

  function ReportedTotal(r: ContractsResponse): nat {
    match r
    case ContractsOk(n, _) => n
    case ContractsFailed => 0
  }

  /** The first `map`: `null` for an entry whose `contractEntry` has no key,
      otherwise the created event's fields with `''` and `{}` defaults. */
  function MapEntry(e: LedgerEntry): (m: Option<Mapped>)
    ensures m.None? <==> e.contractEntry.None?
    ensures m.Some? ==> m.value.templateId == EventOf(e.contractEntry.value).templateId.GetOr("")
    ensures m.Some? ==> m.value.contractId == EventOf(e.contractEntry.value).contractId.GetOr("")
  {
    match e.contractEntry
    case None => None
    case Some(ac) =>
      var ce := EventOf(ac);
      Some(Mapped(ce.templateId.GetOr(""), ce.contractId.GetOr(""), ArgsOf(ce)))
  }

  function MapEntries(es: seq<LedgerEntry>): (ms: seq<Option<Mapped>>)
    ensures |ms| == |es|
    ensures forall i :: 0 <= i < |es| ==> ms[i] == MapEntry(es[i])
  {
    seq(|es|, i requires 0 <= i < |es| => MapEntry(es[i]))
  }

  /** The template test of the filter. */
  predicate Kept(c: Mapped) {
    Contains(c.templateId, ":BankReputation:") || Contains(c.templateId, ":PredictionMarket:")
  }

  /** The filter as written, `c && A || B`, which parses as `(c && A) || B`:
      for a `null` record `B` reads `null.templateId` and throws (`None`). */
  function FilterAsWritten(ms: seq<Option<Mapped>>): (r: Option<seq<Mapped>>)
    ensures r.None? <==> exists i :: 0 <= i < |ms| && ms[i].None?
  {
    if |ms| == 0 then Some([])
    else if ms[0].None? then None
    else
      var rest := FilterAsWritten(ms[1..]);
      assert forall i :: 1 <= i < |ms| ==> ms[i] == ms[1..][i - 1];
      if rest.None? then None
      else if Kept(ms[0].value) then Some([ms[0].value] + rest.value)
      else rest
  }

  /** The intended filter `c && (A || B)`: drops the `null` records and keeps
      the recognised templates, in input order. */
  function FilterKept(ms: seq<Option<Mapped>>): (r: seq<Mapped>)
    ensures |r| <= |ms|
    ensures forall c :: c in r <==> Some(c) in ms && Kept(c)
  {
    if |ms| == 0 then []
    else
      var rest := FilterKept(ms[1..]);
      assert forall x :: x in ms <==> x == ms[0] || x in ms[1..];
      if ms[0].Some? && Kept(ms[0].value) then [ms[0].value] + rest else rest
  }

  /** The intended filter keeps input order: filtering two parts and
      concatenating is filtering the whole. */
  lemma {:induction false} FilterKeptAppend(a: seq<Option<Mapped>>, b: seq<Option<Mapped>>)
    ensures FilterKept(a + b) == FilterKept(a) + FilterKept(b)
  {
    if |a| > 0 {
      var head := if a[0].Some? && Kept(a[0].value) then [a[0].value] else [];
      assert (a + b)[0] == a[0] && (a + b)[1..] == a[1..] + b;
      assert FilterKept(a + b) == head + FilterKept(a[1..] + b);
      assert FilterKept(a) == head + FilterKept(a[1..]);
      FilterKeptAppend(a[1..], b);
    } else {
      assert a + b == b;
    }
  }

  /** Without `null` records the written filter keeps what the intended one
      keeps, in the same order. */
  lemma {:induction false} FilterAgreesWithoutNulls(ms: seq<Option<Mapped>>)
    requires forall i :: 0 <= i < |ms| ==> ms[i].Some?
    ensures FilterAsWritten(ms) == Some(FilterKept(ms))
  {
    if |ms| > 0 {
      FilterAgreesWithoutNulls(ms[1..]);
    }
  }

  /** The last `map`: a 16-character id, the module name, and the
      template-specific fields. */
  function ViewOf(c: Mapped): (v: ContractView)
    ensures v.contractId == Prefix(c.contractId, 16)
    ensures v.template == SecondField(c.templateId, ':')
    ensures v.details.ReputationDetails? <==> v.template == Some("BankReputation")
    ensures v.details.ReputationDetails? ==> '_' !in v.details.bank && !Contains(v.details.bank, "::")
    ensures v.details.ReputationDetails? ==> v.details.bank == ReplaceChar(BankName(c.args), '_', ' ')
    ensures v.details.ReputationDetails? ==>
      v.details.reputationScore == ParsedOr(c.args.reputationScore, 0.0) &&
      v.details.accuracy == ParsedOr(c.args.accuracy, 0.0)
    ensures v.details.MarketDetails? ==>
      v.details == MarketDetails(c.args.transactionId, c.args.isOpen)
  {
    var template := SecondField(c.templateId, ':');
    var details :=
      if template == Some("BankReputation") then
        var name := BankName(c.args);
        ReplaceCreatesNoMatch(name, '_', ' ', "::");
        ReputationDetails(ReplaceChar(name, '_', ' '),
          ParsedOr(c.args.reputationScore, 0.0), ParsedOr(c.args.accuracy, 0.0))
      else MarketDetails(c.args.transactionId, c.args.isOpen);
    ContractView(Prefix(c.contractId, 16), template, details)
  }

  function Views(cs: seq<Mapped>): (vs: seq<ContractView>)
    ensures |vs| == |cs|
    ensures forall i :: 0 <= i < |cs| ==> vs[i] == ViewOf(cs[i])
  {
    seq(|cs|, i requires 0 <= i < |cs| => ViewOf(cs[i]))
  }

  /** The handler as written; `None` is a failed ledger call. */
  function ContractsHandler(reply: Option<ActiveContractsReply>): (r: ContractsResponse)
    ensures reply.None? ==> r == ContractsFailed
    ensures reply.Some? ==>
      (r.ContractsFailed? <==> exists e :: e in EntriesOf(reply.value) && e.contractEntry.None?)
    ensures r.ContractsOk? ==> r.totalContracts == |EntriesOf(reply.value)|
    ensures r.ContractsOk? ==> r.contracts == Views(FilterAsWritten(MapEntries(EntriesOf(reply.value))).value)
  {
    match reply
    case None => ContractsFailed
    case Some(data) =>
      var es := EntriesOf(data);
      var ms := MapEntries(es);
      assert forall e :: e in es && e.contractEntry.None? ==> exists i :: 0 <= i < |ms| && ms[i].None?;
      match FilterAsWritten(ms)
      case None => ContractsFailed
      case Some(kept) => ContractsOk(|es|, Views(kept))
  }

  /** The handler with the intended filter. */
  function CorrectedContractsHandler(reply: Option<ActiveContractsReply>): (r: ContractsResponse)
    ensures reply.None? <==> r == ContractsFailed
    ensures r.ContractsOk? ==> r.totalContracts == |EntriesOf(reply.value)|
    ensures r.ContractsOk? ==> |r.contracts| <= r.totalContracts
    ensures r.ContractsOk? ==> r.contracts == Views(FilterKept(MapEntries(EntriesOf(reply.value))))
  {
    match reply
    case None => ContractsFailed
    case Some(data) =>
      var es := EntriesOf(data);
      ContractsOk(|es|, Views(FilterKept(MapEntries(es))))
  }

  /** A non-array reply reports no contracts and succeeds. */
  lemma NonArrayIsEmpty()
    ensures ContractsHandler(Some(NotAnArray)) == ContractsOk(0, [])
  {
    assert FilterAsWritten(MapEntries([])) == Some([]);
  }

  /** Each reported summary comes from an entry with a recognised template. */
  lemma {:induction false} CorrectedKeepsRecognised(es: seq<LedgerEntry>, v: ContractView)
    requires v in CorrectedContractsHandler(Some(Entries(es))).contracts
    ensures exists i :: (0 <= i < |es| && MapEntry(es[i]).Some? &&
                         Kept(MapEntry(es[i]).value) && v == ViewOf(MapEntry(es[i]).value))
  {
    var ms := MapEntries(es);
    var kept := FilterKept(ms);
    var k :| 0 <= k < |kept| && Views(kept)[k] == v;
    assert kept[k] in kept;
    var i :| 0 <= i < |ms| && ms[i] == Some(kept[k]);
  }

  /** Conversely, every entry with a recognised template is reported. */
  lemma CorrectedReportsRecognised(es: seq<LedgerEntry>, i: nat)
    requires i < |es| && MapEntry(es[i]).Some? && Kept(MapEntry(es[i]).value)
    ensures ViewOf(MapEntry(es[i]).value) in CorrectedContractsHandler(Some(Entries(es))).contracts
  {
    var ms := MapEntries(es);
    var kept := FilterKept(ms);
    var c := MapEntry(es[i]).value;
    assert ms[i] == Some(c);
    assert c in kept;
    var k :| 0 <= k < |kept| && kept[k] == c;
    assert Views(kept)[k] == ViewOf(c);
  }

  /** Both handlers agree whenever every entry has a `contractEntry`. */
  lemma CorrectedAgreesWithoutNulls(reply: Option<ActiveContractsReply>)
    requires reply.Some? ==> forall e :: e in EntriesOf(reply.value) ==> e.contractEntry.Some?
    ensures ContractsHandler(reply) == CorrectedContractsHandler(reply)
  {
    if reply.Some? {
      var es := EntriesOf(reply.value);
      var ms := MapEntries(es);
      assert forall i :: 0 <= i < |ms| ==> es[i] in es;
      FilterAgreesWithoutNulls(ms);
    }
  }

  /** One entry without a `contractEntry` fails the whole written handler,
      reporting zero contracts, where the intended one skips it. */
  lemma KeylessEntryFailsAll()
    ensures ContractsHandler(Some(Entries([LedgerEntry(None)]))) == ContractsFailed
    ensures ReportedTotal(ContractsHandler(Some(Entries([LedgerEntry(None)])))) == 0
    ensures CorrectedContractsHandler(Some(Entries([LedgerEntry(None)]))) == ContractsOk(1, [])
  {
    var es := [LedgerEntry(None)];
    assert es[0] in es;
    assert FilterKept(MapEntries(es)) == [];
  }
}
