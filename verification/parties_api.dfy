/** The `/api/parties` handler (`frontend/api/parties.js`): the ledger's
    parties without the validator, each with a readable name. */
module PartiesApi {
  import opened Wrappers
  import opened Text

  /** The decoded body of `/v2/parties`; each detail is reduced to its `party` id. */
  datatype PartiesReply = PartiesReply(partyDetails: Option<seq<string>>)

  datatype PartyView = PartyView(name: string, partyId: string, isRegulator: bool)

  datatype PartiesResponse = PartiesOk(parties: seq<PartyView>) | PartiesFailed

  const ValidatorPrefix: string := "amlprediction-validator"

  /** The filter's test: every party but the validator's. */
  predicate Listed(id: string) {
    !StartsWith(id, ValidatorPrefix)
  }

  /** The `map` step: the id before its `::` namespace, underscores as spaces. */
  function ViewOf(id: string): (v: PartyView)
    ensures '_' !in v.name && !Contains(v.name, "::")
    ensures |v.name| <= |id|
    ensures v.partyId == id
    ensures v.isRegulator <==> StartsWith(id, "Regulator")
    ensures v.name == ReplaceChar(BeforeFirst(id, "::"), '_', ' ')
    ensures !Contains(id, "::") ==> v.name == ReplaceChar(id, '_', ' ')
  {
    var base := BeforeFirst(id, "::");
    ReplaceCreatesNoMatch(base, '_', ' ', "::");
    PartyView(ReplaceChar(base, '_', ' '), id, StartsWith(id, "Regulator"))
  }

  /** A qualified id `name::namespace` whose name holds no colon is listed
      under that name, underscores as spaces. */
  lemma ViewOfQualified(name: string, ns: string)
    requires ':' !in name
    ensures ViewOf(name + "::" + ns).name == ReplaceChar(name, '_', ' ')
  {
    BeforeFirstOfPrefix(name, "::", ns);
  }

  /** `filter` then `map`, keeping order. */
  function ListedViews(ids: seq<string>): (vs: seq<PartyView>)
    ensures |vs| <= |ids|
    ensures forall v :: v in vs <==> exists id :: id in ids && Listed(id) && v == ViewOf(id)
  {
    if |ids| == 0 then []
    else
      var rest := ListedViews(ids[1..]);
      assert forall x :: x in ids <==> x == ids[0] || x in ids[1..];
      if Listed(ids[0]) then [ViewOf(ids[0])] + rest else rest
  }

  /** Filtering keeps input order: the views of two parts, concatenated, are
      the views of the whole. */
  lemma {:induction false} ListedViewsAppend(a: seq<string>, b: seq<string>)
    ensures ListedViews(a + b) == ListedViews(a) + ListedViews(b)
  {
    if |a| > 0 {
      assert (a + b)[1..] == a[1..] + b;
      ListedViewsAppend(a[1..], b);
    } else {
      assert a + b == b;
    }
  }

  /** With no validator among the ids every party is listed, one view per id
      in the same position. */
  lemma {:induction false} ListedViewsAll(ids: seq<string>)
    requires forall i :: 0 <= i < |ids| ==> Listed(ids[i])
    ensures |ListedViews(ids)| == |ids|
    ensures forall i :: 0 <= i < |ids| ==> ListedViews(ids)[i] == ViewOf(ids[i])
  {
    if |ids| > 0 {
      ListedViewsAll(ids[1..]);
    }
  }

  /** The handler; `None` is a failed ledger call (the `catch` branch). */
  function PartiesHandler(reply: Option<PartiesReply>): (r: PartiesResponse)
    ensures r.PartiesFailed? <==> reply.None?
    ensures reply.Some? && reply.value.partyDetails.None? ==> r == PartiesOk([])
    ensures reply.Some? ==> r.parties == ListedViews(reply.value.partyDetails.GetOr([]))
  {
    match reply
    case None => PartiesFailed
    case Some(data) => PartiesOk(ListedViews(data.partyDetails.GetOr([])))
  }

  /** Whatever the ledger returns, no listed view is the validator's. */
  lemma ValidatorHidden(ids: seq<string>)
    ensures forall v :: v in ListedViews(ids) ==> !StartsWith(v.partyId, ValidatorPrefix)
  {
  }

  /** A reply holding only the validator's party lists nothing. */
  lemma ValidatorPartyDropped(ns: string)
    ensures PartiesHandler(Some(PartiesReply(Some(["amlprediction-validator::" + ns])))) == PartiesOk([])
  {
    var v := "amlprediction-validator::" + ns;
    assert v[..|ValidatorPrefix|] == ValidatorPrefix;
  }

  /** The regulator's party is listed under a readable name and flagged. */
  lemma RegulatorFlagged(ns: string)
    ensures PartiesHandler(Some(PartiesReply(Some(["Regulator_FinCEN::" + ns])))) ==
      PartiesOk([PartyView("Regulator FinCEN", "Regulator_FinCEN::" + ns, true)])
  {
    var r := "Regulator_FinCEN::" + ns;
    RegulatorView(ns);
    assert r[0] != ValidatorPrefix[0];
    ListedSingleton(r);
  }

  lemma RegulatorView(ns: string)
    ensures ViewOf("Regulator_FinCEN::" + ns) == PartyView("Regulator FinCEN", "Regulator_FinCEN::" + ns, true)
  {
    var r := "Regulator_FinCEN::" + ns;
    assert r == "Regulator_FinCEN" + "::" + ns;
    ViewOfQualified("Regulator_FinCEN", ns);
    RegulatorName();
    assert r[..9] == "Regulator";
  }

  lemma ListedSingleton(id: string)
    requires Listed(id)
    ensures ListedViews([id]) == [ViewOf(id)]
  {
    var ids: seq<string> := [id];
    assert ids[1..] == [];
  }

  lemma RegulatorName()
    ensures ReplaceChar("Regulator_FinCEN", '_', ' ') == "Regulator FinCEN"
  {
    var n := ReplaceChar("Regulator_FinCEN", '_', ' ');
    assert |n| == 16;
    assert n[9] == ' ';
  }
}
