/** The shape of the ledger's `active-contracts` reply as the two serverless
    handlers read it. A field the handlers read through `||` is an `Option`;
    numeric fields hold what `parseFloat` makes of them (`None` for NaN). */
module Ledger {
  import opened Wrappers
  import opened Text

  /** `createArgument`: the contract's payload. */
  datatype Args = Args(
    bank: Option<string>,
    reputationScore: Option<real>,
    accuracy: Option<real>,
    transactionId: Option<string>,
    isOpen: Option<bool>)

  /** `createdEvent`. */
  datatype CreatedEvent = CreatedEvent(
    templateId: Option<string>,
    contractId: Option<string>,
    createArgument: Option<Args>)

  /** The value under the first key of `contractEntry`. */
  datatype ActiveContract = ActiveContract(createdEvent: Option<CreatedEvent>)

  /** One item of the reply; `contractEntry` is `None` when the field is
      missing or has no key, so that `Object.keys(...)[0]` is undefined. */
  datatype LedgerEntry = LedgerEntry(contractEntry: Option<ActiveContract>)

  /** The decoded JSON body: an array of entries, or anything else. */
  datatype ActiveContractsReply = NotAnArray | Entries(items: seq<LedgerEntry>)

  /** `Array.isArray(data) ? data : []`. */
  function EntriesOf(reply: ActiveContractsReply): (es: seq<LedgerEntry>)
    ensures reply.NotAnArray? ==> es == []
    ensures reply.Entries? ==> es == reply.items
  {
    match reply
    case NotAnArray => []
    case Entries(items) => items
  }

  /** `ac.createdEvent || {}`. */
  function EventOf(ac: ActiveContract): CreatedEvent {
    ac.createdEvent.GetOr(CreatedEvent(None, None, None))
  }

  /** `ce.createArgument || {}`. */
  function ArgsOf(ce: CreatedEvent): Args {
    ce.createArgument.GetOr(Args(None, None, None, None, None))
  }

  /** `parseFloat(x) || d`: NaN and 0 are falsy and give way to `d`. */
  function ParsedOr(p: Option<real>, d: real): (r: real)
    ensures r == d || (p == Some(r) && r != 0.0)
    ensures d != 0.0 ==> r != 0.0
    ensures p.Some? && p.value != 0.0 ==> r == p.value
  {
    if p.Some? && p.value != 0.0 then p.value else d
  }

  /** `(args.bank || '').split('::')[0]`: the party name without its namespace. */
  function BankName(args: Args): (name: string)
    ensures !Contains(name, "::")
    ensures |name| <= |args.bank.GetOr("")| && name == args.bank.GetOr("")[..|name|]
    ensures Contains(args.bank.GetOr(""), "::") ==> MatchesAt(args.bank.GetOr(""), "::", |name|)
    ensures !Contains(args.bank.GetOr(""), "::") ==> name == args.bank.GetOr("")
  {
    BeforeFirst(args.bank.GetOr(""), "::")
  }

  /** A party id `name::namespace` whose name holds no colon gives that name. */
  lemma BankNameOfParty(args: Args, name: string, ns: string)
    requires args.bank == Some(name + "::" + ns) && ':' !in name
    ensures BankName(args) == name
  {
    BeforeFirstOfPrefix(name, "::", ns);
  }
}
