/** Double-entry postings: the entry builders, the append-only journal and reversals. */
module Ledger {
  import opened Basics

  datatype Account = ProviderClearing | MerchantPayable | FeeRevenue | SettlementClearing

  datatype Side = Debit | Credit

  datatype Entry = Entry(account: Account, amount: int, currency: Currency, entrySeq: nat, side: Side)

  datatype BusinessType = Capture | Refund | Settlement | Reversal

  datatype Posting = Posting(
    publicId: Id, merchant: Id, currency: Currency, business: BusinessType, reference: Id,
    entries: seq<Entry>, reversalOf: Option<Id>)

  datatype Error =
    | InvalidCommand | AccountsNotProvisioned | IdentifierCollision
    | BusinessReferenceConflict | ReversalConflict | TransactionNotFound

  type Journal = seq<Posting>

  // ----- entry builders -----

  predicate ValidAmount(amount: int) {
    1 <= amount <= MAX_SAFE_INTEGER
  }

  function BuildCaptureEntries(amount: int, currency: Currency): Result<seq<Entry>, Error> {
    if !ValidAmount(amount) then Err(InvalidCommand) else
    Ok([Entry(ProviderClearing, amount, currency, 1, Debit), Entry(MerchantPayable, amount, currency, 2, Credit)])
  }

  function BuildRefundEntries(amount: int, currency: Currency): Result<seq<Entry>, Error> {
    if !ValidAmount(amount) then Err(InvalidCommand) else
    Ok([Entry(MerchantPayable, amount, currency, 1, Debit), Entry(ProviderClearing, amount, currency, 2, Credit)])
  }

  function BuildSettlementEntries(gross: int, fee: int, net: int, currency: Currency): Result<seq<Entry>, Error> {
    if !ValidAmount(gross) || !ValidAmount(net) || fee < 0 || fee > MAX_SAFE_INTEGER || gross != fee + net then
      Err(InvalidCommand)
    else
      Ok([Entry(MerchantPayable, gross, currency, 1, Debit)]
         + (if fee == 0 then [] else [Entry(FeeRevenue, fee, currency, 2, Credit)])
         + [Entry(SettlementClearing, net, currency, if fee == 0 then 2 else 3, Credit)])
  }

  function BuildReversalEntries(entries: seq<Entry>): Result<seq<Entry>, Error> {
    if |entries| < 2 then Err(InvalidCommand) else Ok(Flipped(entries))
  }

  function Flipped(entries: seq<Entry>): (r: seq<Entry>)
    ensures |r| == |entries|
  {
    seq(|entries|, i requires 0 <= i < |entries| =>
      entries[i].(side := if entries[i].side == Debit then Credit else Debit))
  }

  // ----- balances -----

  /** The credit-positive effect of one entry. */
  function Signed(e: Entry): int {
    if e.side == Credit then e.amount else -e.amount
  }

  /** The credit-positive effect of a list of entries on one account. */
  function Net(entries: seq<Entry>, account: Account): int {
    if entries == [] then 0 else
    Net(entries[1..], account) + (if entries[0].account == account then Signed(entries[0]) else 0)
  }

  /** Credits minus debits over all accounts. */
  function Imbalance(entries: seq<Entry>): int {
    if entries == [] then 0 else Imbalance(entries[1..]) + Signed(entries[0])
  }

  /** The credit balance of a merchant's account in one currency, derived from the entries. */
  function Balance(j: Journal, merchant: Id, currency: Currency, account: Account): int {
    if j == [] then 0 else
    var last := j[|j| - 1];
    Balance(j[..|j| - 1], merchant, currency, account)
    + (if last.merchant == merchant && last.currency == currency then Net(last.entries, account) else 0)
  }

  lemma BalanceAppend(j: Journal, p: Posting, merchant: Id, currency: Currency, account: Account)
    ensures Balance(j + [p], merchant, currency, account)
         == Balance(j, merchant, currency, account)
            + if p.merchant == merchant && p.currency == currency then Net(p.entries, account) else 0
  {
    assert (j + [p])[..|j|] == j;
  }

  lemma Net2(a: Entry, b: Entry, account: Account)
    ensures Net([a, b], account) == (if a.account == account then Signed(a) else 0)
                                  + (if b.account == account then Signed(b) else 0)
  {
    assert [a, b][1..] == [b];
    assert [b][1..] == [];
    assert Net([b], account) == Net([], account) + if b.account == account then Signed(b) else 0;
  }

  lemma Net3(a: Entry, b: Entry, c: Entry, account: Account)
    ensures Net([a, b, c], account) == (if a.account == account then Signed(a) else 0)
                                     + (if b.account == account then Signed(b) else 0)
                                     + (if c.account == account then Signed(c) else 0)
  {
    assert [a, b, c][1..] == [b, c];
    Net2(b, c, account);
  }

  /** INV-03: every account effect together cancels, so a posting with no imbalance has equal debits and credits. */
  lemma {:induction false} NetOverAccounts(entries: seq<Entry>)
    ensures Imbalance(entries)
         == Net(entries, ProviderClearing) + Net(entries, MerchantPayable)
            + Net(entries, FeeRevenue) + Net(entries, SettlementClearing)
  {
    if entries != [] {
      NetOverAccounts(entries[1..]);
    }
  }

  ghost predicate WellFormed(p: Posting) {
    && |p.entries| >= 2
    && (forall i | 0 <= i < |p.entries| :: p.entries[i].amount > 0 && p.entries[i].currency == p.currency)
    && Imbalance(p.entries) == 0
  }

  ghost predicate JournalOk(j: Journal) {
    forall i | 0 <= i < |j| :: WellFormed(j[i])
  }

  /** Debits equal credits for every merchant and currency. */
  lemma {:induction false} DebitsEqualCredits(j: Journal, merchant: Id, currency: Currency)
    requires JournalOk(j)
    ensures Balance(j, merchant, currency, ProviderClearing) + Balance(j, merchant, currency, MerchantPayable)
            + Balance(j, merchant, currency, FeeRevenue) + Balance(j, merchant, currency, SettlementClearing) == 0
  {
    if j != [] {
      DebitsEqualCredits(j[..|j| - 1], merchant, currency);
      NetOverAccounts(j[|j| - 1].entries);
    }
  }

  lemma CaptureEntriesEffect(amount: int, currency: Currency)
    requires ValidAmount(amount)
    ensures var r := BuildCaptureEntries(amount, currency);
            && r.Ok? && Imbalance(r.value) == 0
            && Net(r.value, ProviderClearing) == -amount && Net(r.value, MerchantPayable) == amount
            && Net(r.value, FeeRevenue) == 0 && Net(r.value, SettlementClearing) == 0
  {
    var es := BuildCaptureEntries(amount, currency).value;
    forall a: Account { Net2(es[0], es[1], a); }
    NetOverAccounts(es);
  }

  lemma RefundEntriesEffect(amount: int, currency: Currency)
    requires ValidAmount(amount)
    ensures var r := BuildRefundEntries(amount, currency);
            && r.Ok? && Imbalance(r.value) == 0
            && Net(r.value, ProviderClearing) == amount && Net(r.value, MerchantPayable) == -amount
            && Net(r.value, FeeRevenue) == 0 && Net(r.value, SettlementClearing) == 0
  {
    var es := BuildRefundEntries(amount, currency).value;
    forall a: Account { Net2(es[0], es[1], a); }
    NetOverAccounts(es);
  }

  lemma SettlementEntriesEffect(gross: int, fee: int, net: int, currency: Currency)
    requires BuildSettlementEntries(gross, fee, net, currency).Ok?
    ensures var es := BuildSettlementEntries(gross, fee, net, currency).value;
            && Imbalance(es) == 0
            && Net(es, ProviderClearing) == 0 && Net(es, MerchantPayable) == -gross
            && Net(es, FeeRevenue) == fee && Net(es, SettlementClearing) == net
  {
    var es := BuildSettlementEntries(gross, fee, net, currency).value;
    if fee == 0 {
      assert es == [es[0], es[1]];
      forall a: Account { Net2(es[0], es[1], a); }
    } else {
      assert es == [es[0], es[1], es[2]];
      forall a: Account { Net3(es[0], es[1], es[2], a); }
    }
    NetOverAccounts(es);
  }

  /** One debit, then credits to other accounts, numbered from 1, all positive and in one currency. */
  ghost predicate Listed(entries: seq<Entry>, currency: Currency) {
    && |entries| >= 2
    && (forall i | 0 <= i < |entries| ::
          && entries[i].entrySeq == i + 1 && entries[i].amount >= 1 && entries[i].currency == currency
          && entries[i].side == (if i == 0 then Debit else Credit))
    && forall i, j | 0 <= i < j < |entries| :: entries[i].account != entries[j].account
  }

  /** The amounts that captures and refunds can post, and the form of their entries. */
  lemma PaymentEntriesAreListed(amount: int, currency: Currency)
    ensures BuildCaptureEntries(amount, currency).Ok? <==> 1 <= amount <= 9007199254740991
    ensures BuildRefundEntries(amount, currency).Ok? <==> 1 <= amount <= 9007199254740991
    ensures BuildCaptureEntries(amount, currency).Ok? ==>
              Listed(BuildCaptureEntries(amount, currency).value, currency) && Listed(BuildRefundEntries(amount, currency).value, currency)
  {
  }

  /** The amounts that a settlement can post, and the form of its entries: the fee has one exactly if there is a fee. */
  lemma SettlementEntriesAreListed(gross: int, fee: int, net: int, currency: Currency)
    ensures BuildSettlementEntries(gross, fee, net, currency).Ok? <==>
              gross == fee + net && 0 <= fee && 1 <= net && gross <= 9007199254740991
    ensures BuildSettlementEntries(gross, fee, net, currency).Ok? ==>
              && Listed(BuildSettlementEntries(gross, fee, net, currency).value, currency)
              && |BuildSettlementEntries(gross, fee, net, currency).value| == if fee > 0 then 3 else 2
  {
  }

  // ----- the journal -----

  /** Inserts one posting and finalizes it, or names the constraint that rejects it. */
  function CreatePosting(j: Journal, provisioned: set<Id>, p: Posting): Result<Journal, Error> {
    if p.merchant !in provisioned then Err(AccountsNotProvisioned)
    else if exists i | 0 <= i < |j| :: j[i].publicId == p.publicId then Err(IdentifierCollision)
    else if exists i | 0 <= i < |j| ::
      j[i].merchant == p.merchant && j[i].business == p.business && j[i].reference == p.reference
    then Err(BusinessReferenceConflict)
    else if p.reversalOf.Some? && exists i | 0 <= i < |j| :: j[i].reversalOf == p.reversalOf then Err(ReversalConflict)
    else Ok(j + [p])
  }

  /** The posted transaction of a merchant with a public identifier, as its index in the journal. */
  function FindPosted(j: Journal, merchant: Id, publicId: Id): (r: Option<nat>)
    ensures r.Some? ==> r.value < |j| && j[r.value].merchant == merchant && j[r.value].publicId == publicId
    ensures r.None? ==> forall i | 0 <= i < |j| :: !(j[i].merchant == merchant && j[i].publicId == publicId)
  {
    if j == [] then None else
    var n := |j| - 1;
    if j[n].merchant == merchant && j[n].publicId == publicId then Some(n) else FindPosted(j[..n], merchant, publicId)
  }

  function Reverse(j: Journal, provisioned: set<Id>, merchant: Id, original: Id, publicId: Id, reference: Id)
    : Result<Journal, Error>
  {
    match FindPosted(j, merchant, original)
    case None => Err(TransactionNotFound)
    case Some(i) =>
      if j[i].business == Reversal then Err(ReversalConflict) else
      match BuildReversalEntries(j[i].entries)
      case Err(e) => Err(e)
      case Ok(entries) =>
        CreatePosting(j, provisioned,
          Posting(publicId, merchant, j[i].currency, Reversal, reference, entries, Some(j[i].publicId)))
  }

  lemma {:induction false} FlippedEffect(entries: seq<Entry>, account: Account)
    ensures Net(Flipped(entries), account) == -Net(entries, account)
    ensures Imbalance(Flipped(entries)) == -Imbalance(entries)
  {
    if entries != [] {
      assert Flipped(entries)[1..] == Flipped(entries[1..]);
      FlippedEffect(entries[1..], account);
    }
  }

  /** Public identifiers are unique, and reversals target an earlier non-reversal of the same merchant, each once. */
  ghost predicate ReversalsOk(j: Journal) {
    && (forall i, k | 0 <= i < k < |j| :: j[i].publicId != j[k].publicId)
    && (forall i | 0 <= i < |j| :: j[i].reversalOf.Some? <==> j[i].business == Reversal)
    && (forall k | 0 <= k < |j| && j[k].reversalOf.Some? :: exists i :: Reverses(j, k, i))
    && (forall i, k | 0 <= i < k < |j| && j[i].reversalOf.Some? :: j[i].reversalOf != j[k].reversalOf)
  }

  ghost predicate Reverses(j: Journal, k: int, i: int) {
    && 0 <= i < k < |j|
    && j[k].reversalOf == Some(j[i].publicId)
    && j[k].merchant == j[i].merchant && j[k].currency == j[i].currency
    && j[i].business != Reversal
    && j[k].entries == Flipped(j[i].entries)
  }

  /** Any posting that is not a reversal keeps the journal rules. */
  lemma PostingKeepsReversalsOk(j: Journal, provisioned: set<Id>, p: Posting)
    requires ReversalsOk(j) && p.business != Reversal && p.reversalOf.None?
    requires CreatePosting(j, provisioned, p).Ok?
    ensures ReversalsOk(j + [p])
  {
    var j' := j + [p];
    forall k | 0 <= k < |j'| && j'[k].reversalOf.Some? ensures exists i :: Reverses(j', k, i) {
      var i :| Reverses(j, k, i);
      assert Reverses(j', k, i);
    }
  }

  /** The journal a successful reversal leaves: one posting more, the mirror image of the original. */
  ghost predicate ReversalDelta(j: Journal, j': Journal, merchant: Id, original: Id, i: nat) {
    && i < |j| && |j'| == |j| + 1 && j' == j + [j'[|j|]]
    && j[i].merchant == merchant && j[i].publicId == original && j[i].business != Reversal && |j[i].entries| >= 2
    && var p := j'[|j|];
       && p.entries == Flipped(j[i].entries) && p.reversalOf == Some(original) && p.business == Reversal
       && p.merchant == merchant && p.currency == j[i].currency
       && (forall k | 0 <= k < |j| :: j[k].publicId != p.publicId && j[k].reversalOf != p.reversalOf)
  }

  lemma ReverseEffect(j: Journal, provisioned: set<Id>, merchant: Id, original: Id, publicId: Id, reference: Id)
    requires Reverse(j, provisioned, merchant, original, publicId, reference).Ok?
    ensures FindPosted(j, merchant, original).Some?
    ensures var j' := Reverse(j, provisioned, merchant, original, publicId, reference).value;
            ReversalDelta(j, j', merchant, original, FindPosted(j, merchant, original).value) && j'[|j|].publicId == publicId
  {
  }

  lemma ReversalKeepsJournal(j: Journal, j': Journal, merchant: Id, original: Id, i: nat)
    requires ReversalsOk(j) && JournalOk(j) && ReversalDelta(j, j', merchant, original, i)
    ensures ReversalsOk(j') && JournalOk(j')
  {
    FlippedEffect(j[i].entries, MerchantPayable);
    assert WellFormed(j[i]) && WellFormed(j'[|j|]);
    forall k | 0 <= k < |j'| && j'[k].reversalOf.Some? ensures exists i :: Reverses(j', k, i) {
      if k < |j| {
        var i' :| Reverses(j, k, i');
        assert Reverses(j', k, i');
      } else {
        assert Reverses(j', k, i);
      }
    }
  }

  lemma ReversalCancels(j: Journal, j': Journal, merchant: Id, original: Id, i: nat, a: Account)
    requires ReversalDelta(j, j', merchant, original, i)
    ensures Net(j[i].entries, a) + Net(j'[|j|].entries, a) == 0
    ensures Balance(j', merchant, j[i].currency, a) == Balance(j, merchant, j[i].currency, a) - Net(j[i].entries, a)
  {
    FlippedEffect(j[i].entries, a);
    BalanceAppend(j, j'[|j|], merchant, j[i].currency, a);
  }

  /** The reversed posting cannot be reversed again. */
  lemma NoSecondReversal(j: Journal, j': Journal, provisioned: set<Id>, merchant: Id, original: Id, i: nat, id: Id, r: Id)
    requires ReversalsOk(j') && ReversalDelta(j, j', merchant, original, i)
    ensures Reverse(j', provisioned, merchant, original, id, r).Err?
  {
    assert FindPosted(j', merchant, original) == Some(i) by { assert j'[i].publicId == original; }
    assert j'[|j|].reversalOf == Some(j'[i].publicId);
  }

  /** The reversal itself cannot be reversed. */
  lemma NoReversalOfReversal(j: Journal, j': Journal, provisioned: set<Id>, merchant: Id, original: Id, i: nat, id: Id, r: Id)
    requires ReversalDelta(j, j', merchant, original, i)
    ensures Reverse(j', provisioned, merchant, j'[|j|].publicId, id, r).Err?
  {
    assert FindPosted(j', merchant, j'[|j|].publicId) == Some(|j|);
  }

  /** INV-06: a reversal cancels its original on every account, leaves the original in place,
      and neither a second reversal of it nor a reversal of a reversal can be posted. */
  lemma ReversalUndoesOnce(j: Journal, provisioned: set<Id>, merchant: Id, original: Id, publicId: Id, reference: Id)
    requires ReversalsOk(j) && JournalOk(j)
    requires Reverse(j, provisioned, merchant, original, publicId, reference).Ok?
    ensures var j' := Reverse(j, provisioned, merchant, original, publicId, reference).value;
            && j < j' && |j'| == |j| + 1
            && ReversalsOk(j') && JournalOk(j')
            && FindPosted(j, merchant, original).Some?
            && var o := j[FindPosted(j, merchant, original).value];
            && (forall a: Account :: Net(o.entries, a) + Net(j'[|j|].entries, a) == 0)
            && (forall a: Account :: Balance(j', merchant, o.currency, a) == Balance(j, merchant, o.currency, a) - Net(o.entries, a))
            && (forall id, r :: Reverse(j', provisioned, merchant, original, id, r).Err?)
            && (forall id, r :: Reverse(j', provisioned, merchant, publicId, id, r).Err?)
  {
    var j' := Reverse(j, provisioned, merchant, original, publicId, reference).value;
    ReverseEffect(j, provisioned, merchant, original, publicId, reference);
    var i := FindPosted(j, merchant, original).value;
    ReversalKeepsJournal(j, j', merchant, original, i);
    forall a: Account
      ensures Net(j[i].entries, a) + Net(j'[|j|].entries, a) == 0
      ensures Balance(j', merchant, j[i].currency, a) == Balance(j, merchant, j[i].currency, a) - Net(j[i].entries, a)
    {
      ReversalCancels(j, j', merchant, original, i, a);
    }
    forall id, r
      ensures Reverse(j', provisioned, merchant, original, id, r).Err?
      ensures Reverse(j', provisioned, merchant, publicId, id, r).Err?
    {
      NoSecondReversal(j, j', provisioned, merchant, original, i, id, r);
      NoReversalOfReversal(j, j', provisioned, merchant, original, i, id, r);
    }
  }

  // ----- every journal that postings and reversals build -----

  /** What the application posts: balanced entries of its builders, or the reversal of a posting. */
  datatype Action =
    | Posts(provisioned: set<Id>, posting: Posting)
    | Undoes(provisioned: set<Id>, merchant: Id, original: Id, publicId: Id, reference: Id)

  ghost function Build(actions: seq<Action>): Journal {
    if actions == [] then [] else
    var j := Build(actions[..|actions| - 1]);
    match actions[|actions| - 1]
    case Posts(provisioned, p) =>
      if WellFormed(p) && p.business != Reversal && p.reversalOf.None? && CreatePosting(j, provisioned, p).Ok?
      then CreatePosting(j, provisioned, p).value
      else j
    case Undoes(provisioned, merchant, original, publicId, reference) =>
      if Reverse(j, provisioned, merchant, original, publicId, reference).Ok?
      then Reverse(j, provisioned, merchant, original, publicId, reference).value
      else j
  }

  /** No merchant has two postings of one kind for one business reference. */
  ghost predicate UniqueReferences(j: Journal) {
    forall i, k | 0 <= i < k < |j| ::
      !(j[i].merchant == j[k].merchant && j[i].business == j[k].business && j[i].reference == j[k].reference)
  }

  lemma PostingKeepsAll(j: Journal, provisioned: set<Id>, p: Posting)
    requires JournalOk(j) && ReversalsOk(j) && UniqueReferences(j)
    requires WellFormed(p) && p.business != Reversal && p.reversalOf.None? && CreatePosting(j, provisioned, p).Ok?
    ensures var j' := CreatePosting(j, provisioned, p).value; JournalOk(j') && ReversalsOk(j') && UniqueReferences(j')
  {
    PostingKeepsReversalsOk(j, provisioned, p);
  }

  lemma ReversalKeepsReferences(j: Journal, provisioned: set<Id>, merchant: Id, original: Id, publicId: Id, reference: Id)
    requires UniqueReferences(j) && Reverse(j, provisioned, merchant, original, publicId, reference).Ok?
    ensures UniqueReferences(Reverse(j, provisioned, merchant, original, publicId, reference).value)
  {
  }

  /** In every journal postings balance, public identifiers and business references are unique, and each reversal mirrors one
      earlier posting that no other reversal names. */
  lemma {:induction false} JournalAlwaysOk(actions: seq<Action>)
    ensures JournalOk(Build(actions)) && ReversalsOk(Build(actions)) && UniqueReferences(Build(actions))
  {
    if actions != [] {
      JournalAlwaysOk(actions[..|actions| - 1]);
      var j := Build(actions[..|actions| - 1]);
      match actions[|actions| - 1] {
        case Posts(provisioned, p) =>
          if WellFormed(p) && p.business != Reversal && p.reversalOf.None? && CreatePosting(j, provisioned, p).Ok? {
            PostingKeepsAll(j, provisioned, p);
          }
        case Undoes(provisioned, merchant, original, publicId, reference) =>
          if Reverse(j, provisioned, merchant, original, publicId, reference).Ok? {
            ReversalKeepsReferences(j, provisioned, merchant, original, publicId, reference);
            ReversalUndoesOnce(j, provisioned, merchant, original, publicId, reference);
          }
      }
    }
  }

  /** What keeps a posting out of a journal. */
  ghost predicate Rejected(j: Journal, p: Posting) {
    exists i | 0 <= i < |j| ::
      || j[i].publicId == p.publicId
      || (j[i].merchant == p.merchant && j[i].business == p.business && j[i].reference == p.reference)
  }

  /** A posting that is not a reversal is accepted exactly if the merchant has its accounts and neither its identifier nor its
      business reference is taken. */
  lemma PostingAccepted(j: Journal, provisioned: set<Id>, p: Posting)
    requires p.reversalOf.None?
    ensures CreatePosting(j, provisioned, p).Ok? <==> p.merchant in provisioned && !Rejected(j, p)
    ensures CreatePosting(j, provisioned, p).Ok? ==> CreatePosting(j, provisioned, p).value == j + [p]
    ensures CreatePosting(j, provisioned, p) == Err(IdentifierCollision) <==>
              p.merchant in provisioned && exists i | 0 <= i < |j| :: j[i].publicId == p.publicId
  {
  }

  /** The postings that name posting i as reversed are its reversals. */
  lemma NamedMeansReversed(j: Journal, i: nat, k: nat)
    requires ReversalsOk(j) && i < |j| && k < |j|
    ensures j[k].reversalOf == Some(j[i].publicId) <==> Reverses(j, k, i)
  {
    if j[k].reversalOf == Some(j[i].publicId) {
      var o :| Reverses(j, k, o);
      assert o == i;
    }
  }

  lemma FindsPosted(j: Journal, i: nat)
    requires ReversalsOk(j) && i < |j|
    ensures FindPosted(j, j[i].merchant, j[i].publicId) == Some(i)
  {
  }

  /** In every journal a posting of the merchant can be reversed, under fresh identifiers, exactly if it is no reversal and
      has not been reversed. */
  lemma ReversibleExactlyWhen(actions: seq<Action>, provisioned: set<Id>, merchant: Id, i: nat, publicId: Id, reference: Id)
    requires var j := Build(actions);
             && i < |j| && j[i].merchant == merchant && merchant in provisioned
             && forall k | 0 <= k < |j| :: j[k].publicId != publicId && !(j[k].merchant == merchant && j[k].reference == reference)
    ensures var j := Build(actions); var outcome := Reverse(j, provisioned, merchant, j[i].publicId, publicId, reference);
            && (outcome.Ok? <==> j[i].business != Reversal && forall k: nat | k < |j| :: !Reverses(j, k, i))
            && (outcome.Err? ==> outcome == Err(ReversalConflict))
  {
    var j := Build(actions);
    JournalAlwaysOk(actions);
    FindsPosted(j, i);
    assert WellFormed(j[i]);
    forall k: nat | k < |j| ensures j[k].reversalOf == Some(j[i].publicId) <==> Reverses(j, k, i) { NamedMeansReversed(j, i, k); }
  }

  /** A posting the merchant does not have cannot be reversed. */
  lemma UnknownIsNotReversed(j: Journal, provisioned: set<Id>, merchant: Id, original: Id, publicId: Id, reference: Id)
    requires forall k | 0 <= k < |j| :: !(j[k].merchant == merchant && j[k].publicId == original)
    ensures Reverse(j, provisioned, merchant, original, publicId, reference) == Err(TransactionNotFound)
  {
  }
}
