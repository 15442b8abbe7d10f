/**
 * The budgeting-service (YNAB) side of the pipeline: mapping a statement
 * entry to a payload transaction, mapping a whole statement, finding the
 * target account, and the balance-adjustment step.
 *
 * main.go and ynab.go hold near-identical copies of these routines; each is
 * modelled once.
 */
module Ynab {
  import opened Wrappers
  import opened Clock
  import opened Errors
  import opened Bank

  datatype ClearingStatus = Cleared | Uncleared | Reconciled

  /** `transaction.PayloadTransaction`; pointer fields are options. `amount` is in milliunits. */
  datatype PayloadTransaction = PayloadTransaction(
    accountID: string,
    date: Instant,
    amount: int,
    cleared: ClearingStatus,
    approved: bool,
    payeeID: Option<string>,
    payeeName: Option<string>,
    categoryID: Option<string>,
    memo: Option<string>,
    flagColor: Option<string>,
    importID: Option<string>)

  /** `structhash.Hash(entry, 1)`: a deterministic fingerprint computed by a foreign library. */
  type Hasher = Entry -> string

  datatype Account = Account(id: string, name: string, balance: int)

  datatype Category = Category(id: string, name: string)

  datatype CategoryGroup = CategoryGroup(name: string, categories: seq<Category>)

  /** The budgeting-service requests the adjustment step issues, in order. */
  datatype Call =
    | GetAccount(accountID: string)
    | GetCategories
    | CreateTransaction(transaction: PayloadTransaction)

  const InflowsName := "Inflows"
  const AdjustmentPayee := "Automated Balance Adjustment"

  function Abs(x: int): nat {
    if x < 0 then -x else x
  }

  function AbsReal(x: real): real {
    if x < 0.0 then -x else x
  }

  // ---------------------------------------------------------------------
  // Mapping one entry (main.go:352-391, ynab.go:107-146)
  // ---------------------------------------------------------------------

  /**
   * The entry the import ID is computed from: the description blanked, and
   * a pending entry's date replaced by its predicted clearance date.
   */
  function HashInput(trx: Entry, now: Instant): (k: Entry)
    ensures k.description == "" && k.date.Some?
    ensures k.payee == trx.payee && k.amount == trx.amount && k.kind == trx.kind
    ensures k.date == if trx.date.None? then Some(ClearDate(now)) else trx.date
  {
    trx.(description := "", date := if trx.date.None? then Some(ClearDate(now)) else trx.date)
  }

  /**
   * The amount in milliunits: the magnitude times 1000, truncated toward zero,
   * and negative for a debit.
   */
  function Milliunits(trx: Entry): (m: int)
    ensures 0.0 <= trx.amount ==> if trx.kind == Debit then m <= 0 else 0 <= m
    ensures Abs(m) as real <= AbsReal(trx.amount * 1000.0) < Abs(m) as real + 1.0
  {
    var magnitude := IntPart(trx.amount * 1000.0);
    if trx.kind == Debit then -magnitude else magnitude
  }

  /** `toPayloadTransaction`: the payload for one statement entry. */
  function ToPayloadTransaction(trx: Entry, accountID: string, now: Instant, hash: Hasher): (p: PayloadTransaction)
    ensures p.accountID == accountID
    ensures p.cleared == Cleared && p.approved
    ensures p.payeeID == None && p.categoryID == None && p.flagColor == None
    ensures p.payeeName == Some(trx.payee) && p.memo == Some(trx.description)
    ensures p.importID == Some(hash(HashInput(trx, now)))
    ensures p.amount == Milliunits(trx)
    ensures !After(p.date, now)
    ensures var resolved := HashInput(trx, now).date.value;
            p.date == (if After(resolved, now) then now else resolved)
  {
    var key := HashInput(trx, now);
    var t := key.date.value;
    PayloadTransaction(
      accountID := accountID,
      date := if After(t, now) then now else t,
      amount := Milliunits(trx),
      cleared := Cleared,
      approved := true,
      payeeID := None,
      payeeName := Some(trx.payee),
      categoryID := None,
      memo := Some(trx.description),
      flagColor := None,
      importID := Some(hash(key)))
  }

  /** Entries that differ only in their description get the same import ID. */
  lemma ImportIDIgnoresDescription(a: Entry, b: Entry, accountID: string, now: Instant, hash: Hasher)
    requires a.date == b.date && a.payee == b.payee && a.amount == b.amount && a.kind == b.kind
    ensures ToPayloadTransaction(a, accountID, now, hash).importID
         == ToPayloadTransaction(b, accountID, now, hash).importID
  {
  }

  /**
   * A pending entry is dated today at midnight when the bank is still open
   * today, and `now` otherwise; in the second case its import ID is computed
   * from a strictly later date than the one the payload carries.
   */
  lemma PendingEntryDate(trx: Entry, accountID: string, now: Instant, hash: Hasher)
    requires trx.date.None?
    ensures var p := ToPayloadTransaction(trx, accountID, now, hash);
            if IsBusinessDay(now.day) && Hour(now) < CutoffHour then
              p.date == Midnight(now) && HashInput(trx, now).date == Some(p.date)
            else
              p.date == now && HashInput(trx, now).date == Some(ClearDate(now)) && After(ClearDate(now), p.date)
  {
  }

  /**
   * The bank balance is truncated to whole units before scaling, entry
   * amounts are scaled before truncating: the two agree exactly when the
   * fraction of the balance is below one milliunit.
   */
  lemma BalanceScalingTruncatesFirst(b: real)
    requires 0.0 <= b
    ensures IntPart(b) * 1000 <= IntPart(b * 1000.0) < IntPart(b) * 1000 + 1000
    ensures IntPart(b) * 1000 == IntPart(b * 1000.0) <==> b < IntPart(b) as real + 0.001
  {
  }

  /**
   * Two entries observed on Wednesday 2021-03-03 (day 18689) at 09:00: a
   * settled credit of 2021-03-01 without description, and a pending debit.
   * The memo is the description as it is, empty for the first entry.
   */
  lemma MappingExample(accountID: string, hash: Hasher)
    ensures var now := Instant(18689, 9 * NanosPerHour);
            var credit := Entry(Some(Instant(18687, 0)), "", "ACME", 50000.0, "CR");
            var debit := Entry(None, "coffee", "Shop", 20000.0, Debit);
            var p := ToPayloadTransaction(credit, accountID, now, hash);
            var q := ToPayloadTransaction(debit, accountID, now, hash);
            && p.amount == 50_000_000 && q.amount == -20_000_000
            && p.date == Instant(18687, 0) && q.date == Instant(18689, 0)
            && p.memo == Some("") && q.memo == Some("coffee")
  {
  }

  // ---------------------------------------------------------------------
  // Mapping a statement (main.go:247-262, ynab.go:22-37)
  // ---------------------------------------------------------------------

  /** The mapping loop of `createYNABTransactions`: one payload per entry, in order. */
  method MapEntries(trxs: seq<Entry>, accountID: string, now: Instant, hash: Hasher)
    returns (ps: seq<PayloadTransaction>)
    ensures |ps| == |trxs|
    ensures forall i :: 0 <= i < |trxs| ==> ps[i] == ToPayloadTransaction(trxs[i], accountID, now, hash)
  {
    ps := [];
    for i := 0 to |trxs|
      invariant |ps| == i
      invariant forall j :: 0 <= j < i ==> ps[j] == ToPayloadTransaction(trxs[j], accountID, now, hash)
    {
      ps := ps + [ToPayloadTransaction(trxs[i], accountID, now, hash)];
    }
  }

  /**
   * `createYNABTransactions`: maps every entry to the account and submits
   * the batch in one request; `submitted` is that request's outcome.
   */
  method CreateYNABTransactions(trxs: seq<Entry>, account: Account, now: Instant, hash: Hasher,
                                submitted: Outcome<Error>)
    returns (batch: seq<PayloadTransaction>, r: Outcome<Error>)
    ensures |batch| == |trxs|
    ensures forall i :: 0 <= i < |trxs| ==>
              batch[i] == ToPayloadTransaction(trxs[i], account.id, now, hash) &&
              batch[i].accountID == account.id && !After(batch[i].date, now)
    ensures r == submitted
  {
    batch := MapEntries(trxs, account.id, now, hash);
    r := submitted;
  }

  // ---------------------------------------------------------------------
  // Looking up the account (main.go:264-276, ynab.go:39-51)
  // ---------------------------------------------------------------------

  /** `getYNABAccount`: the first account whose name is exactly `accountName`. */
  method GetYNABAccount(accounts: Result<seq<Account>, Error>, accountName: string)
    returns (r: Result<Account, Error>)
    ensures accounts.Failure? ==> r == Failure(Wrapped("failed to get ynab accounts. try -r", accounts.error))
    ensures accounts.Success? ==>
              (r.Success? <==> exists i :: 0 <= i < |accounts.value| && accounts.value[i].name == accountName)
    ensures r.Success? ==>
              accounts.Success? &&
              exists i :: 0 <= i < |accounts.value| && accounts.value[i] == r.value &&
                r.value.name == accountName &&
                forall j :: 0 <= j < i ==> accounts.value[j].name != accountName
    ensures accounts.Success? && r.Failure? ==> r.error == Message("couldnt find account " + accountName)
  {
    if accounts.Failure? {
      return Failure(Wrapped("failed to get ynab accounts. try -r", accounts.error));
    }
    var accs := accounts.value;
    for i := 0 to |accs|
      invariant forall j :: 0 <= j < i ==> accs[j].name != accountName
    {
      if accs[i].name == accountName {
        return Success(accs[i]);
      }
    }
    return Failure(Message("couldnt find account " + accountName));
  }

  // ---------------------------------------------------------------------
  // The "Inflows" category (main.go:293-307, ynab.go:64-78)
  // ---------------------------------------------------------------------

  /** All categories, group by group, in order. */
  function Flatten(groups: seq<CategoryGroup>): seq<Category> {
    if groups == [] then [] else groups[0].categories + Flatten(groups[1..])
  }

  /** The first category with the given name. */
  function FirstNamed(cs: seq<Category>, name: string): Option<Category> {
    if cs == [] then None
    else if cs[0].name == name then Some(cs[0])
    else FirstNamed(cs[1..], name)
  }

  /** The category lookup closure of the adjustment step, as a specification. */
  function InflowsLookup(categories: Result<seq<CategoryGroup>, Error>): Result<Category, Error> {
    match categories
    case Failure(e) => Failure(Wrapped("failed to get categories", e))
    case Success(groups) =>
      match FirstNamed(Flatten(groups), InflowsName)
      case None => Failure(Message("couldnt find to be budgeted category"))
      case Some(c) => Success(c)
  }

  /** `FirstNamed` finds a category iff one has the name, and it is the earliest such. */
  lemma {:induction false} FirstNamedIsFirstMatch(cs: seq<Category>, name: string)
    ensures FirstNamed(cs, name).Some? <==> exists i :: 0 <= i < |cs| && cs[i].name == name
    ensures FirstNamed(cs, name).Some? ==>
              exists i :: 0 <= i < |cs| && cs[i] == FirstNamed(cs, name).value &&
                cs[i].name == name && forall j :: 0 <= j < i ==> cs[j].name != name
  {
    if cs != [] && cs[0].name != name {
      FirstNamedIsFirstMatch(cs[1..], name);
      if FirstNamed(cs, name).Some? {
        var i :| 0 <= i < |cs[1..]| && cs[1..][i] == FirstNamed(cs, name).value &&
                 cs[1..][i].name == name && forall j :: 0 <= j < i ==> cs[1..][j].name != name;
        assert cs[i + 1] == cs[1..][i];
        assert forall j :: 0 <= j < i + 1 ==> cs[j].name != name by {
          forall j | 0 <= j < i + 1 ensures cs[j].name != name {
            if j > 0 { assert cs[j] == cs[1..][j - 1]; }
          }
        }
      } else {
        forall i | 0 <= i < |cs| ensures cs[i].name != name {
          if i > 0 { assert cs[i] == cs[1..][i - 1]; }
        }
      }
    }
  }

  lemma {:induction false} FirstNamedAppend(a: seq<Category>, b: seq<Category>, name: string)
    ensures FirstNamed(a + b, name) == if FirstNamed(a, name).Some? then FirstNamed(a, name) else FirstNamed(b, name)
  {
    if a != [] {
      assert (a + b)[1..] == a[1..] + b;
      FirstNamedAppend(a[1..], b, name);
    } else {
      assert a + b == b;
    }
  }

  lemma {:induction false} FlattenAppend(a: seq<CategoryGroup>, b: seq<CategoryGroup>)
    ensures Flatten(a + b) == Flatten(a) + Flatten(b)
  {
    if a != [] {
      assert (a + b)[1..] == a[1..] + b;
      FlattenAppend(a[1..], b);
    } else {
      assert a + b == b;
    }
  }

  /** `Flatten` of the groups before and including group `g`. */
  lemma FlattenStep(groups: seq<CategoryGroup>, g: nat)
    requires g < |groups|
    ensures Flatten(groups[..g + 1]) == Flatten(groups[..g]) + groups[g].categories
  {
    assert groups[..g + 1] == groups[..g] + [groups[g]];
    FlattenAppend(groups[..g], [groups[g]]);
    assert Flatten([groups[g]]) == groups[g].categories + Flatten([]);
  }

  /**
   * The nested group/category loop: the first category named "Inflows",
   * scanning groups in order and categories within each group in order.
   */
  method FindInflows(categories: Result<seq<CategoryGroup>, Error>) returns (r: Result<Category, Error>)
    ensures r == InflowsLookup(categories)
  {
    if categories.Failure? {
      return Failure(Wrapped("failed to get categories", categories.error));
    }
    var groups := categories.value;
    for g := 0 to |groups|
      invariant FirstNamed(Flatten(groups[..g]), InflowsName) == None
    {
      var cs := groups[g].categories;
      for c := 0 to |cs|
        invariant FirstNamed(cs[..c], InflowsName) == None
      {
        if cs[c].name == InflowsName {
          assert groups == groups[..g + 1] + groups[g + 1..];
          FlattenAppend(groups[..g + 1], groups[g + 1..]);
          FlattenStep(groups, g);
          assert cs == cs[..c] + cs[c..];
          FirstNamedAppend(Flatten(groups[..g]), cs, InflowsName);
          FirstNamedAppend(cs[..c], cs[c..], InflowsName);
          FirstNamedAppend(Flatten(groups[..g]) + cs, Flatten(groups[g + 1..]), InflowsName);
          return Success(cs[c]);
        }
        assert cs[..c + 1] == cs[..c] + [cs[c]];
        FirstNamedAppend(cs[..c], [cs[c]], InflowsName);
      }
      assert cs[..|cs|] == cs;
      FlattenStep(groups, g);
      FirstNamedAppend(Flatten(groups[..g]), cs, InflowsName);
    }
    assert groups[..|groups|] == groups;
    return Failure(Message("couldnt find to be budgeted category"));
  }

  // ---------------------------------------------------------------------
  // Balance adjustment (main.go:278-334, ynab.go:53-105)
  // ---------------------------------------------------------------------

  /** Milliunits the budget account must gain to match the bank's whole-unit balance. */
  function Delta(bankBalance: real, ynabBalance: int): int {
    IntPart(bankBalance) * 1000 - ynabBalance
  }

  /** The adjustment transaction posted for a non-zero `delta`. */
  predicate IsAdjustment(p: PayloadTransaction, accountID: string, delta: int, categoryID: string, now: Instant) {
    && p.accountID == accountID
    && p.date == now
    && p.amount == delta
    && p.cleared == Reconciled
    && p.approved
    && p.payeeID == None
    && p.payeeName == Some(AdjustmentPayee)
    && p.categoryID == Some(categoryID)
    && p.memo == None
    && p.flagColor == None
    && p.importID == None
  }

  /**
   * What the adjustment step does, given the budget account as re-read after
   * the import (`fetched`), the category listing, and the outcome of the
   * posting request.
   */
  predicate AdjustmentOutcome(bankBalance: real, account: Account, fetched: Result<Account, Error>,
                              categories: Result<seq<CategoryGroup>, Error>, created: Outcome<Error>,
                              now: Instant, calls: seq<Call>, r: Outcome<Error>)
  {
    && 1 <= |calls| <= 3
    && calls[0] == GetAccount(account.id)
    && (fetched.Failure? ==>
          calls == [GetAccount(account.id)] && r == Fail(Wrapped("failed to get ynab account", fetched.error)))
    && (fetched.Success? && Delta(bankBalance, fetched.value.balance) == 0 ==>
          calls == [GetAccount(account.id)] && r == Pass)
    && (fetched.Success? && Delta(bankBalance, fetched.value.balance) != 0 ==>
          2 <= |calls| && calls[1] == GetCategories &&
          match InflowsLookup(categories)
          case Failure(e) =>
            |calls| == 2 && r == Fail(e)
          case Success(c) =>
            |calls| == 3 && calls[2].CreateTransaction? &&
            IsAdjustment(calls[2].transaction, account.id, Delta(bankBalance, fetched.value.balance), c.id, now) &&
            r == (if created.Fail? then Fail(Wrapped("failed to create balance adjustment transaction", created.error)) else Pass))
  }

  /** `createYNABBalancaAdjustment` of ynab.go, which is handed the bank balance. */
  method CreateBalanceAdjustment(bankBalance: real, account: Account, fetched: Result<Account, Error>,
                                 categories: Result<seq<CategoryGroup>, Error>, created: Outcome<Error>,
                                 now: Instant)
    returns (calls: seq<Call>, r: Outcome<Error>)
    ensures AdjustmentOutcome(bankBalance, account, fetched, categories, created, now, calls, r)
  {
    calls := [GetAccount(account.id)];
    if fetched.Failure? {
      return calls, Fail(Wrapped("failed to get ynab account", fetched.error));
    }
    var delta := IntPart(bankBalance) * 1000 - fetched.value.balance;
    if delta != 0 {
      calls := calls + [GetCategories];
      var c := FindInflows(categories);
      if c.Failure? {
        return calls, Fail(c.error);
      }
      var p := PayloadTransaction(
        accountID := account.id,
        date := now,
        amount := delta,
        cleared := Reconciled,
        approved := true,
        payeeID := None,
        payeeName := Some(AdjustmentPayee),
        categoryID := Some(c.value.id),
        memo := None,
        flagColor := None,
        importID := None);
      calls := calls + [CreateTransaction(p)];
      if created.Fail? {
        return calls, Fail(Wrapped("failed to create balance adjustment transaction", created.error));
      }
    }
    return calls, Pass;
  }

  /**
   * `createYNABBalancaAdjustment` of main.go, which first asks the bank for
   * its balance; the bank call is not in `calls`.
   */
  method CreateBalanceAdjustmentFromBank(balance: Result<real, Error>, account: Account,
                                         fetched: Result<Account, Error>,
                                         categories: Result<seq<CategoryGroup>, Error>,
                                         created: Outcome<Error>, now: Instant)
    returns (calls: seq<Call>, r: Outcome<Error>)
    ensures balance.Failure? ==> calls == [] && r == Fail(Wrapped("failed to get bca balance", balance.error))
    ensures balance.Success? ==> AdjustmentOutcome(balance.value, account, fetched, categories, created, now, calls, r)
  {
    if balance.Failure? {
      return [], Fail(Wrapped("failed to get bca balance", balance.error));
    }
    calls, r := CreateBalanceAdjustment(balance.value, account, fetched, categories, created, now);
  }

  /** A bank balance of 1,000,000 against 997,000,000 milliunits needs +3,000,000 milliunits. */
  lemma DeltaExample()
    ensures Delta(1_000_000.0, 997_000_000) == 3_000_000
    ensures Delta(1_000_000.75, 1_000_000_750) == -750
  {
  }

  /** Number of transaction-creating requests in a call log. */
  function CreatedCount(calls: seq<Call>): nat {
    if calls == [] then 0
    else (if calls[0].CreateTransaction? then 1 else 0) + CreatedCount(calls[1..])
  }

  /**
   * The adjustment step posts at most one transaction, and exactly one when
   * the account could be read, the balances disagree and an "Inflows"
   * category exists; that transaction brings the account's balance to the
   * bank's whole-unit balance in milliunits, is reconciled and has no
   * import ID.
   */
  lemma {:induction false} AdjustmentPostsAtMostOnce(bankBalance: real, account: Account, fetched: Result<Account, Error>,
                                  categories: Result<seq<CategoryGroup>, Error>, created: Outcome<Error>,
                                  now: Instant, calls: seq<Call>, r: Outcome<Error>)
    requires AdjustmentOutcome(bankBalance, account, fetched, categories, created, now, calls, r)
    ensures CreatedCount(calls) <= 1
    ensures CreatedCount(calls) == 1 <==>
              fetched.Success? && Delta(bankBalance, fetched.value.balance) != 0 && InflowsLookup(categories).Success?
    ensures CreatedCount(calls) == 1 ==>
              var p := calls[|calls| - 1].transaction;
              fetched.value.balance + p.amount == IntPart(bankBalance) * 1000 &&
              p.cleared == Reconciled && p.importID == None &&
              p.categoryID == Some(InflowsLookup(categories).value.id) &&
              InflowsLookup(categories).value.name == InflowsName
  {
    assert CreatedCount([]) == 0;
    if |calls| == 1 {
      assert calls[1..] == [];
    } else if |calls| == 2 {
      assert calls[1..][1..] == [];
    } else {
      assert calls[1..][1..][1..] == [];
      assert fetched.Success? && Delta(bankBalance, fetched.value.balance) != 0;
      assert InflowsLookup(categories).Success?;
      assert calls[1..][0] == GetCategories && calls[1..][1..][0] == calls[2];
      assert CreatedCount(calls[1..][1..][1..]) == 0;
      assert CreatedCount(calls[1..][1..]) == 1;
      assert CreatedCount(calls[1..]) == 1;
      FirstNamedIsFirstMatch(Flatten(categories.value), InflowsName);
    }
  }
}
