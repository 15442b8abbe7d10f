/**
 * The ledger-service (Firefly III) side of the pipeline: one split per
 * statement entry, posted one at a time, then a reconciliation split when
 * the ledger's balance differs from the bank's.
 */
module Firefly {
  import opened Wrappers
  import opened Clock
  import opened Errors
  import opened Bank
  import Ynab

  /**
   * The description of a split: plain text, or the generated
   * "Reconciliation (<from> to <to>)" text, kept as the day it ends on.
   */
  datatype Description = Text(text: string) | ReconciliationPeriod(to: Instant)

  /** `gofirefly.TransactionSplitStore`; unset nullable fields are `None`. */
  datatype Split = Split(
    kind: string,
    date: Instant,
    amount: real,
    description: Description,
    sourceId: Option<string>,
    sourceName: Option<string>,
    destinationId: Option<string>,
    destinationName: Option<string>,
    reconciled: Option<bool>)

  /**
   * An account as the ledger returns it; `currentBalance` is the parsed
   * current balance, or the error of parsing it as a decimal.
   */
  datatype AccountRead = AccountRead(id: string, currentBalance: Result<real, Error>)

  /** `toFireflyTrx`: the split for one statement entry. */
  function ToFireflyTrx(trx: Entry, accountID: string, now: Instant): (s: Split)
    ensures s.amount == trx.amount
    ensures s.date == if trx.date.None? then now else trx.date.value
    ensures s.reconciled == None
    ensures trx.kind == Debit ==>
              s.kind == "withdrawal" && s.sourceId == Some(accountID) && s.destinationName == Some(trx.payee) &&
              s.sourceName == None && s.destinationId == None
    ensures trx.kind != Debit ==>
              s.kind == "deposit" && s.sourceName == Some(trx.payee) && s.destinationId == Some(accountID) &&
              s.sourceId == None && s.destinationName == None
    ensures s.description == Text(if trx.description != "" then trx.description else trx.payee)
    ensures s.description.text == "" <==> trx.description == "" && trx.payee == ""
  {
    var date := if trx.date.None? then now else trx.date.value;
    var description := Text(if trx.description != "" then trx.description else trx.payee);
    if trx.kind == Debit then
      Split("withdrawal", date, trx.amount, description, Some(accountID), None, None, Some(trx.payee), None)
    else
      Split("deposit", date, trx.amount, description, None, Some(trx.payee), Some(accountID), None, None)
  }

  /**
   * The two sinks agree on direction: an entry worth at least one milliunit
   * leaves the Firefly account exactly when its budgeting-service amount is
   * negative.
   */
  lemma SameDirectionAsBudget(trx: Entry, accountID: string, now: Instant)
    requires 0.001 <= trx.amount
    ensures ToFireflyTrx(trx, accountID, now).kind == "withdrawal" <==> Ynab.Milliunits(trx) < 0
    ensures ToFireflyTrx(trx, accountID, now).kind == "deposit" <==> Ynab.Milliunits(trx) > 0
  {
  }

  /** `toFireflyReconciliationTrx`: the split that moves the difference `bank - firefly`. */
  function ToFireflyReconciliationTrx(ffBalance: real, bankBalance: real, accountID: string, recAccID: string,
                                      now: Instant): (s: Split)
    ensures s.kind == "reconciliation" && s.reconciled == Some(true)
    ensures s.date == Midnight(now) && s.description == ReconciliationPeriod(Midnight(now))
    ensures s.amount == Ynab.AbsReal(bankBalance - ffBalance)
    ensures bankBalance > ffBalance ==> s.sourceId == Some(recAccID) && s.destinationId == Some(accountID)
    ensures bankBalance <= ffBalance ==> s.sourceId == Some(accountID) && s.destinationId == Some(recAccID)
    ensures s.sourceName == None && s.destinationName == None
  {
    var amount := bankBalance - ffBalance;
    var to := Midnight(now);
    if amount > 0.0 then
      Split("reconciliation", to, Ynab.AbsReal(amount), ReconciliationPeriod(to), Some(recAccID), None, Some(accountID), None, Some(true))
    else
      Split("reconciliation", to, Ynab.AbsReal(amount), ReconciliationPeriod(to), Some(accountID), None, Some(recAccID), None, Some(true))
  }

  /** How much a split adds to the balance of account `accountID`. */
  function EffectOn(s: Split, accountID: string): real {
    if s.destinationId == Some(accountID) then s.amount
    else if s.sourceId == Some(accountID) then -s.amount
    else 0.0
  }

  /** Posting the reconciliation split brings the ledger's balance to the bank's. */
  lemma ReconciliationClosesGap(ffBalance: real, bankBalance: real, accountID: string, recAccID: string, now: Instant)
    requires accountID != recAccID
    ensures ffBalance + EffectOn(ToFireflyReconciliationTrx(ffBalance, bankBalance, accountID, recAccID, now), accountID)
         == bankBalance
    ensures EffectOn(ToFireflyReconciliationTrx(ffBalance, bankBalance, accountID, recAccID, now), recAccID)
         == ffBalance - bankBalance
  {
  }

  /** `getFireflyAccount` / `getReconciliationAccount` after the search: the first hit. */
  function FirstAccount(search: Result<seq<AccountRead>, Error>, accountName: string): (r: Result<AccountRead, Error>)
    ensures r.Success? <==> search.Success? && |search.value| > 0
    ensures r.Success? ==> r.value == search.value[0]
    ensures search.Failure? ==> r == Failure(search.error)
    ensures search.Success? && search.value == [] ==>
              r == Failure(Message("no accounts found with name " + Quote(accountName)))
  {
    match search
    case Failure(e) => Failure(e)
    case Success(data) =>
      if |data| == 0 then Failure(Message("no accounts found with name " + Quote(accountName)))
      else Success(data[0])
  }

  /**
   * The ledger's answer to the `n`-th store request of a run (counting from
   * 0) when it carries split `s`; identical splits may get different answers.
   */
  type Store = (nat, Split) -> Outcome<Error>

  /**
   * Posting the entries from position `i` on, one at a time, until the first
   * failure: the splits sent, in order, and the failure that stopped the
   * run, if any.
   */
  function PostFrom(trxs: seq<Entry>, i: nat, accountID: string, now: Instant, store: Store)
    : (res: (seq<Split>, Option<Error>))
    requires i <= |trxs|
    decreases |trxs| - i
  {
    if i == |trxs| then ([], None)
    else
      var s := ToFireflyTrx(trxs[i], accountID, now);
      match store(i, s)
      case Fail(e) => ([s], Some(e))
      case Pass =>
        var (rest, failure) := PostFrom(trxs, i + 1, accountID, now, store);
        ([s] + rest, failure)
  }

  /** The splits sent from position `i` on are the entries' splits, in order. */
  lemma {:induction false} PostFromSendsInOrder(trxs: seq<Entry>, i: nat, accountID: string, now: Instant,
                                                store: Store)
    requires i <= |trxs|
    decreases |trxs| - i
    ensures var sent := PostFrom(trxs, i, accountID, now, store).0;
            && |sent| <= |trxs| - i && (i < |trxs| ==> sent != [])
            && (forall k :: 0 <= k < |sent| ==> sent[k] == ToFireflyTrx(trxs[i + k], accountID, now))
            && (forall k :: 0 <= k < |sent| - 1 ==> store(i + k, sent[k]) == Pass)
  {
    if i < |trxs| {
      var s := ToFireflyTrx(trxs[i], accountID, now);
      PostFromStep(trxs, i, accountID, now, store);
      if store(i, s).Pass? {
        PostFromSendsInOrder(trxs, i + 1, accountID, now, store);
        var rest := PostFrom(trxs, i + 1, accountID, now, store).0;
        var sent := PostFrom(trxs, i, accountID, now, store).0;
        forall k | 1 <= k < |sent|
          ensures sent[k] == ToFireflyTrx(trxs[i + k], accountID, now)
          ensures k < |sent| - 1 ==> store(i + k, sent[k]) == Pass
        {
          assert sent[k] == rest[k - 1] && i + k == (i + 1) + (k - 1);
        }
      }
    }
  }

  /** Every split in `sent` was accepted, the first as request number `i`. */
  predicate AllStored(sent: seq<Split>, i: nat, store: Store) {
    forall k :: 0 <= k < |sent| ==> store(i + k, sent[k]) == Pass
  }

  lemma AllStoredCons(s: Split, rest: seq<Split>, i: nat, store: Store)
    ensures AllStored([s] + rest, i, store) <==> store(i, s) == Pass && AllStored(rest, i + 1, store)
  {
    var sent := [s] + rest;
    if store(i, s) == Pass && AllStored(rest, i + 1, store) {
      forall k | 1 <= k < |sent| ensures store(i + k, sent[k]) == Pass {
        assert sent[k] == rest[k - 1] && i + k == (i + 1) + (k - 1);
      }
    }
    if AllStored(sent, i, store) {
      assert store(i + 0, sent[0]) == Pass;
      forall k | 0 <= k < |rest| ensures store((i + 1) + k, rest[k]) == Pass {
        assert rest[k] == sent[k + 1] && (i + 1) + k == i + (k + 1);
      }
    }
  }

  /** One step of `PostFrom`: the split of entry `i` is sent first. */
  lemma PostFromStep(trxs: seq<Entry>, i: nat, accountID: string, now: Instant, store: Store)
    requires i < |trxs|
    ensures var s := ToFireflyTrx(trxs[i], accountID, now);
            var r := PostFrom(trxs, i, accountID, now, store);
            var rest := PostFrom(trxs, i + 1, accountID, now, store);
            && (store(i, s).Pass? ==> r.0 == [s] + rest.0 && r.1 == rest.1)
            && (store(i, s).Fail? ==> r.0 == [s] && r.1 == Some(store(i, s).error))
  {
  }

  /**
   * The run stops at the first failed post, which is the last one sent, so
   * no later entry is sent.
   */
  lemma {:induction false} PostFromFailsLast(trxs: seq<Entry>, i: nat, accountID: string, now: Instant,
                                              store: Store)
    requires i <= |trxs|
    decreases |trxs| - i
    ensures var r := PostFrom(trxs, i, accountID, now, store);
            r.1.Some? ==> r.0 != [] && store(i + |r.0| - 1, r.0[|r.0| - 1]) == Fail(r.1.value)
  {
    if i < |trxs| {
      PostFromStep(trxs, i, accountID, now, store);
      PostFromFailsLast(trxs, i + 1, accountID, now, store);
    }
  }

  /**
   * The run fails exactly when some post fails: with no failure every entry
   * is sent and every post succeeded.
   */
  lemma {:induction false} PostAllStopsAtFirstFailure(trxs: seq<Entry>, i: nat, accountID: string, now: Instant,
                                                       store: Store)
    requires i <= |trxs|
    decreases |trxs| - i
    ensures var r := PostFrom(trxs, i, accountID, now, store);
            r.1 == None <==> |r.0| == |trxs| - i && AllStored(r.0, i, store)
  {
    if i < |trxs| {
      var s := ToFireflyTrx(trxs[i], accountID, now);
      PostFromStep(trxs, i, accountID, now, store);
      AllStoredCons(s, PostFrom(trxs, i + 1, accountID, now, store).0, i, store);
      if store(i, s).Pass? {
        PostAllStopsAtFirstFailure(trxs, i + 1, accountID, now, store);
      } else {
        assert [s] == [s] + [];
        AllStoredCons(s, [], i, store);
      }
    }
  }

  /** The loop of `createFireflyTransactions` (firefly.go:40-45). */
  method PostEntries(trxs: seq<Entry>, accountID: string, now: Instant, store: Store)
    returns (sent: seq<Split>, r: Outcome<Error>)
    ensures sent == PostFrom(trxs, 0, accountID, now, store).0
    ensures r == match PostFrom(trxs, 0, accountID, now, store).1
                 case None => Pass
                 case Some(e) => Fail(Wrapped("failed to create firefly transaction", e))
  {
    sent := [];
    for i := 0 to |trxs|
      invariant PostFrom(trxs, 0, accountID, now, store).0 == sent + PostFrom(trxs, i, accountID, now, store).0
      invariant PostFrom(trxs, 0, accountID, now, store).1 == PostFrom(trxs, i, accountID, now, store).1
    {
      var s := ToFireflyTrx(trxs[i], accountID, now);
      sent := sent + [s];
      var outcome := store(i, s);
      if outcome.Fail? {
        return sent, Fail(Wrapped("failed to create firefly transaction", outcome.error));
      }
    }
    r := Pass;
  }

  /**
   * `createFireflyTransactions` after the client is built (firefly.go:35-69):
   * find the account, post every entry, re-read the account, and unless
   * adjustment is switched off or the balances are equal, post one
   * reconciliation split. `stored` lists every split sent, in order.
   */
  method CreateFireflyTransactions(
    bankBalance: real, trxs: seq<Entry>, accountName: string, noadjust: bool, now: Instant,
    search: Result<seq<AccountRead>, Error>, store: Store,
    byID: Result<AccountRead, Error>, recSearch: Result<seq<AccountRead>, Error>)
    returns (stored: seq<Split>, r: Outcome<Error>)
    ensures FirstAccount(search, accountName).Failure? ==>
              stored == [] && r == Fail(Wrapped("failed to get account", FirstAccount(search, accountName).error))
    ensures FirstAccount(search, accountName).Success? ==>
              var (sent, failure) := PostFrom(trxs, 0, FirstAccount(search, accountName).value.id, now, store);
              && |sent| <= |stored| <= |sent| + 1 && stored[..|sent|] == sent
              && (failure.Some? ==>
                    stored == sent && r == Fail(Wrapped("failed to create firefly transaction", failure.value)))
              && (failure.None? && byID.Failure? ==>
                    stored == sent && r == Fail(Wrapped("failed to get account", byID.error)))
              && (failure.None? && byID.Success? && noadjust ==> stored == sent && r == Pass)
              && (failure.None? && byID.Success? && !noadjust && byID.value.currentBalance.Failure? ==>
                    stored == sent &&
                    r == Fail(Wrapped("cannot parse decimal from firefly balance", byID.value.currentBalance.error)))
              && (failure.None? && byID.Success? && !noadjust && byID.value.currentBalance.Success? ==>
                    var ffBalance := byID.value.currentBalance.value;
                    && (ffBalance == bankBalance ==> stored == sent && r == Pass)
                    && (ffBalance != bankBalance && FirstAccount(recSearch, accountName).Failure? ==>
                          stored == sent &&
                          r == Fail(Wrapped("failed to create firefly reconciliation",
                                            Wrapped("failed to get reconciliation account",
                                                    FirstAccount(recSearch, accountName).error))))
                    && (ffBalance != bankBalance && FirstAccount(recSearch, accountName).Success? ==>
                          var rec := ToFireflyReconciliationTrx(ffBalance, bankBalance, byID.value.id,
                                                                FirstAccount(recSearch, accountName).value.id, now);
                          stored == sent + [rec] &&
                          r == match store(|trxs|, rec)
                               case Pass => Pass
                               case Fail(e) => Fail(Wrapped("failed to create firefly reconciliation", e))))
  {
    var found := FirstAccount(search, accountName);
    if found.Failure? {
      return [], Fail(Wrapped("failed to get account", found.error));
    }
    var account := found.value;
    var posted;
    stored, posted := PostEntries(trxs, account.id, now, store);
    if posted.Fail? {
      return stored, posted;
    }
    if byID.Failure? {
      return stored, Fail(Wrapped("failed to get account", byID.error));
    }
    account := byID.value;
    if !noadjust {
      if account.currentBalance.Failure? {
        return stored, Fail(Wrapped("cannot parse decimal from firefly balance", account.currentBalance.error));
      }
      var ffBalance := account.currentBalance.value;
      if bankBalance == ffBalance {
        return stored, Pass;
      }
      var recAcc := FirstAccount(recSearch, accountName);
      if recAcc.Failure? {
        return stored, Fail(Wrapped("failed to create firefly reconciliation",
                                    Wrapped("failed to get reconciliation account", recAcc.error)));
      }
      var fftrx := ToFireflyReconciliationTrx(ffBalance, bankBalance, account.id, recAcc.value.id, now);
      stored := stored + [fftrx];
      var outcome := store(|trxs|, fftrx);
      if outcome.Fail? {
        return stored, Fail(Wrapped("failed to create firefly reconciliation", outcome.error));
      }
    }
    return stored, Pass;
  }
}
