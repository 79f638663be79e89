/** The ledger detail page: the running balance shown above the list and the
    effect that ties the transaction feed to the user and the ledger id in the
    route. */
module LedgerDetail {
  import opened Common
  import opened Records
  import Dashboard
  import TransactionStore

  /** `transactions.reduce((sum, t) => t.type === 'credit' ? sum + t.amount
      : sum - t.amount, acc)`, folding from the left. */
  function BalanceFold(acc: real, ts: seq<Transaction>): real
    decreases |ts|
  {
    if ts == [] then acc
    else BalanceFold(if ts[0].kind == "credit" then acc + ts[0].amount else acc - ts[0].amount, ts[1..])
  }

  /** `runningBalance`: the fold started at 0. */
  function RunningBalance(ts: seq<Transaction>): real {
    BalanceFold(0.0, ts)
  }

  /** A credit adds its amount; every other type subtracts it. */
  ghost function Signed(t: Transaction): real {
    if t.kind == "credit" then t.amount else -t.amount
  }

  ghost function SignedSum(ts: seq<Transaction>): real {
    if ts == [] then 0.0 else Signed(ts[0]) + SignedSum(ts[1..])
  }

  lemma {:induction false} BalanceFoldIsSignedSum(acc: real, ts: seq<Transaction>)
    ensures BalanceFold(acc, ts) == acc + SignedSum(ts)
    decreases |ts|
  {
    if ts != [] {
      BalanceFoldIsSignedSum(acc + Signed(ts[0]), ts[1..]);
    }
  }

  /** The running balance is the sum of credits minus every other amount,
      and zero for no transactions. */
  lemma RunningBalanceIsSignedSum(ts: seq<Transaction>)
    ensures RunningBalance(ts) == SignedSum(ts)
    ensures ts == [] ==> RunningBalance(ts) == 0.0
  {
    BalanceFoldIsSignedSum(0.0, ts);
  }

  lemma {:induction false} SignedSumConcat(a: seq<Transaction>, b: seq<Transaction>)
    ensures SignedSum(a + b) == SignedSum(a) + SignedSum(b)
    decreases |a|
  {
    if a == [] {
      assert a + b == b;
    } else {
      assert (a + b)[0] == a[0];
      assert (a + b)[1..] == a[1..] + b;
      SignedSumConcat(a[1..], b);
    }
  }

  lemma {:induction false} SignedSumPermutation(xs: seq<Transaction>, ys: seq<Transaction>)
    requires multiset(xs) == multiset(ys)
    ensures SignedSum(xs) == SignedSum(ys)
    decreases |xs|
  {
    if xs == [] {
      assert |ys| == |multiset(ys)| == 0;
    } else {
      var x := xs[0];
      assert x in multiset(ys) by {
        assert x in multiset(xs);
      }
      var i :| 0 <= i < |ys| && ys[i] == x;
      var rest := ys[..i] + ys[i + 1..];
      assert ys == ys[..i] + ([x] + ys[i + 1..]);
      SignedSumConcat(ys[..i], [x] + ys[i + 1..]);
      assert ([x] + ys[i + 1..])[1..] == ys[i + 1..];
      SignedSumConcat(ys[..i], ys[i + 1..]);
      assert xs == [x] + xs[1..];
      assert multiset(ys) == multiset(ys[..i]) + multiset{x} + multiset(ys[i + 1..]);
      assert multiset(xs) == multiset{x} + multiset(xs[1..]);
      assert multiset(rest) == multiset(ys[..i]) + multiset(ys[i + 1..]);
      assert multiset(xs[1..]) == multiset(xs) - multiset{x};
      assert multiset(rest) == multiset(ys) - multiset{x};
      SignedSumPermutation(xs[1..], rest);
    }
  }

  /** The running balance does not depend on the order of the transactions. */
  lemma RunningBalanceOrderIndependent(xs: seq<Transaction>, ys: seq<Transaction>)
    requires multiset(xs) == multiset(ys)
    ensures RunningBalance(xs) == RunningBalance(ys)
  {
    RunningBalanceIsSignedSum(xs);
    RunningBalanceIsSignedSum(ys);
    SignedSumPermutation(xs, ys);
  }

  lemma {:induction false} SignedSumIsTallyBalance(ts: seq<Transaction>)
    requires forall k | 0 <= k < |ts| :: ts[k].kind == "credit" || ts[k].kind == "debit"
    ensures SignedSum(ts) == Dashboard.Tally(ts).balance
    decreases |ts|
  {
    if ts != [] {
      SignedSumIsTallyBalance(ts[1..]);
      assert Dashboard.Tally(ts) == Dashboard.Add(Dashboard.Contribution(ts[0]), Dashboard.Tally(ts[1..]));
    }
  }

  /** When every type is `credit` or `debit`, the detail page's balance is
      the dashboard's credit minus debit for the same transactions. */
  lemma RunningBalanceMatchesDashboard(ts: seq<Transaction>)
    requires forall k | 0 <= k < |ts| :: ts[k].kind == "credit" || ts[k].kind == "debit"
    ensures RunningBalance(ts) == Dashboard.Aggregate(ts).credit - Dashboard.Aggregate(ts).debit
  {
    RunningBalanceIsSignedSum(ts);
    SignedSumIsTallyBalance(ts);
    Dashboard.AggregateIsTally(ts);
  }

  /** Outside that case the two pages disagree: a positive amount of any
      other type is subtracted here and ignored on the dashboard. */
  lemma OtherKindDisagrees(t: Transaction)
    requires t.kind != "credit" && t.kind != "debit" && t.amount > 0.0
    ensures RunningBalance([t]) == -t.amount
    ensures Dashboard.Aggregate([t]).balance == 0.0
  {
    assert [t][1..] == [];
    assert RunningBalance([t]) == BalanceFold(-t.amount, []);
    Dashboard.OtherKindIgnored([], t, []);
    assert [] + [t] + [] == [t];
    Dashboard.EmptyIsZero();
  }

  /** The listener effect: start the transaction feed for the user's uid and
      the route's ledger id when both are present. */
  function ListenerEffect(sys: TransactionStore.System, user: Option<User>, ledgerId: string): (r: TransactionStore.System)
    ensures user == None || ledgerId == "" ==> r == sys
    ensures user.Some? && user.value.uid != "" && ledgerId != "" ==>
      && r.store.unsub.Some? && r.store.unsub.value in r.feed.live
      && r.feed.live[r.store.unsub.value] == TransactionStore.Scope(user.value.uid, ledgerId)
  {
    if user.Some? && ledgerId != "" then TransactionStore.StartListening(sys, user.value.uid, ledgerId)
    else sys
  }

  /** The effect's cleanup: always stop. */
  function ListenerCleanup(sys: TransactionStore.System): (r: TransactionStore.System)
    ensures r.store.transactions == [] && r.store.unsub == None
    ensures TransactionStore.Inv(sys) ==> TransactionStore.Inv(r) && r.feed.live == map[]
  {
    TransactionStore.StopListening(sys)
  }

  /** A change of user or ledger id runs the cleanup, then the effect.
      Afterwards the only live feed, if any, is the one for the new pair, and
      no transaction of the previous ledger is shown. */
  lemma RouteChange(sys: TransactionStore.System, user: Option<User>, ledgerId: string)
    requires TransactionStore.Inv(sys)
    ensures var r := ListenerEffect(ListenerCleanup(sys), user, ledgerId);
      && TransactionStore.Inv(r)
      && r.store.transactions == []
      && (user.Some? && user.value.uid != "" && ledgerId != "" ==>
            r.feed.live == map[r.store.unsub.value := TransactionStore.Scope(user.value.uid, ledgerId)])
      && (user == None || user.value.uid == "" || ledgerId == "" ==> r.feed.live == map[])
  {
  }
}
