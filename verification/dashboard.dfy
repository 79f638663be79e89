/** The dashboard page: per-ledger credit, debit and balance totals, the
    refresh rule for the totals, the zero default shown for a ledger without
    totals, and the effect that ties the ledger feed to the signed-in user. */
module Dashboard {
  import opened Common
  import opened Records
  import LedgerStore

  datatype Stats = Stats(credit: real, debit: real, balance: real)

  function Zero(): Stats {
    Stats(0.0, 0.0, 0.0)
  }

  function Add(a: Stats, b: Stats): Stats {
    Stats(a.credit + b.credit, a.debit + b.debit, a.balance + b.balance)
  }

  /** `filter(t => t.type === kind)`. */
  function OfKind(ts: seq<Transaction>, kind: string): seq<Transaction> {
    if ts == [] then []
    else (if ts[0].kind == kind then [ts[0]] else []) + OfKind(ts[1..], kind)
  }

  /** `reduce((sum, t) => sum + t.amount, acc)`, folding from the left. */
  function SumAmounts(acc: real, ts: seq<Transaction>): real
    decreases |ts|
  {
    if ts == [] then acc else SumAmounts(acc + ts[0].amount, ts[1..])
  }

  /** The totals `fetchStats` computes for one ledger's transactions. */
  function Aggregate(ts: seq<Transaction>): (r: Stats)
    ensures r.balance == r.credit - r.debit
  {
    var credit := SumAmounts(0.0, OfKind(ts, "credit"));
    var debit := SumAmounts(0.0, OfKind(ts, "debit"));
    Stats(credit, debit, credit - debit)
  }

  /** What one transaction adds to the totals: a credit raises credit and
      balance, a debit raises debit and lowers balance, any other type adds
      nothing. */
  ghost function Contribution(t: Transaction): Stats {
    if t.kind == "credit" then Stats(t.amount, 0.0, t.amount)
    else if t.kind == "debit" then Stats(0.0, t.amount, -t.amount)
    else Zero()
  }

  /** The totals as a sum of contributions, independent of filter and fold. */
  ghost function Tally(ts: seq<Transaction>): Stats {
    if ts == [] then Zero() else Add(Contribution(ts[0]), Tally(ts[1..]))
  }

  lemma {:induction false} SumAmountsShift(acc: real, ts: seq<Transaction>)
    ensures SumAmounts(acc, ts) == acc + SumAmounts(0.0, ts)
    decreases |ts|
  {
    if ts != [] {
      SumAmountsShift(acc + ts[0].amount, ts[1..]);
      SumAmountsShift(ts[0].amount, ts[1..]);
    }
  }

  /** The amounts of type `kind`, summed from the right. */
  ghost function KindTotal(ts: seq<Transaction>, kind: string): real {
    if ts == [] then 0.0
    else (if ts[0].kind == kind then ts[0].amount else 0.0) + KindTotal(ts[1..], kind)
  }

  lemma {:induction false} FilteredFoldIsKindTotal(ts: seq<Transaction>, kind: string)
    ensures SumAmounts(0.0, OfKind(ts, kind)) == KindTotal(ts, kind)
    decreases |ts|
  {
    if ts != [] {
      FilteredFoldIsKindTotal(ts[1..], kind);
      var rest := OfKind(ts[1..], kind);
      if ts[0].kind == kind {
        assert OfKind(ts, kind) == [ts[0]] + rest;
        assert ([ts[0]] + rest)[1..] == rest;
        SumAmountsShift(ts[0].amount, rest);
      } else {
        assert OfKind(ts, kind) == rest;
      }
    }
  }

  /** One transaction's contribution, field by field. */
  lemma ContributionFields(t: Transaction)
    ensures Contribution(t).credit == (if t.kind == "credit" then t.amount else 0.0)
    ensures Contribution(t).debit == (if t.kind == "debit" then t.amount else 0.0)
    ensures Contribution(t).balance == Contribution(t).credit - Contribution(t).debit
  {
    assert "credit"[0] != "debit"[0];
  }

  lemma {:induction false} TallyIsKindTotals(ts: seq<Transaction>)
    ensures Tally(ts).credit == KindTotal(ts, "credit")
    ensures Tally(ts).debit == KindTotal(ts, "debit")
    ensures Tally(ts).balance == KindTotal(ts, "credit") - KindTotal(ts, "debit")
    decreases |ts|
  {
    if ts != [] {
      TallyIsKindTotals(ts[1..]);
      ContributionFields(ts[0]);
    }
  }

  /** The filter-and-fold totals are the sum of the per-transaction
      contributions; in particular balance is credit minus debit, and a
      transaction of any other type counts towards neither total. */
  lemma AggregateIsTally(ts: seq<Transaction>)
    ensures Aggregate(ts) == Tally(ts)
    ensures Aggregate(ts).balance == Aggregate(ts).credit - Aggregate(ts).debit
  {
    FilteredFoldIsKindTotal(ts, "credit");
    FilteredFoldIsKindTotal(ts, "debit");
    TallyIsKindTotals(ts);
  }

  lemma {:induction false} TallyConcat(a: seq<Transaction>, b: seq<Transaction>)
    ensures Tally(a + b) == Add(Tally(a), Tally(b))
    decreases |a|
  {
    if a == [] {
      assert a + b == b;
    } else {
      assert (a + b)[0] == a[0];
      assert (a + b)[1..] == a[1..] + b;
      TallyConcat(a[1..], b);
    }
  }

  /** Splitting the transactions splits the totals. */
  lemma AggregateConcat(a: seq<Transaction>, b: seq<Transaction>)
    ensures Aggregate(a + b) == Add(Aggregate(a), Aggregate(b))
  {
    AggregateIsTally(a + b);
    AggregateIsTally(a);
    AggregateIsTally(b);
    TallyConcat(a, b);
  }

  /** A transaction whose type is neither `credit` nor `debit` leaves every
      total as it was, wherever it stands. */
  lemma OtherKindIgnored(a: seq<Transaction>, t: Transaction, b: seq<Transaction>)
    requires t.kind != "credit" && t.kind != "debit"
    ensures Aggregate(a + [t] + b) == Aggregate(a + b)
  {
    assert a + [t] + b == a + ([t] + b);
    AggregateConcat(a, [t] + b);
    AggregateConcat([t], b);
    AggregateConcat(a, b);
    assert Aggregate([t]) == Zero() by {
      AggregateIsTally([t]);
      assert Tally([t]) == Add(Contribution(t), Tally([]));
    }
  }

  /** No transactions: all three totals are zero. */
  lemma EmptyIsZero()
    ensures Aggregate([]) == Zero()
  {
  }

  /** With the form's positive amounts, neither total can be negative. */
  lemma {:induction false} TotalsNonNegative(ts: seq<Transaction>)
    requires forall k | 0 <= k < |ts| :: WellFormedTransaction(ts[k])
    ensures Aggregate(ts).credit >= 0.0 && Aggregate(ts).debit >= 0.0
    decreases |ts|
  {
    AggregateIsTally(ts);
    if ts != [] {
      TotalsNonNegative(ts[1..]);
      AggregateIsTally(ts[1..]);
    }
  }

  /** One credit of 100 and one debit of 40 give 100, 40 and 60. */
  lemma WorkedExample()
    ensures Aggregate([Transaction("a", 100.0, "credit", ""), Transaction("b", 40.0, "debit", "")])
      == Stats(100.0, 40.0, 60.0)
  {
  }

  function LedgerIds(ledgers: seq<Ledger>): set<string> {
    set k | 0 <= k < |ledgers| :: ledgers[k].id
  }

  /** Every ledger's one-time fetch succeeded. */
  predicate AllFetched(uid: string, ledgers: seq<Ledger>, fetch: (string, string) -> Result<seq<Transaction>, string>) {
    forall k | 0 <= k < |ledgers| :: fetch(uid, ledgers[k].id).Ok?
  }

  /** `fetchStats`: fetches each ledger's transactions once, in order. The
      first rejected fetch aborts the walk before any totals are published;
      otherwise there is one entry per ledger id, holding the totals of the
      transactions fetched for it. The fetch outcomes are a parameter. */
  method FetchStats(uid: string, ledgers: seq<Ledger>, fetch: (string, string) -> Result<seq<Transaction>, string>)
    returns (stats: Option<map<string, Stats>>)
    ensures stats.Some? <==> AllFetched(uid, ledgers, fetch)
    ensures stats.Some? ==> stats.value.Keys == LedgerIds(ledgers)
    ensures stats.Some? ==> forall id | id in stats.value ::
      fetch(uid, id).Ok? && stats.value[id] == Aggregate(fetch(uid, id).value)
  {
    var acc := map[];
    var i := 0;
    while i < |ledgers|
      invariant 0 <= i <= |ledgers|
      invariant forall k | 0 <= k < i :: fetch(uid, ledgers[k].id).Ok?
      invariant acc.Keys == LedgerIds(ledgers[..i])
      invariant forall id | id in acc :: fetch(uid, id).Ok? && acc[id] == Aggregate(fetch(uid, id).value)
    {
      var ledger := ledgers[i];
      var fetched := fetch(uid, ledger.id);
      if fetched.Err? {
        return None;
      }
      acc := acc[ledger.id := Aggregate(fetched.value)];
      assert LedgerIds(ledgers[..i + 1]) == LedgerIds(ledgers[..i]) + {ledger.id} by {
        assert forall k | 0 <= k < i :: ledgers[..i + 1][k] == ledgers[..i][k];
      }
      i := i + 1;
    }
    assert ledgers[..i] == ledgers;
    return Some(acc);
  }

  /** The totals effect. With no user or no ledgers the previous map is kept,
      and so it is when a fetch is rejected (the rejection escapes before
      `setLedgerStats`); otherwise the map is replaced wholesale. */
  method RefreshStats(user: Option<User>, ledgers: seq<Ledger>, previous: map<string, Stats>,
                      fetch: (string, string) -> Result<seq<Transaction>, string>)
    returns (stats: map<string, Stats>)
    ensures user == None || ledgers == [] ==> stats == previous
    ensures user.Some? && !AllFetched(user.value.uid, ledgers, fetch) ==> stats == previous
    ensures user.Some? && ledgers != [] && AllFetched(user.value.uid, ledgers, fetch) ==>
      && stats.Keys == LedgerIds(ledgers)
      && forall id | id in stats ::
           fetch(user.value.uid, id).Ok? && stats[id] == Aggregate(fetch(user.value.uid, id).value)
  {
    if user == None || |ledgers| == 0 {
      return previous;
    }
    var fetched := FetchStats(user.value.uid, ledgers, fetch);
    stats := if fetched.Some? then fetched.value else previous;
  }

  /** The totals shown for a ledger: its entry, or zeros when it has none. */
  function Displayed(stats: map<string, Stats>, id: string): (r: Stats)
    ensures id !in stats ==> r == Aggregate([])
    ensures id in stats ==> r == stats[id]
  {
    if id in stats then stats[id] else Zero()
  }

  /** The listener effect on a change of user: start the ledger feed with
      the user's uid when there is a user, stop it otherwise. */
  function ListenerEffect(sys: LedgerStore.System, user: Option<User>): (r: LedgerStore.System)
    ensures LedgerStore.Inv(sys) ==> LedgerStore.Inv(r)
    ensures LedgerStore.Inv(sys) && user == None ==> r.feed.live == map[]
    ensures user.Some? && user.value.uid != "" ==>
      && r.store.unsub.Some? && r.store.unsub.value in r.feed.live
      && r.feed.live[r.store.unsub.value] == user.value.uid
  {
    if user.Some? then LedgerStore.StartListening(sys, user.value.uid)
    else LedgerStore.StopListening(sys)
  }

  /** The effect's cleanup, run on unmount and before each re-run. */
  function ListenerCleanup(sys: LedgerStore.System): (r: LedgerStore.System)
    ensures LedgerStore.Inv(sys) ==> LedgerStore.Inv(r) && r.feed.live == map[]
  {
    LedgerStore.StopListening(sys)
  }

  /** A change of user runs the previous effect's cleanup, then the effect.
      Afterwards exactly the new user's feed is live, and nothing of the
      previous user's ledgers is shown; with no user, no feed is live. */
  lemma UserChange(sys: LedgerStore.System, user: Option<User>)
    requires LedgerStore.Inv(sys)
    ensures var r := ListenerEffect(ListenerCleanup(sys), user);
      && LedgerStore.Inv(r)
      && r.store.ledgers == []
      && (user.Some? && user.value.uid != "" ==>
            r.store.loading && r.feed.live == map[r.store.unsub.value := user.value.uid])
      && (user == None || user.value.uid == "" ==> r.feed.live == map[])
  {
  }
}
