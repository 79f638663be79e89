/** The transaction store: a local mirror of one ledger's transactions, kept
    current by one live feed scoped to a (user id, ledger id) pair. */
module TransactionStore {
  import opened Common
  import opened Records
  import Feed

  datatype State = State(transactions: seq<Transaction>, loading: bool, unsub: Option<Feed.Handle>)

  /** The collection a feed is opened on. */
  datatype Scope = Scope(uid: string, ledgerId: string)

  datatype System = System(store: State, feed: Feed.Registry<Scope>)

  function Initial(): System {
    System(State([], false, None), Feed.Empty())
  }

  /** The registered listeners are exactly the one the store holds, and
      without a handle the list is empty. */
  ghost predicate Inv(sys: System) {
    && Feed.WellFormed(sys.feed)
    && sys.feed.live.Keys == Feed.Slot(sys.store.unsub)
    && (sys.store.unsub == None ==> sys.store.transactions == [])
  }

  /** `startListening(uid, ledgerId)`: returns at once when either id is falsy;
      otherwise sets `loading`, cancels the held handle if any, and stores the
      handle of a fresh feed on the pair. */
  function StartListening(sys: System, uid: string, ledgerId: string): (r: System)
    ensures uid == "" || ledgerId == "" ==> r == sys
    ensures uid != "" && ledgerId != "" ==>
      && r.store.loading
      && r.store.transactions == sys.store.transactions
      && r.store.unsub.Some?
      && r.store.unsub.value in r.feed.live
      && r.feed.live[r.store.unsub.value] == Scope(uid, ledgerId)
    ensures uid != "" && ledgerId != "" && Inv(sys) ==>
      && r.feed.live == map[r.store.unsub.value := Scope(uid, ledgerId)]
      && r.store.unsub.value !in sys.feed.live
  {
    if uid == "" || ledgerId == "" then sys
    else
      var cancelled :=
        if sys.store.unsub.Some? then Feed.Cancel(sys.feed, sys.store.unsub.value) else sys.feed;
      var (feed', h) := Feed.Subscribe(cancelled, Scope(uid, ledgerId));
      System(sys.store.(loading := true, unsub := Some(h)), feed')
  }

  /** The snapshot callback: fires only while `h` is registered, replaces the
      transactions wholesale and clears `loading`. */
  function Deliver(sys: System, h: Feed.Handle, items: seq<Transaction>): (r: System)
    ensures !Feed.Fires(sys.feed, h) ==> r == sys
    ensures Feed.Fires(sys.feed, h) ==>
      && r.store.transactions == items
      && !r.store.loading
      && r.store.unsub == sys.store.unsub
      && r.feed == sys.feed
  {
    if Feed.Fires(sys.feed, h) then sys.(store := sys.store.(transactions := items, loading := false))
    else sys
  }

  /** `stopListening()`: cancels the held handle if there is one, and in every
      case clears the list and the handle. `loading` is left alone. */
  function StopListening(sys: System): (r: System)
    ensures r.store.transactions == [] && r.store.unsub == None
    ensures r.store.loading == sys.store.loading
    ensures sys.store.unsub.Some? ==>
      r.feed.live.Keys == sys.feed.live.Keys - {sys.store.unsub.value}
    ensures sys.store.unsub == None ==> r.feed == sys.feed
    ensures Inv(sys) ==> r.feed.live == map[]
  {
    var feed' := if sys.store.unsub.Some? then Feed.Cancel(sys.feed, sys.store.unsub.value) else sys.feed;
    System(sys.store.(transactions := [], unsub := None), feed')
  }

  datatype Event =
    | Start(uid: string, ledgerId: string)
    | Stop
    | Snapshot(handle: Feed.Handle, items: seq<Transaction>)

  function Step(sys: System, e: Event): System {
    match e
    case Start(uid, ledgerId) => StartListening(sys, uid, ledgerId)
    case Stop => StopListening(sys)
    case Snapshot(h, items) => Deliver(sys, h, items)
  }

  function Run(sys: System, es: seq<Event>): System
    decreases |es|
  {
    if es == [] then sys else Run(Step(sys, es[0]), es[1..])
  }

  lemma StepPreservesInv(sys: System, e: Event)
    requires Inv(sys)
    ensures Inv(Step(sys, e))
  {
  }

  /** Any sequence of events keeps at most one live feed, the held one. */
  lemma {:induction false} AtMostOneLiveFeed(sys: System, es: seq<Event>)
    requires Inv(sys)
    ensures var r := Run(sys, es);
      && Inv(r)
      && |r.feed.live| <= 1
      && (forall h | h in r.feed.live :: r.store.unsub == Some(h))
    decreases |es|
  {
    if es != [] {
      StepPreservesInv(sys, es[0]);
      AtMostOneLiveFeed(Step(sys, es[0]), es[1..]);
    }
    var r := Run(sys, es);
    assert r.feed.live.Keys == Feed.Slot(r.store.unsub);
    assert |r.feed.live| == |r.feed.live.Keys|;
  }

  lemma InitialInv()
    ensures Inv(Initial())
  {
  }

  /** Stopping is idempotent, with or without a live feed. */
  lemma StopIdempotent(sys: System)
    ensures StopListening(StopListening(sys)) == StopListening(sys)
  {
  }

  /** Two starts with valid scopes leave exactly one live feed: the second,
      scoped to the second pair. A snapshot from the first feed is ignored, so
      the list reflects only the second feed's data. */
  lemma RestartKeepsOnlySecondFeed(sys: System, a: Scope, b: Scope, items: seq<Transaction>)
    requires Inv(sys)
    requires a.uid != "" && a.ledgerId != "" && b.uid != "" && b.ledgerId != ""
    ensures var s1 := StartListening(sys, a.uid, a.ledgerId);
      var s2 := StartListening(s1, b.uid, b.ledgerId);
      && s2.feed.live == map[s2.store.unsub.value := b]
      && Deliver(s2, s1.store.unsub.value, items) == s2
  {
  }

  /** After a stop, a snapshot from the cancelled feed changes nothing. */
  lemma StaleSnapshotIgnored(sys: System, items: seq<Transaction>)
    requires Inv(sys) && sys.store.unsub.Some?
    ensures Deliver(StopListening(sys), sys.store.unsub.value, items) == StopListening(sys)
  {
  }
}
