/** The ledger store: a local mirror of the signed-in user's ledger collection,
    kept current by one live feed scoped to the user id. */
module LedgerStore {
  import opened Common
  import opened Records
  import Feed

  /** The store's fields. `error` is declared by the store but written by
      none of its actions. */
  datatype State = State(
    ledgers: seq<Ledger>,
    loading: bool,
    error: Option<string>,
    unsub: Option<Feed.Handle>)

  /** The store together with the live-feed service it subscribes to; each
      feed is scoped to a user id. */
  datatype System = System(store: State, feed: Feed.Registry<string>)

  function Initial(): System {
    System(State([], false, None, None), Feed.Empty())
  }

  /** What holds between actions: the registered listeners are exactly the one
      the store holds (so at most one), no action has written `error`, and
      without a handle the list is empty. */
  ghost predicate Inv(sys: System) {
    && Feed.WellFormed(sys.feed)
    && sys.feed.live.Keys == Feed.Slot(sys.store.unsub)
    && sys.store.error == None
    && (sys.store.unsub == None ==> sys.store.ledgers == [])
  }

  /** `startListening(uid)`. A falsy uid returns at once. Otherwise `loading`
      is set, the held handle (if any) is cancelled, and a fresh feed for
      `uid` is opened and its handle stored. The held ledgers are not cleared:
      they stay until the new feed's first snapshot. */
  function StartListening(sys: System, uid: string): (r: System)
    ensures uid == "" ==> r == sys
    ensures uid != "" ==>
      && r.store.loading
      && r.store.ledgers == sys.store.ledgers
      && r.store.error == sys.store.error
      && r.store.unsub.Some?
      && r.store.unsub.value in r.feed.live && r.feed.live[r.store.unsub.value] == uid
    ensures uid != "" && Inv(sys) ==>
      && r.feed.live == map[r.store.unsub.value := uid]
      && r.store.unsub.value !in sys.feed.live
      && r.store.unsub != sys.store.unsub
  {
    if uid == "" then sys
    else
      var cancelled :=
        if sys.store.unsub.Some? then Feed.Cancel(sys.feed, sys.store.unsub.value) else sys.feed;
      var (feed', h) := Feed.Subscribe(cancelled, uid);
      System(sys.store.(loading := true, unsub := Some(h)), feed')
  }

  /** The snapshot callback of a feed: the feed fires it only while `h` is
      registered, and it replaces the ledgers wholesale and clears `loading`. */
  function Deliver(sys: System, h: Feed.Handle, items: seq<Ledger>): (r: System)
    ensures !Feed.Fires(sys.feed, h) ==> r == sys
    ensures Feed.Fires(sys.feed, h) ==>
      && r.store.ledgers == items
      && !r.store.loading
      && r.store.unsub == sys.store.unsub
      && r.store.error == sys.store.error
      && r.feed == sys.feed
  {
    if Feed.Fires(sys.feed, h) then sys.(store := sys.store.(ledgers := items, loading := false))
    else sys
  }

  /** `stopListening()`. With a handle: cancel it, drop it and clear the
      list. Without one: nothing. `loading` and `error` are never touched. */
  function StopListening(sys: System): (r: System)
    ensures sys.store.unsub == None ==> r == sys
    ensures sys.store.unsub.Some? ==>
      && r.store.unsub == None
      && r.store.ledgers == []
      && r.feed.live.Keys == sys.feed.live.Keys - {sys.store.unsub.value}
    ensures r.store.loading == sys.store.loading && r.store.error == sys.store.error
    ensures Inv(sys) ==> r.feed.live == map[]
  {
    if sys.store.unsub.Some? then
      System(sys.store.(unsub := None, ledgers := []), Feed.Cancel(sys.feed, sys.store.unsub.value))
    else sys
  }

  /** The stimuli the store reacts to. */
  datatype Event = Start(uid: string) | Stop | Snapshot(handle: Feed.Handle, items: seq<Ledger>)

  function Step(sys: System, e: Event): System {
    match e
    case Start(uid) => StartListening(sys, uid)
    case Stop => StopListening(sys)
    case Snapshot(h, items) => Deliver(sys, h, items)
  }

  function Run(sys: System, es: seq<Event>): System
    decreases |es|
  {
    if es == [] then sys else Run(Step(sys, es[0]), es[1..])
  }

  /** A snapshot that fires comes from the handle the store holds. */
  lemma SnapshotOnlyFromHeldHandle(sys: System, h: Feed.Handle)
    requires Inv(sys)
    requires Feed.Fires(sys.feed, h)
    ensures sys.store.unsub == Some(h)
  {
  }

  lemma StepPreservesInv(sys: System, e: Event)
    requires Inv(sys)
    ensures Inv(Step(sys, e))
  {
  }

  /** From the initial store, any sequence of start, stop and snapshot events
      leaves at most one live feed, and it is the one held in `unsub`; `error`
      stays null throughout. */
  lemma {:induction false} AtMostOneLiveFeed(sys: System, es: seq<Event>)
    requires Inv(sys)
    ensures var r := Run(sys, es);
      && Inv(r)
      && |r.feed.live| <= 1
      && (forall h | h in r.feed.live :: r.store.unsub == Some(h))
      && r.store.error == None
    decreases |es|
  {
    if es != [] {
      StepPreservesInv(sys, es[0]);
      AtMostOneLiveFeed(Step(sys, es[0]), es[1..]);
    }
    var r := Run(sys, es);
    assert r.feed.live.Keys == Feed.Slot(r.store.unsub);
    assert |r.feed.live| == |r.feed.live.Keys|;
  }

  lemma InitialInv()
    ensures Inv(Initial())
    ensures Initial().store.error == None && !Initial().store.loading
  {
  }

  /** Stopping twice is stopping once. */
  lemma StopIdempotent(sys: System)
    ensures StopListening(StopListening(sys)) == StopListening(sys)
  {
  }

  /** After a stop, or after a restart with a non-empty uid, a snapshot from
      the old feed no longer changes the store. */
  lemma StaleSnapshotIgnored(sys: System, uid: string, items: seq<Ledger>)
    requires Inv(sys) && sys.store.unsub.Some? && uid != ""
    ensures var h := sys.store.unsub.value;
      && Deliver(StopListening(sys), h, items) == StopListening(sys)
      && Deliver(StartListening(sys, uid), h, items) == StartListening(sys, uid)
  {
  }

  /** Two starts in a row leave exactly one live feed, the second one, scoped
      to the second uid; the first handle is gone. */
  lemma RestartKeepsOnlySecondFeed(sys: System, a: string, b: string)
    requires Inv(sys) && a != "" && b != ""
    ensures var s1 := StartListening(sys, a);
      var s2 := StartListening(s1, b);
      && s2.feed.live == map[s2.store.unsub.value := b]
      && s1.store.unsub.value !in s2.feed.live
  {
  }
}
