/** The backend's live-feed service as the stores see it. Subscribing returns a
    fresh cancellation handle, cancelling unregisters that handle, and a
    snapshot callback fires only while its handle is still registered: the
    unsubscribe contract the stores rely on without ever checking handle
    identity themselves. */
module Feed {
  import opened Common

  /** An opaque cancellation token. */
  type Handle = nat

  /** The handles whose listeners are registered, each with the scope (query)
      it was opened for, and the id the next subscription will receive. */
  datatype Registry<S> = Registry(live: map<Handle, S>, next: Handle)

  function Empty<S>(): Registry<S> {
    Registry(map[], 0)
  }

  /** Every registered handle was issued before `next`, so `next` is fresh. */
  ghost predicate WellFormed<S>(f: Registry<S>) {
    forall h | h in f.live :: h < f.next
  }

  /** Opens a live feed for `scope`; returns the feed and the new handle. */
  function Subscribe<S>(f: Registry<S>, scope: S): (r: (Registry<S>, Handle))
    ensures WellFormed(f) ==> r.1 !in f.live && WellFormed(r.0)
    ensures r.0.live == f.live[r.1 := scope]
    ensures f.next <= r.1 < r.0.next
  {
    (Registry(f.live[f.next := scope], f.next + 1), f.next)
  }

  /** Unregisters `h`; the other listeners are untouched. */
  function Cancel<S>(f: Registry<S>, h: Handle): (r: Registry<S>)
    ensures r.live.Keys == f.live.Keys - {h}
    ensures forall k | k in r.live :: r.live[k] == f.live[k]
    ensures r.next == f.next
    ensures WellFormed(f) ==> WellFormed(r)
  {
    Registry(f.live - {h}, f.next)
  }

  /** A snapshot for `h` is delivered only while `h` is registered. */
  predicate Fires<S>(f: Registry<S>, h: Handle) {
    h in f.live
  }

  /** The handles a store's `unsub` slot holds: none or one. */
  function Slot(unsub: Option<Handle>): (r: set<Handle>)
    ensures |r| <= 1
    ensures forall h :: h in r <==> unsub == Some(h)
  {
    if unsub.Some? then {unsub.value} else {}
  }
}
