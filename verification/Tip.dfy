/** The live-tip state of the ingest loop: heights the websocket has signalled but no sweep has
    covered yet, and whether a full sweep is owed first. */
module Tip {
  import opened Model

  datatype WsEvent = LogAt(height: nat) | RemovedAt(height: nat) | StreamError | StreamEnd

  datatype Tip = Tip(wsEnabled: bool, sub: bool, pending: set<nat>, reconcile: bool, reorgAt: Option<nat>)

  function NewTip(wsEnabled: bool): Tip {
    Tip(wsEnabled, false, {}, true, None)
  }

  /** A subscription is wanted and none is live. */
  predicate WantsStream(t: Tip) {
    t.wsEnabled && !t.sub
  }

  /** A fresh stream only covers blocks after it started, so it forces a sweep. */
  function Subscribed(t: Tip): Tip {
    t.(sub := true, reconcile := true)
  }

  predicate MustFetch(t: Tip, safe: nat) {
    !t.wsEnabled || t.reconcile || exists p :: p in t.pending && p <= safe
  }

  predicate ShouldPollHead(t: Tip) {
    !t.wsEnabled || t.reconcile || t.pending != {}
  }

  function ClearedThrough(t: Tip, target: nat): Tip {
    t.(pending := set p | p in t.pending && p > target)
  }

  function AfterEvent(t: Tip, e: WsEvent): Tip {
    match e
    case RemovedAt(h) => t.(reorgAt := Some(if t.reorgAt.Some? && t.reorgAt.value < h then t.reorgAt.value else h))
    case LogAt(h) => t.(pending := t.pending + {h})
    case StreamError => t.(sub := false)
    case StreamEnd => t.(sub := false)
  }

  class TipState {
    var wsEnabled: bool
    var sub: bool
    var pending: set<nat>
    var reconcile: bool
    var reorgAt: Option<nat>

    ghost function State(): Tip
      reads this
    {
      Tip(wsEnabled, sub, pending, reconcile, reorgAt)
    }

    constructor (wsEnabled: bool)
      ensures State() == NewTip(wsEnabled)
    {
      this.wsEnabled := wsEnabled;
      sub, pending, reconcile, reorgAt := false, {}, true, None;
    }

    /** Subscribes when a stream is wanted; `accepted` is the source's answer. */
    method EnsureSubscribed(accepted: bool)
      modifies this
      ensures State() == if WantsStream(old(State())) && accepted then Subscribed(old(State())) else old(State())
      ensures wsEnabled == old(wsEnabled) && pending == old(pending) && reorgAt == old(reorgAt)
      ensures sub <==> old(sub) || (wsEnabled && accepted)
      ensures reconcile <==> old(reconcile) || (sub && !old(sub))
    {
      if !wsEnabled || sub {
        return;
      }
      if accepted {
        sub := true;
        reconcile := true;
      }
    }

    method ClearThrough(target: nat)
      modifies this`pending
      ensures State() == ClearedThrough(old(State()), target)
      ensures forall h :: h in pending <==> h in old(pending) && h > target
    {
      pending := set p | p in pending && p > target;
    }

    method TakeReorgSignal() returns (signal: Option<nat>)
      modifies this`reorgAt
      ensures signal == old(reorgAt) && reorgAt.None? && State() == old(State()).(reorgAt := None)
    {
      signal := reorgAt;
      reorgAt := None;
    }

    method OnWsEvent(e: WsEvent)
      modifies this
      ensures State() == AfterEvent(old(State()), e)
      ensures wsEnabled == old(wsEnabled) && reconcile == old(reconcile)
      ensures sub <==> old(sub) && !e.StreamError? && !e.StreamEnd?
      ensures forall h :: h in pending <==> h in old(pending) || e == LogAt(h)
      ensures !e.RemovedAt? ==> reorgAt == old(reorgAt)
      ensures e.RemovedAt? ==>
                && reorgAt.Some? && reorgAt.value <= e.height
                && (old(reorgAt).None? ==> reorgAt.value == e.height)
                && (old(reorgAt).Some? ==> reorgAt.value <= old(reorgAt).value && reorgAt.value in {e.height, old(reorgAt).value})
    {
      match e
      case RemovedAt(h) =>
        reorgAt := Some(if reorgAt.Some? && reorgAt.value < h then reorgAt.value else h);
      case LogAt(h) =>
        pending := pending + {h};
      case StreamError =>
        sub := false;
      case StreamEnd =>
        sub := false;
    }
  }

  /** On the websocket path the head is polled only when a sweep is owed or something is pending,
      so skipping a fetch means something is pending and all of it is above the safe tip. */
  lemma NoFetchMeansPendingAbove(t: Tip, safe: nat)
    requires ShouldPollHead(t) && !MustFetch(t, safe)
    ensures t.wsEnabled && !t.reconcile
    ensures exists p :: p in t.pending && p > safe
    ensures forall p :: p in t.pending ==> p > safe
  {
  }
}
