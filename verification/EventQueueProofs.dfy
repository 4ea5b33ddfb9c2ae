/** Handler-swap safety, FIFO refinement and reference conservation over every
  interleaving of the event thread, the posters and the swappers. */
module EventQueueProofs {
  import opened History
  import opened EventQueue

  // ---------------------------------------------------------------------
  // Lock discipline
  // ---------------------------------------------------------------------

  predicate EventThreadLocks(pc: EventPc) {
    pc.AtTop? || pc.ReadCb? || pc.ReadUserdata? || pc.ReadOwned?
  }

  predicate SwapLocks(pc: SwapPc) {
    pc.WroteNothing? || pc.WroteCb? || pc.WroteUserdata? || pc.Draining?
  }

  predicate HasIndex(pc: SwapPc) {
    pc.Draining? || pc.Waiting?
  }

  /** Whoever is inside a critical section of ev_lock owns it; the event thread
    is in a swap only from inside its own callback; and the delivering flag
    spells where the event thread is. */
  predicate Locked(w: World) {
    && (EventThreadLocks(w.evt) ==> w.lock == Some(EVENT_THREAD))
    && (forall t :: t in w.swaps && SwapLocks(w.swaps[t]) ==> w.lock == Some(t))
    && (EVENT_THREAD in w.swaps ==> w.evt.InCallback?)
    && (forall t :: t in w.swaps && !w.swaps[t].WantApi? ==> w.api == Some(t))
    && (w.delivering <==> w.evt.Delivering? || w.evt.InCallback? || w.evt.Returned?)
  }

  lemma QueueKeepsLocked(w: World, m: Move)
    requires Locked(w) && !IsSwap(m) && QueueEnabled(w, m)
    ensures Locked(QueueStep(w, m))
  {
    hide Post, Unlink, Free, DrainAll, CloneTakes, CloneOf;
  }

  lemma SwapKeepsLocked(w: World, m: Move)
    requires Locked(w) && IsSwap(m) && SwapEnabled(w, m)
    ensures Locked(SwapStep(w, m))
  {
  }

  lemma StepKeepsLocked(w: World, m: Move)
    requires Locked(w) && Enabled(w, m)
    ensures Locked(Step(w, m))
  {
    hide QueueStep, SwapStep, QueueEnabled, SwapEnabled;
    if IsSwap(m) { SwapKeepsLocked(w, m); } else { QueueKeepsLocked(w, m); }
  }

  // ---------------------------------------------------------------------
  // One coherent handler per delivery
  // ---------------------------------------------------------------------

  function Current(w: World): Handler {
    Handler(w.cb, w.userdata, w.owned)
  }

  /** The swapper that owns ev_lock, if a swapper does. */
  function Writer(w: World): Option<SwapPc> {
    if w.lock.Some? && w.lock.value in w.swaps then Some(w.swaps[w.lock.value]) else None
  }

  /** The shared fields spell the newest install, except between the first and
    the last write of the swap that owns the lock. */
  predicate FieldsOk(w: World) {
    && w.installs != []
    && match Writer(w)
       case Some(WroteCb(h)) => w.cb == h.cb
       case Some(WroteUserdata(h)) => w.cb == h.cb && w.userdata == h.userdata
       case _ => Current(w) == w.installs[|w.installs| - 1]
  }

  /** A snapshot in progress agrees with the newest install; a finished one is
    exactly one of the installs. */
  predicate SnapshotOk(w: World) {
    match w.evt
    case ReadUserdata(_, cb) => cb == w.cb
    case ReadOwned(_, cb, ud) => cb == w.cb && ud == w.userdata
    case Delivering(_, h, k) => k < |w.installs| && h == w.installs[k]
    case InCallback(_, h, k) => k < |w.installs| && h == w.installs[k]
    case _ => true
  }

  predicate HistoryOk(w: World) {
    forall d :: d in w.deliveries ==> d.1 in w.installs
  }

  predicate Coherent(w: World) {
    FieldsOk(w) && SnapshotOk(w) && HistoryOk(w)
  }

  lemma QueueKeepsFields(w: World, m: Move)
    requires Locked(w) && FieldsOk(w) && !IsSwap(m) && QueueEnabled(w, m)
    ensures FieldsOk(QueueStep(w, m))
  {
    hide Post, Unlink, Free, DrainAll, CloneTakes, CloneOf;
  }

  lemma SwapKeepsFields(w: World, m: Move)
    requires Locked(w) && FieldsOk(w) && IsSwap(m) && SwapEnabled(w, m)
    ensures FieldsOk(SwapStep(w, m))
  {
  }

  lemma StepKeepsFields(w: World, m: Move)
    requires Locked(w) && FieldsOk(w) && Enabled(w, m)
    ensures FieldsOk(Step(w, m))
  {
    hide QueueStep, SwapStep, QueueEnabled, SwapEnabled;
    if IsSwap(m) { SwapKeepsFields(w, m); } else { QueueKeepsFields(w, m); }
  }

  lemma QueueKeepsSnapshot(w: World, m: Move)
    requires Locked(w) && FieldsOk(w) && SnapshotOk(w) && !IsSwap(m) && QueueEnabled(w, m)
    ensures SnapshotOk(QueueStep(w, m))
  {
    hide Post, Unlink, Free, DrainAll, CloneTakes, CloneOf;
  }

  lemma QueueKeepsHistory(w: World, m: Move)
    requires SnapshotOk(w) && HistoryOk(w) && !IsSwap(m) && QueueEnabled(w, m)
    ensures HistoryOk(QueueStep(w, m))
  {
    hide Post, Unlink, Free, DrainAll, CloneTakes, CloneOf;
  }

  lemma SwapKeepsSnapshot(w: World, m: Move)
    requires Locked(w) && Coherent(w) && IsSwap(m) && SwapEnabled(w, m)
    ensures SnapshotOk(SwapStep(w, m)) && HistoryOk(SwapStep(w, m))
  {
    match m
    case SwapWritesCb(tid) => assert !EventThreadLocks(w.evt);
    case SwapWritesUserdata(tid) => assert !EventThreadLocks(w.evt);
    case SwapWritesOwned(tid) => assert forall h :: h in w.installs ==> h in w.installs + [w.swaps[tid].h];
    case _ =>
  }

  lemma StepKeepsSnapshot(w: World, m: Move)
    requires Locked(w) && Coherent(w) && Enabled(w, m)
    ensures SnapshotOk(Step(w, m)) && HistoryOk(Step(w, m))
  {
    hide QueueStep, SwapStep, QueueEnabled, SwapEnabled;
    if IsSwap(m) {
      SwapKeepsSnapshot(w, m);
    } else {
      QueueKeepsSnapshot(w, m);
      QueueKeepsHistory(w, m);
    }
  }

  // ---------------------------------------------------------------------
  // A returned swap is final
  // ---------------------------------------------------------------------

  /** `swapped` is the newest install whose swap has returned on another thread:
    no delivery in progress is older. */
  predicate Drained(w: World) {
    && w.swapped < |w.installs|
    && (forall t :: t in w.swaps && HasIndex(w.swaps[t]) ==> w.swaps[t].index < |w.installs|)
    && (w.evt.Delivering? || w.evt.InCallback? ==> w.evt.index >= w.swapped)
  }

  lemma QueueKeepsDrained(w: World, m: Move)
    requires Locked(w) && Drained(w) && !IsSwap(m) && QueueEnabled(w, m)
    ensures Drained(QueueStep(w, m))
    ensures w.swapped <= QueueStep(w, m).swapped
  {
    hide Post, Unlink, Free, DrainAll, CloneTakes, CloneOf;
  }

  lemma SwapKeepsDrained(w: World, m: Move)
    requires Locked(w) && Drained(w) && IsSwap(m) && SwapEnabled(w, m)
    ensures Drained(SwapStep(w, m))
    ensures w.swapped <= SwapStep(w, m).swapped
  {
  }

  lemma StepKeepsDrained(w: World, m: Move)
    requires Locked(w) && Drained(w) && Enabled(w, m)
    ensures Drained(Step(w, m))
    ensures w.swapped <= Step(w, m).swapped
  {
    hide QueueStep, SwapStep, QueueEnabled, SwapEnabled;
    if IsSwap(m) { SwapKeepsDrained(w, m); } else { QueueKeepsDrained(w, m); }
  }

  // ---------------------------------------------------------------------
  // Queue refinement
  // ---------------------------------------------------------------------

  /** Until the queue is closed, what was accepted is what was dequeued followed
    by what is still listed. */
  predicate Fifo(w: World) {
    && w.queue.len == |w.queue.events| <= w.queue.max
    && (!w.evt.Exited? ==> w.queue.accepted == w.queue.dequeued + w.queue.events)
    && w.queue.dequeued <= w.queue.accepted
  }

  /** A swap never touches the queue, the clones or the event thread. */
  lemma SwapLeavesQueue(w: World, m: Move)
    requires IsSwap(m) && SwapEnabled(w, m)
    ensures SwapStep(w, m).queue == w.queue && SwapStep(w, m).clones == w.clones && SwapStep(w, m).evt == w.evt
  {
  }

  lemma DeliverLeavesList(w: World, cloneOk: bool)
    requires w.evt.Delivering?
    ensures var (q, q') := (w.queue, Deliver(w, cloneOk).queue);
            && q'.events == q.events && q'.len == q.len && q'.max == q.max
            && q'.accepted == q.accepted && q'.dequeued == q.dequeued
    ensures !Deliver(w, cloneOk).evt.Exited?
  {
  }

  lemma StepKeepsFifo(w: World, m: Move)
    requires Fifo(w) && Enabled(w, m)
    ensures Fifo(Step(w, m))
    ensures w.queue.dequeued <= Step(w, m).queue.dequeued && w.queue.accepted <= Step(w, m).queue.accepted
    ensures m.Exit? ==> Step(w, m).queue.dequeued == Step(w, m).queue.accepted
  {
    hide SwapStep, SwapEnabled, Deliver, Post, Unlink;
    var q := w.queue;
    match m
    case PostEvent(ev) => PostKeepsList(q, ev);
    case Dequeue => UnlinkKeepsList(q);
    case Exit => assert q.dequeued + [] == q.dequeued;
    case Call(cloneOk) => DeliverLeavesList(w, cloneOk);
    case _ => if IsSwap(m) { SwapLeavesQueue(w, m); }
  }

  lemma PostKeepsList(q: Queue, e: Event)
    ensures var p := Post(q, e);
            && p.dequeued == q.dequeued && q.accepted <= p.accepted && p.max == q.max
            && (q.len == |q.events| <= q.max ==> p.len == |p.events| <= p.max)
            && (q.accepted == q.dequeued + q.events ==> p.accepted == p.dequeued + p.events)
  {
    assert (q.dequeued + q.events) + [e] == q.dequeued + (q.events + [e]);
  }

  lemma UnlinkKeepsList(q: Queue)
    requires q.events != [] && q.len > 0
    ensures var p := Unlink(q);
            && p.accepted == q.accepted && q.dequeued <= p.dequeued && p.max == q.max
            && (q.len == |q.events| <= q.max ==> p.len == |p.events| <= p.max)
            && (q.accepted == q.dequeued + q.events ==> p.accepted == p.dequeued + p.events)
  {
    assert q.dequeued + q.events == (q.dequeued + [q.events[0]]) + q.events[1..];
  }

  // ---------------------------------------------------------------------
  // References
  // ---------------------------------------------------------------------

  /** How many references to wrapper `x` an event, or a list of them, owns. */
  function Own(e: Event, x: nat): nat {
    if e.wrapper == Some(x) then 1 else 0
  }

  function Owns(s: seq<Event>, x: nat): nat {
    if s == [] then 0 else Own(s[0], x) + Owns(s[1..], x)
  }

  function InFlight(pc: EventPc, x: nat): nat {
    match pc
    case ReadCb(ev) => Own(ev, x)
    case ReadUserdata(ev, _) => Own(ev, x)
    case ReadOwned(ev, _, _) => Own(ev, x)
    case Delivering(ev, _, _) => Own(ev, x)
    case InCallback(ev, _, _) => Own(ev, x)
    case Returned(ev) => Own(ev, x)
    case _ => 0
  }

  /** Every reference ever taken is given back or held by exactly one owner: a
    queued event, the event in flight, or a clone the consumer still has. */
  ghost predicate Balanced(w: World) {
    forall x: nat :: BalancedFor(w, x)
  }

  predicate BalancedFor(w: World, x: nat) {
    w.queue.acquired[x] == w.queue.released[x] + Owns(w.queue.events, x) + InFlight(w.evt, x) + Owns(w.clones, x)
  }

  lemma {:induction false} OwnsAppend(s: seq<Event>, t: seq<Event>, x: nat)
    ensures Owns(s + t, x) == Owns(s, x) + Owns(t, x)
  {
    if s == [] {
      assert s + t == t;
    } else {
      assert (s + t)[1..] == s[1..] + t;
      OwnsAppend(s[1..], t, x);
    }
  }

  lemma OwnsOne(e: Event, x: nat)
    ensures Owns([e], x) == Own(e, x)
  {
  }

  lemma OwnsRemove(s: seq<Event>, i: nat, x: nat)
    requires i < |s|
    ensures Owns(s, x) == Owns(s[..i] + s[i + 1..], x) + Own(s[i], x)
  {
    assert s == s[..i] + ([s[i]] + s[i + 1..]);
    OwnsAppend(s[..i], [s[i]] + s[i + 1..], x);
    OwnsAppend([s[i]], s[i + 1..], x);
    OwnsAppend(s[..i], s[i + 1..], x);
    OwnsOne(s[i], x);
  }

  lemma RefOfCounts(e: Event, x: nat)
    ensures RefOf(e)[x] == Own(e, x)
  {
  }

  lemma {:induction false} RefsCount(s: seq<Event>, x: nat)
    ensures Refs(s)[x] == Owns(s, x)
  {
    if s != [] {
      RefOfCounts(s[0], x);
      RefsCount(s[1..], x);
    }
  }

  lemma FreeCounts(q: Queue, e: Event, x: nat)
    ensures Free(q, e) == q.(released := Free(q, e).released)
    ensures Free(q, e).released[x] == q.released[x] + Own(e, x)
  {
    RefOfCounts(e, x);
  }

  lemma PostBalances(w: World, ev: Event, x: nat)
    requires BalancedFor(w, x)
    ensures BalancedFor(w.(queue := Post(w.queue, ev)), x)
  {
    RefOfCounts(ev, x);
    OwnsAppend(w.queue.events, [ev], x);
    OwnsOne(ev, x);
  }

  lemma CloneCounts(q: Queue, e: Event, x: nat)
    ensures CloneTakes(q, e) == q.(acquired := CloneTakes(q, e).acquired)
    ensures CloneTakes(q, e).acquired[x] + Own(e, x) == q.acquired[x] + Own(CloneOf(e), x)
  {
  }

  lemma DeliverBalances(w: World, cloneOk: bool, x: nat)
    requires BalancedFor(w, x) && w.evt.Delivering?
    ensures BalancedFor(Deliver(w, cloneOk), x)
  {
    hide CloneTakes, CloneOf, Owns;
    var ev := w.evt.ev;
    CloneCounts(w.queue, ev, x);
    OwnsAppend(w.clones, [CloneOf(ev)], x);
    OwnsOne(CloneOf(ev), x);
  }

  lemma DrainCounts(q: Queue, x: nat)
    ensures DrainAll(q).acquired == q.acquired && DrainAll(q).events == []
    ensures DrainAll(q).released[x] == q.released[x] + Owns(q.events, x)
  {
    RefsCount(q.events, x);
  }

  lemma OwnsNothing(x: nat)
    ensures Owns([], x) == 0
  {
  }

  lemma UnlinkCounts(q: Queue, x: nat)
    requires q.events != [] && q.len > 0
    ensures Unlink(q).acquired == q.acquired && Unlink(q).released == q.released
    ensures Owns(q.events, x) == Own(q.events[0], x) + Owns(Unlink(q).events, x)
  {
  }

  /** Moves that neither take nor give back a reference. */
  predicate IsQuiet(m: Move) {
    || m.Shutdown? || m.TakeLock? || m.WaitForWork? || m.SnapCb? || m.SnapUserdata? || m.SnapOwned?
    || m.CallbackReturns? || m.Exit?
  }

  lemma QuietBalances(w: World, m: Move, x: nat)
    requires BalancedFor(w, x) && IsQuiet(m) && QueueEnabled(w, m)
    ensures BalancedFor(QueueStep(w, m), x)
  {
    hide Owns, Own;
  }

  lemma StepBalances(w: World, m: Move, x: nat)
    requires BalancedFor(w, x) && Enabled(w, m)
    ensures BalancedFor(Step(w, m), x)
  {
    hide Post, Deliver, Free, DrainAll, Unlink, Owns, SwapStep, SwapEnabled;
    if IsSwap(m) {
      SwapLeavesQueue(w, m);
    } else if IsQuiet(m) {
      QuietBalances(w, m, x);
    } else {
      match m
      case PostEvent(ev) => PostBalances(w, ev, x);
      case ReleaseClone(i) => FreeCounts(w.queue, w.clones[i], x); OwnsRemove(w.clones, i, x);
      case Call(cloneOk) => DeliverBalances(w, cloneOk, x);
      case Finish => FreeCounts(w.queue, w.evt.ev, x);
      case Dequeue => UnlinkCounts(w.queue, x);
      case CloseQueue => DrainCounts(w.queue, x); OwnsNothing(x);
    }
  }

  lemma StepKeepsBalanced(w: World, m: Move)
    requires Balanced(w) && Enabled(w, m)
    ensures Balanced(Step(w, m))
  {
    hide Step, Enabled, BalancedFor;
    forall x: nat ensures BalancedFor(Step(w, m), x) { StepBalances(w, m, x); }
  }

  // ---------------------------------------------------------------------
  // Over every interleaving
  // ---------------------------------------------------------------------

  ghost predicate Safe(w: World) {
    Locked(w) && Coherent(w) && Drained(w) && Fifo(w) && Balanced(w)
  }

  lemma StepKeepsSafe(w: World, m: Move)
    requires Safe(w) && Enabled(w, m)
    ensures Safe(Step(w, m))
  {
    hide Step, Enabled, Locked, FieldsOk, SnapshotOk, HistoryOk, Drained, Fifo, Balanced;
    StepKeepsLocked(w, m);
    StepKeepsFields(w, m);
    StepKeepsSnapshot(w, m);
    StepKeepsDrained(w, m);
    StepKeepsFifo(w, m);
    StepKeepsBalanced(w, m);
  }

  lemma {:induction false} EveryInterleavingIsSafe(h: Handler, max: nat, moves: Log<Move>)
    ensures Safe(Run(h, max, moves))
  {
    hide Step, Enabled;
    match moves
    case Empty =>
    case Then(past, m) =>
      EveryInterleavingIsSafe(h, max, past);
      if Enabled(Run(h, max, past), m) { StepKeepsSafe(Run(h, max, past), m); }
  }

  /** `later` happens after `earlier`. */
  predicate Extends(later: Log<Move>, earlier: Log<Move>) {
    later == earlier || (later.Then? && Extends(later.past, earlier))
  }

  lemma {:induction false} SwappedNeverFalls(h: Handler, max: nat, earlier: Log<Move>, later: Log<Move>)
    requires Extends(later, earlier)
    ensures Run(h, max, earlier).swapped <= Run(h, max, later).swapped
  {
    hide Step, Enabled, Safe;
    if later != earlier {
      SwappedNeverFalls(h, max, earlier, later.past);
      var w := Run(h, max, later.past);
      EveryInterleavingIsSafe(h, max, later.past);
      SwapOnlyGrows(w, later.last);
    }
  }

  lemma SwapOnlyGrows(w: World, m: Move)
    requires Safe(w)
    ensures Enabled(w, m) ==> w.swapped <= Step(w, m).swapped
  {
    hide Step, Enabled;
    if Enabled(w, m) { StepKeepsDrained(w, m); }
  }

  /** Once a swap has returned on a thread other than the event thread, no
    callback from an older install is running, and none is entered ever after,
    however the run continues. */
  lemma {:induction false} SwapIsFinal(h: Handler, max: nat, before: Log<Move>, tid: Tid, later: Log<Move>)
    requires var w := Run(h, max, before);
             Enabled(w, SwapReturns(tid)) && tid != EVENT_THREAD
    requires Extends(later, Then(before, SwapReturns(tid)))
    ensures var k := Run(h, max, before).swaps[tid].index;
            var now := Run(h, max, later);
            && k < |now.installs|
            && (now.evt.Delivering? || now.evt.InCallback? ==>
                  k <= now.evt.index < |now.installs| && now.evt.handler == now.installs[now.evt.index])
  {
    hide Fifo, Balanced, FieldsOk, HistoryOk, Locked;
    var at := Then(before, SwapReturns(tid));
    SwappedNeverFalls(h, max, at, later);
    EveryInterleavingIsSafe(h, max, later);
    EveryInterleavingIsSafe(h, max, at);
    assert Run(h, max, at).swapped >= Run(h, max, before).swaps[tid].index;
  }

  /** Every delivery the app ever saw used the callback, user data and ownership
    mode of one single install. */
  lemma {:induction false} DeliveriesAreCoherent(h: Handler, max: nat, moves: Log<Move>, i: nat)
    requires i < |Run(h, max, moves).deliveries|
    ensures Run(h, max, moves).deliveries[i].1 in Run(h, max, moves).installs
  {
    hide Run, Fifo, Balanced, FieldsOk, SnapshotOk, Locked, Drained;
    EveryInterleavingIsSafe(h, max, moves);
    assert Run(h, max, moves).deliveries[i] in Run(h, max, moves).deliveries;
  }

  /** The counted length is the list's and within the limit; what was accepted
    has been dequeued, in order and once, or is still listed; and when the thread
    leaves, everything accepted so far has been dequeued. */
  lemma {:induction false} QueueIsFifo(h: Handler, max: nat, moves: Log<Move>)
    ensures var q := Run(h, max, moves).queue;
            q.len == |q.events| <= q.max && q.dequeued <= q.accepted
    ensures var w := Run(h, max, moves);
            !w.evt.Exited? ==> w.queue.accepted == w.queue.dequeued + w.queue.events
    ensures Enabled(Run(h, max, moves), Exit) ==> Run(h, max, moves).queue.dequeued == Run(h, max, moves).queue.accepted
  {
    hide Run, Balanced, Coherent, Locked, Drained;
    EveryInterleavingIsSafe(h, max, moves);
  }

  /** The events of the deliveries, in order. */
  function Told(ds: seq<(Event, Handler)>): seq<Event> {
    if ds == [] then [] else Told(ds[..|ds| - 1]) + [ds[|ds| - 1].0]
  }

  /** `xs` is `ys` with some entries left out. */
  predicate Subsequence(xs: seq<Event>, ys: seq<Event>)
    decreases |ys|
  {
    xs == [] ||
    (ys != [] &&
     ((xs[|xs| - 1] == ys[|ys| - 1] && Subsequence(xs[..|xs| - 1], ys[..|ys| - 1]))
      || Subsequence(xs, ys[..|ys| - 1])))
  }

  lemma SubsequenceSkips(xs: seq<Event>, ys: seq<Event>, e: Event)
    requires Subsequence(xs, ys)
    ensures Subsequence(xs, ys + [e]) && Subsequence(xs + [e], ys + [e])
  {
    assert (ys + [e])[..|ys|] == ys && (xs + [e])[..|xs|] == xs;
  }

  predicate Undelivered(pc: EventPc) {
    pc.ReadCb? || pc.ReadUserdata? || pc.ReadOwned? || pc.Delivering?
  }

  /** What the app was told is part of what was dequeued before the event in
    hand, in that order. */
  predicate InOrder(told: seq<Event>, dequeued: seq<Event>, pc: EventPc) {
    if Undelivered(pc) then
      dequeued != [] && dequeued[|dequeued| - 1] == pc.ev && Subsequence(told, dequeued[..|dequeued| - 1])
    else Subsequence(told, dequeued)
  }

  lemma ToldGrows(ds: seq<(Event, Handler)>, e: Event, h: Handler)
    ensures Told(ds + [(e, h)]) == Told(ds) + [e]
  {
    assert (ds + [(e, h)])[..|ds|] == ds;
  }

  /** What one move may do to the deliveries and the dequeued events. */
  predicate Moves(w: World, m: Move, v: World) {
    if m.Dequeue? then
      && w.evt.AtTop? && w.queue.events != []
      && v.deliveries == w.deliveries && v.evt == ReadCb(w.queue.events[0])
      && v.queue.dequeued == w.queue.dequeued + [w.queue.events[0]]
    else
      && v.queue.dequeued == w.queue.dequeued
      && (m.Call? ==> w.evt.Delivering? && !Undelivered(v.evt))
      && (if m.Call? && !v.evt.Returned? then v.deliveries == w.deliveries + [(w.evt.ev, w.evt.handler)]
          else v.deliveries == w.deliveries)
      && (Undelivered(v.evt) ==> Undelivered(w.evt) && v.evt.ev == w.evt.ev)
      && (Undelivered(w.evt) ==> Undelivered(v.evt) || m.Call?)
  }

  lemma QueueMoveShape(w: World, m: Move)
    requires !IsSwap(m) && QueueEnabled(w, m)
    ensures Moves(w, m, QueueStep(w, m))
  {
    hide DrainAll, Post, Free, Deliver;
    QueueFrames(w.queue);
    if m.Call? { DeliverMoves(w, m.cloneOk); }
  }

  lemma DeliverMoves(w: World, cloneOk: bool)
    requires w.evt.Delivering?
    ensures Moves(w, Call(cloneOk), Deliver(w, cloneOk))
  {
    hide CloneTakes, CloneOf;
    QueueFrames(w.queue);
  }

  lemma SwapMoveShape(w: World, m: Move)
    requires IsSwap(m) && SwapEnabled(w, m)
    ensures Moves(w, m, SwapStep(w, m))
  {
  }

  lemma MoveShape(w: World, m: Move)
    requires Enabled(w, m)
    ensures Moves(w, m, Step(w, m))
  {
    hide QueueStep, SwapStep, QueueEnabled, SwapEnabled, Moves;
    if IsSwap(m) { SwapMoveShape(w, m); } else { QueueMoveShape(w, m); }
  }

  lemma QueueFrames(q: Queue)
    ensures forall e {:trigger Post(q, e)} :: Post(q, e).dequeued == q.dequeued
    ensures forall e {:trigger Free(q, e)} :: Free(q, e).dequeued == q.dequeued
    ensures forall e {:trigger CloneTakes(q, e)} :: CloneTakes(q, e).dequeued == q.dequeued
    ensures DrainAll(q).dequeued == q.dequeued
  {
  }

  lemma MoveKeepsOrder(w: World, m: Move)
    requires Enabled(w, m) && InOrder(Told(w.deliveries), w.queue.dequeued, w.evt)
    ensures InOrder(Told(Step(w, m).deliveries), Step(w, m).queue.dequeued, Step(w, m).evt)
  {
    hide Step, Enabled, Subsequence, Told;
    MoveShape(w, m);
    var v := Step(w, m);
    var told, dequeued := Told(w.deliveries), w.queue.dequeued;
    if m.Dequeue? {
      assert v.queue.dequeued[..|dequeued|] == dequeued;
    } else if Undelivered(w.evt) && !Undelivered(v.evt) {
      var before := dequeued[..|dequeued| - 1];
      assert dequeued == before + [w.evt.ev];
      SubsequenceSkips(told, before, w.evt.ev);
      ToldGrows(w.deliveries, w.evt.ev, w.evt.handler);
    }
  }

  /** Every event is delivered at most once, and deliveries follow the order in
    which events were accepted. */
  lemma {:induction false} DeliveredInOrder(h: Handler, max: nat, moves: Log<Move>)
    ensures InOrder(Told(Run(h, max, moves).deliveries), Run(h, max, moves).queue.dequeued, Run(h, max, moves).evt)
  {
    hide Step, InOrder;
    match moves
    case Empty => NothingTold(h, max);
    case Then(past, m) =>
      DeliveredInOrder(h, max, past);
      if Enabled(Run(h, max, past), m) { MoveKeepsOrder(Run(h, max, past), m); }
  }

  lemma NothingTold(h: Handler, max: nat)
    ensures InOrder(Told(Start(h, max).deliveries), Start(h, max).queue.dequeued, Start(h, max).evt)
  {
  }

  /** Once the queue is closed and the consumer has released its clones, every
    reference has been given back as often as it was taken. */
  lemma {:induction false} AllReferencesReturn(h: Handler, max: nat, moves: Log<Move>)
    requires var w := Run(h, max, moves);
             w.evt.Exited? && w.queue.events == [] && w.clones == []
    ensures Run(h, max, moves).queue.acquired == Run(h, max, moves).queue.released
  {
    hide Run, Fifo, Coherent, Locked, Drained;
    EveryInterleavingIsSafe(h, max, moves);
    var w := Run(h, max, moves);
    forall x: nat ensures w.queue.acquired[x] == w.queue.released[x] { assert BalancedFor(w, x); }
  }

  // ---------------------------------------------------------------------
  // A swap from inside the callback can deadlock
  // ---------------------------------------------------------------------

  /** The callback asks for the API lock, and another thread is inside a swap
    that holds it: it will not return before this delivery does. */
  predicate Doomed(w: World) {
    && EVENT_THREAD in w.swaps && w.swaps[EVENT_THREAD].WantApi? && w.evt.InCallback?
    && w.api.Some? && w.api.value != EVENT_THREAD
    && w.api.value in w.swaps && !w.swaps[w.api.value].WantApi?
  }

  lemma DoomedStep(w: World, m: Move)
    requires Locked(w) && Doomed(w) && Enabled(w, m)
    ensures Doomed(Step(w, m))
  {
    hide Post, Unlink, Free, DrainAll, CloneTakes, CloneOf;
  }

  /** No interleaving gets out of it. */
  lemma {:induction false} DoomedForever(h: Handler, max: nat, before: Log<Move>, later: Log<Move>)
    requires Doomed(Run(h, max, before)) && Extends(later, before)
    ensures Doomed(Run(h, max, later))
  {
    hide Step, Enabled, Doomed;
    if later != before {
      DoomedForever(h, max, before, later.past);
      EveryInterleavingIsSafe(h, max, later.past);
      var w := Run(h, max, later.past);
      if Enabled(w, later.last) { DoomedStep(w, later.last); }
    }
  }

  /** Whoever owns a lock is inside it. */
  predicate Held(w: World) {
    && (w.lock.Some? ==>
          || (w.lock.value == EVENT_THREAD && EventThreadLocks(w.evt))
          || (w.lock.value in w.swaps && SwapLocks(w.swaps[w.lock.value])))
    && (w.api.Some? ==> w.api.value in w.swaps && !w.swaps[w.api.value].WantApi?)
  }

  lemma QueueKeepsHeld(w: World, m: Move)
    requires Locked(w) && Held(w) && !IsSwap(m) && QueueEnabled(w, m)
    ensures Held(QueueStep(w, m))
  {
    hide Post, Unlink, Free, DrainAll, CloneTakes, CloneOf;
  }

  lemma SwapKeepsHeld(w: World, m: Move)
    requires Locked(w) && Held(w) && IsSwap(m) && SwapEnabled(w, m)
    ensures Held(SwapStep(w, m))
  {
  }

  lemma {:induction false} LocksAreHeld(h: Handler, max: nat, moves: Log<Move>)
    ensures Held(Run(h, max, moves))
  {
    hide QueueStep, SwapStep, QueueEnabled, SwapEnabled, Locked;
    match moves
    case Empty => assert Held(Start(h, max));
    case Then(past, m) =>
      LocksAreHeld(h, max, past);
      EveryInterleavingIsSafe(h, max, past);
      var w := Run(h, max, past);
      if Enabled(w, m) {
        if IsSwap(m) { SwapKeepsHeld(w, m); } else { QueueKeepsHeld(w, m); }
      }
  }

  /** One more move of the event thread's own swap. */
  lemma SwapMoves(h: Handler, max: nat, before: Log<Move>, past: Log<Move>, m: Move) returns (moves: Log<Move>)
    requires Extends(past, before) && Enabled(Run(h, max, past), m)
    ensures Extends(moves, before) && Run(h, max, moves) == Step(Run(h, max, past), m)
  {
    OneMove(h, max, past, m);
    moves := Then(past, m);
  }

  /** With the API lock free, the callback's swap takes both locks ... */
  lemma CallbackSwapEnters(h: Handler, max: nat, before: Log<Move>) returns (later: Log<Move>)
    requires var w := Run(h, max, before);
             EVENT_THREAD in w.swaps && w.swaps[EVENT_THREAD].WantApi? && w.api.None?
    ensures Extends(later, before)
    ensures EVENT_THREAD in Run(h, max, later).swaps && Run(h, max, later).swaps[EVENT_THREAD].WroteNothing?
  {
    LocksAreHeld(h, max, before);
    EveryInterleavingIsSafe(h, max, before);
    assert Run(h, max, before).lock.None?;
    assert Extends(before, before);
    hide Run, Extends, Safe, Held;
    later := SwapMoves(h, max, before, before, SwapTakesApi(EVENT_THREAD));
    later := SwapMoves(h, max, before, later, SwapTakesLock(EVENT_THREAD));
  }

  /** ... and then runs through on its own. */
  lemma CallbackSwapRuns(h: Handler, max: nat, before: Log<Move>) returns (later: Log<Move>)
    requires var w := Run(h, max, before);
             EVENT_THREAD in w.swaps && w.swaps[EVENT_THREAD].WantApi? && w.api.None?
    ensures Extends(later, before) && EVENT_THREAD !in Run(h, max, later).swaps
  {
    hide Run, Extends;
    later := CallbackSwapEnters(h, max, before);
    later := SwapMoves(h, max, before, later, SwapWritesCb(EVENT_THREAD));
    later := SwapMoves(h, max, before, later, SwapWritesUserdata(EVENT_THREAD));
    later := SwapMoves(h, max, before, later, SwapWritesOwned(EVENT_THREAD));
    later := SwapMoves(h, max, before, later, SwapReturns(EVENT_THREAD));
  }

  /** A swap called from inside the callback can return if and only if the API
    lock is free when it asks for it: a swap in progress on any other thread,
    from its first lock on, blocks it for ever. */
  lemma {:induction false} CallbackSwapReturnsExactly(h: Handler, max: nat, before: Log<Move>)
    requires var w := Run(h, max, before);
             EVENT_THREAD in w.swaps && w.swaps[EVENT_THREAD].WantApi?
    ensures (exists later :: Extends(later, before) && EVENT_THREAD !in Run(h, max, later).swaps)
            <==> Run(h, max, before).api.None?
  {
    hide Run, Extends;
    var w := Run(h, max, before);
    if w.api.None? {
      var later := CallbackSwapRuns(h, max, before);
    } else {
      LocksAreHeld(h, max, before);
      EveryInterleavingIsSafe(h, max, before);
      assert Doomed(w);
      forall later | Extends(later, before) ensures EVENT_THREAD in Run(h, max, later).swaps {
        DoomedForever(h, max, before, later);
      }
    }
  }

  lemma OneMove(h: Handler, max: nat, past: Log<Move>, m: Move)
    requires Enabled(Run(h, max, past), m)
    ensures Run(h, max, Then(past, m)) == Step(Run(h, max, past), m)
  {
  }

  /** The event thread has just dequeued `e`. */
  lemma EventIsTaken(h: Handler, e: Event) returns (moves: Log<Move>)
    ensures var w := Run(h, 1, moves);
            w == Start(h, 1).(queue := Unlink(Post(NewQueue(1), e)), lock := Some(EVENT_THREAD), evt := ReadCb(e))
  {
    var posted := Then(Empty, PostEvent(e));
    assert Run(h, 1, Empty) == Start(h, 1);
    OneMove(h, 1, Empty, PostEvent(e));
    OneMove(h, 1, posted, TakeLock);
    hide Run;
    assert Post(NewQueue(1), e).events == [e];
    moves := Then(Then(posted, TakeLock), Dequeue);
    OneMove(h, 1, Then(posted, TakeLock), Dequeue);
  }

  /** A world in which handler `h` is inside its callback. */
  lemma CallbackIsReachable(h: Handler, e: Event) returns (moves: Log<Move>)
    requires h.cb.Some?
    ensures var w := Run(h, 1, moves);
            w.evt.InCallback? && w.lock.None? && w.api.None? && w.swaps == map[] && w.delivering
  {
    hide Run, Post, Unlink;
    var taken := EventIsTaken(h, e);
    OneMove(h, 1, taken, SnapCb);
    var cb := Then(taken, SnapCb);
    OneMove(h, 1, cb, SnapUserdata);
    var userdata := Then(cb, SnapUserdata);
    OneMove(h, 1, userdata, SnapOwned);
    var owned := Then(userdata, SnapOwned);
    OneMove(h, 1, owned, Call(true));
    moves := Then(owned, Call(true));
  }

  /** ... and thread `tid` has taken both locks and written the callback. */
  lemma SwapIsReachable(h: Handler, e: Event, g: Handler, tid: Tid) returns (moves: Log<Move>)
    requires h.cb.Some? && tid != EVENT_THREAD
    ensures var w := Run(h, 1, moves);
            w.evt.InCallback? && w.delivering && w.api == Some(tid) && w.swaps == map[tid := WroteCb(g)]
  {
    hide Run;
    var inside := CallbackIsReachable(h, e);
    OneMove(h, 1, inside, SwapCalled(tid, g));
    var called := Then(inside, SwapCalled(tid, g));
    OneMove(h, 1, called, SwapTakesApi(tid));
    var api := Then(called, SwapTakesApi(tid));
    OneMove(h, 1, api, SwapTakesLock(tid));
    var locked := Then(api, SwapTakesLock(tid));
    OneMove(h, 1, locked, SwapWritesCb(tid));
    moves := Then(locked, SwapWritesCb(tid));
  }

  /** The deadlock is reachable: while the callback runs, thread `tid` swaps and
    waits for it, and then the callback itself swaps. */
  lemma {:induction false} SwapFromCallbackCanDeadlock(h: Handler, e: Event, g: Handler, tid: Tid)
    requires h.cb.Some? && tid != EVENT_THREAD
    ensures exists moves :: Doomed(Run(h, 1, moves))
  {
    hide Run;
    var writing := SwapIsReachable(h, e, g, tid);
    OneMove(h, 1, writing, SwapWritesUserdata(tid));
    var userdata := Then(writing, SwapWritesUserdata(tid));
    OneMove(h, 1, userdata, SwapWritesOwned(tid));
    var owned := Then(userdata, SwapWritesOwned(tid));
    OneMove(h, 1, owned, SwapWaits(tid));
    var waiting := Then(owned, SwapWaits(tid));
    OneMove(h, 1, waiting, SwapCalled(EVENT_THREAD, g));
    assert Doomed(Run(h, 1, Then(waiting, SwapCalled(EVENT_THREAD, g))));
  }
}
