/** The event queue of src/event.c and the handler swap of src/core.c.

  Real threads share the queue under `ev_lock`, and API calls exclude each other
  under `g_vox.lock`.  The machine interleaves the threads at the granularity of
  lock operations, single field accesses and callback boundaries. */
module EventQueue {
  import opened History

  // ---------------------------------------------------------------------
  // The queue and the references its events own
  // ---------------------------------------------------------------------

  /** A queued event: the call wrapper it keeps alive until delivery, and the
    call an SDP event points into without owning it. */
  datatype Event = Event(id: nat, wrapper: Option<nat>, sdpCall: Option<nat>)

  function RefOf(e: Event): multiset<nat> {
    if e.wrapper.Some? then multiset{e.wrapper.value} else multiset{}
  }

  function Refs(s: seq<Event>): multiset<nat> {
    if s == [] then multiset{} else RefOf(s[0]) + Refs(s[1..])
  }

  /** The list, its hand-kept length, and what has entered and left: accepted and
    dequeued events, references taken and given back. */
  datatype Queue = Queue(
    events: seq<Event>, len: nat, max: nat,
    accepted: seq<Event>, dequeued: seq<Event>,
    acquired: multiset<nat>, released: multiset<nat>)

  function NewQueue(max: nat): Queue {
    Queue([], 0, max, [], [], multiset{}, multiset{})
  }

  /** vox_event_post_qev, and the same lines in log.c and trace.c. */
  function Post(q: Queue, e: Event): Queue {
    var q := q.(acquired := q.acquired + RefOf(e));
    if q.len >= q.max then q.(released := q.released + RefOf(e))
    else q.(events := q.events + [e], len := q.len + 1, accepted := q.accepted + [e])
  }

  function Unlink(q: Queue): Queue
    requires q.events != [] && q.len > 0
  {
    q.(events := q.events[1..], len := q.len - 1, dequeued := q.dequeued + [q.events[0]])
  }

  function Free(q: Queue, e: Event): Queue {
    q.(released := q.released + RefOf(e))
  }

  /** The clone of owned delivery takes over the wrapper, or a reference of its
    own to the call an SDP event points into. */
  function CloneOf(e: Event): Event {
    if e.wrapper.None? && e.sdpCall.Some? then e.(wrapper := e.sdpCall) else e
  }

  function CloneTakes(q: Queue, e: Event): Queue {
    if e.wrapper.None? && e.sdpCall.Some? then q.(acquired := q.acquired + multiset{e.sdpCall.value}) else q
  }

  /** The rest of vox_event_close once the thread has been joined. */
  function DrainAll(q: Queue): Queue {
    q.(released := q.released + Refs(q.events), events := [], len := 0)
  }

  // ---------------------------------------------------------------------
  // Threads
  // ---------------------------------------------------------------------

  type Tid = nat
  const EVENT_THREAD: Tid := 0

  /** One voxsdk_set_event_handler call's arguments. */
  datatype Handler = Handler(cb: Option<nat>, userdata: nat, owned: bool)

  /** Where the event thread is.  `index` numbers the install a snapshot is
    taken from. */
  datatype EventPc =
    | Outside
    | AtTop
    | ReadCb(ev: Event)
    | ReadUserdata(ev: Event, cb: Option<nat>)
    | ReadOwned(ev: Event, cb: Option<nat>, userdata: nat)
    | Delivering(ev: Event, handler: Handler, index: nat)
    | InCallback(ev: Event, handler: Handler, index: nat)
    | Returned(ev: Event)
    | Exited

  /** Where a voxsdk_set_event_handler call is. */
  datatype SwapPc =
    | WantApi(h: Handler)
    | WantLock(h: Handler)
    | WroteNothing(h: Handler)
    | WroteCb(h: Handler)
    | WroteUserdata(h: Handler)
    | Draining(index: nat)
    | Waiting(index: nat)

  /** What the event thread had in hand when it came to deliver: the event, the
    handler it had read, and whether memory for a clone could be had. */
  datatype Handed = Handed(ev: Event, handler: Handler, cloneOk: bool)

  /** `deliveries` are the callbacks entered, `cloned` the clones ever made. */
  datatype World = World(
    queue: Queue,
    clones: seq<Event>,
    cb: Option<nat>,
    userdata: nat,
    owned: bool,
    installs: seq<Handler>,
    delivering: bool,
    shutdown: bool,
    lock: Option<Tid>,
    api: Option<Tid>,
    evt: EventPc,
    swaps: map<Tid, SwapPc>,
    swapped: nat,
    deliveries: seq<(Event, Handler)>,
    handed: seq<Handed>,
    cloned: seq<Event>)

  /** The SDK as initialised with handler `h`: install number 0. */
  function Start(h: Handler, max: nat): World {
    World(NewQueue(max), [], h.cb, h.userdata, h.owned, [h], false, false, None, None, Outside, map[], 0, [], [], [])
  }

  datatype Move =
    | PostEvent(ev: Event)
    | ReleaseClone(i: nat)
    | Shutdown
    | TakeLock
    | WaitForWork
    | Dequeue
    | SnapCb
    | SnapUserdata
    | SnapOwned
    | Call(cloneOk: bool)
    | CallbackReturns
    | Finish
    | Exit
    | SwapCalled(tid: Tid, h: Handler)
    | SwapTakesApi(tid: Tid)
    | SwapTakesLock(tid: Tid)
    | SwapWritesCb(tid: Tid)
    | SwapWritesUserdata(tid: Tid)
    | SwapWritesOwned(tid: Tid)
    | SwapWaits(tid: Tid)
    | SwapWakes(tid: Tid)
    | SwapReturns(tid: Tid)
    | CloseQueue

  /** Moves of a voxsdk_set_event_handler call, on whichever thread. */
  predicate IsSwap(m: Move) {
    || m.SwapCalled? || m.SwapTakesApi? || m.SwapTakesLock? || m.SwapWritesCb? || m.SwapWritesUserdata?
    || m.SwapWritesOwned? || m.SwapWaits? || m.SwapWakes? || m.SwapReturns?
  }

  predicate QueueEnabled(w: World, m: Move) {
    match m
    case PostEvent(_) => w.lock.None?
    case ReleaseClone(i) => i < |w.clones|
    case Shutdown => w.lock.None?
    case TakeLock => w.evt.Outside? && w.lock.None?
    case WaitForWork => w.evt.AtTop? && w.queue.events == [] && !w.shutdown
    case Dequeue => w.evt.AtTop? && w.queue.events != [] && w.queue.len > 0
    case SnapCb => w.evt.ReadCb?
    case SnapUserdata => w.evt.ReadUserdata?
    case SnapOwned => w.evt.ReadOwned? && w.installs != []
    case Call(_) => w.evt.Delivering?
    case CallbackReturns => w.evt.InCallback? && EVENT_THREAD !in w.swaps
    case Finish => w.evt.Returned? && w.lock.None?
    case Exit => w.evt.AtTop? && w.queue.events == [] && w.shutdown
    case CloseQueue => w.evt.Exited? && w.lock.None?
    case _ => false
  }

  /** The event thread swaps only from inside its callback, and does not wait
    for its own delivery. */
  predicate SwapEnabled(w: World, m: Move) {
    match m
    case SwapCalled(tid, _) => tid !in w.swaps && (tid == EVENT_THREAD ==> w.evt.InCallback?)
    case SwapTakesApi(tid) => tid in w.swaps && w.swaps[tid].WantApi? && w.api.None?
    case SwapTakesLock(tid) => tid in w.swaps && w.swaps[tid].WantLock? && w.lock.None?
    case SwapWritesCb(tid) => tid in w.swaps && w.swaps[tid].WroteNothing?
    case SwapWritesUserdata(tid) => tid in w.swaps && w.swaps[tid].WroteCb?
    case SwapWritesOwned(tid) => tid in w.swaps && w.swaps[tid].WroteUserdata?
    case SwapWaits(tid) => tid in w.swaps && w.swaps[tid].Draining? && tid != EVENT_THREAD && w.delivering
    case SwapWakes(tid) => tid in w.swaps && w.swaps[tid].Waiting? && w.lock.None?
    case SwapReturns(tid) => tid in w.swaps && w.swaps[tid].Draining? && (tid == EVENT_THREAD || !w.delivering)
    case _ => false
  }

  predicate Enabled(w: World, m: Move) {
    if IsSwap(m) then SwapEnabled(w, m) else QueueEnabled(w, m)
  }

  function Deliver(w: World, cloneOk: bool): World
    requires w.evt.Delivering?
  {
    var Delivering(ev, h, k) := w.evt;
    var w := w.(handed := w.handed + [Handed(ev, h, cloneOk)]);
    if h.cb.None? then
      w.(evt := Returned(ev))
    else if !h.owned then
      w.(evt := InCallback(ev, h, k), deliveries := w.deliveries + [(ev, h)])
    else if !cloneOk then
      w.(evt := Returned(ev))
    else
      w.(evt := InCallback(ev.(wrapper := None), h, k), clones := w.clones + [CloneOf(ev)],
         cloned := w.cloned + [CloneOf(ev)],
         queue := CloneTakes(w.queue, ev), deliveries := w.deliveries + [(ev, h)])
  }

  function QueueStep(w: World, m: Move): World
    requires QueueEnabled(w, m)
  {
    match m
    case PostEvent(ev) => w.(queue := Post(w.queue, ev))
    case ReleaseClone(i) =>
      w.(queue := Free(w.queue, w.clones[i]), clones := w.clones[..i] + w.clones[i + 1..])
    case Shutdown => w.(shutdown := true)
    case TakeLock => w.(lock := Some(EVENT_THREAD), evt := AtTop)
    case WaitForWork => w.(lock := None, evt := Outside)
    case Dequeue => w.(queue := Unlink(w.queue), evt := ReadCb(w.queue.events[0]))
    case SnapCb => w.(evt := ReadUserdata(w.evt.ev, w.cb))
    case SnapUserdata => w.(evt := ReadOwned(w.evt.ev, w.evt.cb, w.userdata))
    case SnapOwned =>
      w.(evt := Delivering(w.evt.ev, Handler(w.evt.cb, w.evt.userdata, w.owned), |w.installs| - 1),
         delivering := true, lock := None)
    case Call(cloneOk) => Deliver(w, cloneOk)
    case CallbackReturns => w.(evt := Returned(w.evt.ev))
    case Finish =>
      w.(queue := Free(w.queue, w.evt.ev), evt := AtTop, lock := Some(EVENT_THREAD), delivering := false)
    case Exit => w.(lock := None, evt := Exited)
    case CloseQueue => w.(queue := DrainAll(w.queue))
  }

  function SwapStep(w: World, m: Move): World
    requires SwapEnabled(w, m)
  {
    match m
    case SwapCalled(tid, h) => w.(swaps := w.swaps[tid := WantApi(h)])
    case SwapTakesApi(tid) => w.(api := Some(tid), swaps := w.swaps[tid := WantLock(w.swaps[tid].h)])
    case SwapTakesLock(tid) => w.(lock := Some(tid), swaps := w.swaps[tid := WroteNothing(w.swaps[tid].h)])
    case SwapWritesCb(tid) => w.(cb := w.swaps[tid].h.cb, swaps := w.swaps[tid := WroteCb(w.swaps[tid].h)])
    case SwapWritesUserdata(tid) =>
      w.(userdata := w.swaps[tid].h.userdata, swaps := w.swaps[tid := WroteUserdata(w.swaps[tid].h)])
    case SwapWritesOwned(tid) =>
      w.(owned := w.swaps[tid].h.owned, installs := w.installs + [w.swaps[tid].h],
         swaps := w.swaps[tid := Draining(|w.installs|)])
    case SwapWaits(tid) => w.(lock := None, swaps := w.swaps[tid := Waiting(w.swaps[tid].index)])
    case SwapWakes(tid) => w.(lock := Some(tid), swaps := w.swaps[tid := Draining(w.swaps[tid].index)])
    case SwapReturns(tid) =>
      w.(lock := None, api := None, swaps := w.swaps - {tid},
         swapped := if tid == EVENT_THREAD || w.swaps[tid].index < w.swapped then w.swapped else w.swaps[tid].index)
  }

  function Step(w: World, m: Move): World
    requires Enabled(w, m)
  {
    if IsSwap(m) then SwapStep(w, m) else QueueStep(w, m)
  }

  /** Every interleaving: moves that are not enabled change nothing. */
  function Run(h: Handler, max: nat, moves: Log<Move>): World {
    match moves
    case Empty => Start(h, max)
    case Then(past, m) =>
      var w := Run(h, max, past);
      if Enabled(w, m) then Step(w, m) else w
  }

  // ---------------------------------------------------------------------
  // The critical sections as they run on the shared queue
  // ---------------------------------------------------------------------

  class SharedQueue {
    var events: seq<Event>
    var len: nat
    const max: nat
    ghost var accepted: seq<Event>
    ghost var dequeued: seq<Event>
    ghost var acquired: multiset<nat>
    ghost var released: multiset<nat>

    ghost function View(): Queue
      reads this
    {
      Queue(events, len, max, accepted, dequeued, acquired, released)
    }

    ghost predicate Valid()
      reads this
    {
      len == |events| <= max
    }

    constructor (max: nat)
      ensures Valid() && View() == NewQueue(max)
    {
      events, len, this.max := [], 0, max;
      accepted, dequeued, acquired, released := [], [], multiset{}, multiset{};
    }

    /** Takes ownership of the event: queued, or freed when the queue is full. */
    method PostQev(e: Event) returns (ok: bool)
      requires Valid()
      modifies this
      ensures Valid() && View() == Post(old(View()), e)
      ensures ok <==> |old(events)| < max
    {
      acquired := acquired + RefOf(e);
      if len >= max {
        released := released + RefOf(e);
        return false;
      }
      events := events + [e];
      len := len + 1;
      accepted := accepted + [e];
      ok := true;
    }

    method TakeHead() returns (e: Event)
      requires Valid() && events != []
      modifies this
      ensures Valid() && View() == Unlink(old(View())) && e == old(events)[0]
    {
      e := events[0];
      events := events[1..];
      len := len - 1;
      dequeued := dequeued + [e];
    }

    /** Free what was posted after the event thread left. */
    method Close()
      requires Valid()
      modifies this
      ensures Valid() && View() == DrainAll(old(View()))
    {
      while events != []
        invariant released + Refs(events) == old(released) + Refs(old(events))
        invariant accepted == old(accepted) && dequeued == old(dequeued) && acquired == old(acquired)
        decreases |events|
      {
        var e := events[0];
        events := events[1..];
        released := released + RefOf(e);
      }
      len := 0;
    }
  }
}
