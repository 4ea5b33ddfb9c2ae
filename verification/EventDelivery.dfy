/** Every delivery obeys the handler's ownership mode: what happens to each event
  the thread takes from the queue, over every interleaving. */
module EventDelivery {
  import opened History
  import opened EventQueue
  import opened EventQueueProofs

  /** The callback is entered: there is one, and an owned delivery got its clone. */
  predicate Enters(x: Handed) {
    x.handler.cb.Some? && (!x.handler.owned || x.cloneOk)
  }

  /** The app is given a clone to release. */
  predicate GivesClone(x: Handed) {
    x.handler.cb.Some? && x.handler.owned && x.cloneOk
  }

  /** The clone is the same event; it holds the call wrapper the event held, or for
    an SDP event without one a reference of its own to the call. */
  function CloneFor(ev: Event): Event {
    Event(ev.id, if ev.wrapper.Some? then ev.wrapper else ev.sdpCall, ev.sdpCall)
  }

  /** The delivery step: without a callback the event passes; a borrowed handler is
    always entered, and clones and references stay as they are; an owned one is
    entered exactly when the clone was made, and the clone then joins those the
    app has to release. */
  lemma {:induction false} CallIs(w: World, cloneOk: bool)
    requires w.evt.Delivering?
    ensures var (v, x) := (Step(w, Call(cloneOk)), Handed(w.evt.ev, w.evt.handler, cloneOk));
            && v.handed == w.handed + [x]
            && (v.evt.InCallback? <==> Enters(x)) && (v.evt.Returned? <==> !Enters(x))
            && v.deliveries == (if Enters(x) then w.deliveries + [(x.ev, x.handler)] else w.deliveries)
            && v.clones == (if GivesClone(x) then w.clones + [CloneFor(x.ev)] else w.clones)
            && v.cloned == (if GivesClone(x) then w.cloned + [CloneFor(x.ev)] else w.cloned)
            && v.queue.events == w.queue.events && v.queue.released == w.queue.released
            && v.queue.acquired == (if GivesClone(x) && x.ev.wrapper.None? && x.ev.sdpCall.Some?
                                    then w.queue.acquired + multiset{x.ev.sdpCall.value} else w.queue.acquired)
  {
    assert Step(w, Call(cloneOk)) == Deliver(w, cloneOk);
    hide Step;
  }

  /** No other step delivers, clones or hands anything over. */
  lemma OtherMovesHandNothing(w: World, m: Move)
    requires Enabled(w, m) && !m.Call?
    ensures var v := Step(w, m);
            v.handed == w.handed && v.deliveries == w.deliveries && v.cloned == w.cloned
  {
    hide Post, Unlink, Free, DrainAll, Deliver;
  }

  // ---------------------------------------------------------------------
  // Over every interleaving
  // ---------------------------------------------------------------------

  function EventsOf(hs: seq<Handed>): seq<Event> {
    if hs == [] then [] else EventsOf(hs[..|hs| - 1]) + [hs[|hs| - 1].ev]
  }

  function DeliveriesOf(hs: seq<Handed>): seq<(Event, Handler)> {
    if hs == [] then []
    else
      var x := hs[|hs| - 1];
      DeliveriesOf(hs[..|hs| - 1]) + if Enters(x) then [(x.ev, x.handler)] else []
  }

  function ClonesOf(hs: seq<Handed>): seq<Event> {
    if hs == [] then []
    else
      var x := hs[|hs| - 1];
      ClonesOf(hs[..|hs| - 1]) + if GivesClone(x) then [CloneFor(x.ev)] else []
  }

  lemma OneMoreHanded(hs: seq<Handed>, x: Handed)
    ensures EventsOf(hs + [x]) == EventsOf(hs) + [x.ev]
    ensures DeliveriesOf(hs + [x]) == DeliveriesOf(hs) + if Enters(x) then [(x.ev, x.handler)] else []
    ensures ClonesOf(hs + [x]) == ClonesOf(hs) + if GivesClone(x) then [CloneFor(x.ev)] else []
  {
    assert (hs + [x])[..|hs|] == hs;
  }

  /** Callbacks entered and clones made are those the handlers asked for; every
    event taken from the queue has been handed over, or is in hand. */
  predicate Obeyed(w: World) {
    && w.deliveries == DeliveriesOf(w.handed)
    && w.cloned == ClonesOf(w.handed)
    && w.queue.dequeued == EventsOf(w.handed) + if Undelivered(w.evt) then [w.evt.ev] else []
  }

  lemma CallObeys(w: World, cloneOk: bool)
    requires Obeyed(w) && w.evt.Delivering?
    ensures Obeyed(Step(w, Call(cloneOk)))
  {
    hide DeliveriesOf, ClonesOf, EventsOf, Enters, GivesClone;
    CallIs(w, cloneOk);
    OneMoreHanded(w.handed, Handed(w.evt.ev, w.evt.handler, cloneOk));
    MoveShape(w, Call(cloneOk));
    hide Step;
    assert w.queue.dequeued == EventsOf(w.handed) + [w.evt.ev];
  }

  lemma OtherMovesObey(w: World, m: Move)
    requires Obeyed(w) && Enabled(w, m) && !m.Call?
    ensures Obeyed(Step(w, m))
  {
    hide DeliveriesOf, ClonesOf, EventsOf, Step, Enabled;
    OtherMovesHandNothing(w, m);
    MoveShape(w, m);
  }

  /** Over every interleaving of all threads. */
  lemma {:induction false} EveryDeliveryObeys(h: Handler, max: nat, moves: Log<Move>)
    ensures Obeyed(Run(h, max, moves))
  {
    hide Step, Obeyed;
    match moves
    case Empty => NothingHanded(h, max);
    case Then(past, m) =>
      EveryDeliveryObeys(h, max, past);
      var w := Run(h, max, past);
      if Enabled(w, m) {
        if m.Call? { CallObeys(w, m.cloneOk); } else { OtherMovesObey(w, m); }
      }
  }

  lemma NothingHanded(h: Handler, max: nat)
    ensures Obeyed(Start(h, max))
  {
  }
}
