/** Failure containment, bounded gathering, no restart storm, and the nominated
  pair wins: theorems about src/ice_shim.c over every run of a session. */
module IceProofs {
  import opened History
  import opened IceSession

  // ---------------------------------------------------------------------
  // What a reader of the session's events can count
  // ---------------------------------------------------------------------

  /** `estabs` counts every call of baresip's estab handler; `lateFailure` says
    that one of them reported a failure without being the first.  `awaiting` is
    set from a restart to the first update outside a nested one, and `storm`
    says that an update inside that window scheduled another restart. */
  datatype Ledger = Ledger(
    estabs: nat, fails: nat, lateFailure: bool,
    restarts: nat, peerRestarts: nat, awaiting: bool, storm: bool,
    requests: nat, reoffers: nat)

  function Book(l: Ledger, e: IceEvent): Ledger {
    match e
    case Offered(c) =>
      l.(estabs := l.estabs + 1, reoffers := l.reoffers + if c.CandidateReoffer? then 1 else 0)
    case FailureReported =>
      l.(estabs := l.estabs + 1, fails := l.fails + 1, lateFailure := l.lateFailure || l.estabs > 0)
    case ReofferRequested => l.(requests := l.requests + 1)
    case Restarted(p) =>
      l.(restarts := l.restarts + 1, peerRestarts := l.peerRestarts + (if p then 1 else 0), awaiting := true)
    case Updated(nested, schedules) =>
      l.(storm := l.storm || (schedules && l.awaiting), awaiting := l.awaiting && nested)
  }

  function Books(log: Log<IceEvent>): Ledger {
    match log
    case Empty => Ledger(0, 0, false, 0, 0, false, false, 0, 0)
    case Then(past, e) => Book(Books(past), e)
  }

  lemma OffersAreBooked(log: Log<IceEvent>)
    ensures AnyOffer(log) <==> Books(log).estabs > 0
  {
  }

  function One(b: bool): nat {
    if b then 1 else 0
  }

  /** What every step keeps, flags against books. */
  predicate Ok(s: Sess, timeoutMs: nat) {
    var l := Books(s.log);
    && (s.restarting ==> !s.released && s.gather.Armed?)
    && (timeoutMs > 0 && !s.released ==> s.gather.Armed?)
    && (!s.released && !s.restarting ==> l.estabs == 0)
    && !l.lateFailure && l.fails <= 1 && (l.estabs == 0 ==> l.fails == 0)
    && l.peerRestarts + One(s.rrestart.Armed?) <= s.rrestarts <= MAX_REMOTE_RESTARTS
    && l.awaiting == s.awaitAnswer && !l.storm
    && l.requests + One(!s.reoffered) <= 1 + l.restarts
    && l.reoffers + One(s.reoffer.Armed?) <= l.requests
    && (s.reoffer.Armed? ==> l.estabs > 0)
  }

  /** An update books itself and moves nothing but the streams, the awaited
    answer and the schedule of a restart. */
  lemma UpdateShape(s: Sess, nested: bool, sdp: Sdp)
    ensures var t := Update(s, nested, sdp);
            var schedules := AnswersPeerRestart(s, sdp);
            && |t.medias| == |s.medias|
            && t == Tell(s.(medias := t.medias, awaitAnswer := s.awaitAnswer && nested,
                            rrestarts := s.rrestarts + One(schedules),
                            rrestart := if schedules then Armed(0) else s.rrestart),
                         Updated(nested, schedules))
  {
    hide ReassertAll, SyncAll, ForgetAll, AnyPeerChanged;
  }

  lemma UpdateKeepsOk(s: Sess, timeoutMs: nat, nested: bool, sdp: Sdp)
    requires Ok(s, timeoutMs)
    ensures Ok(Update(s, nested, sdp), timeoutMs)
  {
    hide Update, AnyPeerChanged;
    UpdateShape(s, nested, sdp);
    assert Books(Update(s, nested, sdp).log) == Book(Books(s.log), Update(s, nested, sdp).log.last);
  }

  lemma HandOverKeepsOk(s: Sess, timeoutMs: nat, cause: Cause, nested: Option<Sdp>)
    requires Ok(Tell(s, Offered(cause)), timeoutMs)
    ensures Ok(HandOver(s, cause, nested), timeoutMs)
  {
    hide Update, SignalAll;
    if nested.Some? {
      var t := Tell(s, Offered(cause));
      UpdateKeepsOk(t.(medias := SignalAll(t.medias, nested.value.peer)), timeoutMs, true, nested.value);
    }
  }

  lemma GatherKeepsOk(s: Sess, timeoutMs: nat, failed: bool, nested: Option<Sdp>, incoming: bool)
    requires Ok(s, timeoutMs)
    ensures Ok(GatherReport(s, failed, nested, incoming), timeoutMs)
  {
    hide HandOver, RebaseAll, SyncAll;
    var t := s.(gather := Stopped, restarting := false, released := true, medias := RebaseAll(s.medias));
    HandOverKeepsOk(t, timeoutMs, Gathered, nested);
  }

  lemma DeadlineKeepsOk(s: Sess, timeoutMs: nat, nested: Option<Sdp>)
    requires Ok(s, timeoutMs)
    ensures Ok(GatherDeadline(s, nested), timeoutMs)
  {
    hide HandOver;
    HandOverKeepsOk(s.(gather := Stopped, restarting := false, released := true), timeoutMs, DeadlineHit, nested);
  }

  lemma ConnectedKeepsOk(s: Sess, timeoutMs: nat, input: IceInput)
    requires Ok(s, timeoutMs) && input.PairNominated? && Enabled(s, input)
    ensures Ok(Step(s, timeoutMs, input), timeoutMs)
  {
    hide HandOver, ConnectMedia;
    OffersAreBooked(s.log);
    var t := s.(medias := s.medias[input.i := ConnectMedia(s.medias[input.i], input.raddr, input.incoming)]);
    if !input.incoming && NeverSignalled(t.medias[input.i]) && !s.reoffered && !input.awaitingSecure {
      var r := Tell(t.(reoffered := true), ReofferRequested).(reoffer := Stopped);
      assert Books(Tell(r, Offered(CandidateReoffer)).log)
          == Book(Book(Books(s.log), ReofferRequested), Offered(CandidateReoffer));
      HandOverKeepsOk(r, timeoutMs, CandidateReoffer, input.nested);
    }
  }

  lemma ReofferKeepsOk(s: Sess, timeoutMs: nat, awaitingSecure: bool, now: nat, nested: Option<Sdp>)
    requires Ok(s, timeoutMs) && s.reoffer.Armed?
    ensures Ok(ReofferPoll(s, awaitingSecure, now, nested), timeoutMs)
  {
    hide HandOver;
    if !awaitingSecure {
      HandOverKeepsOk(s.(reoffer := Stopped), timeoutMs, CandidateReoffer, nested);
    }
  }

  lemma RestartKeepsOk(s: Sess, timeoutMs: nat, laddr: Option<Endpoint>, allocOk: bool, forPeer: bool)
    requires Ok(s, timeoutMs)
    requires forPeer ==> Books(s.log).peerRestarts + One(s.rrestart.Armed?) < s.rrestarts
    ensures Ok(Restart(s, timeoutMs, laddr, allocOk, forPeer).0, timeoutMs)
  {
    hide RestartAll;
  }

  lemma StepKeepsOk(s: Sess, timeoutMs: nat, input: IceInput)
    requires Ok(s, timeoutMs) && Enabled(s, input)
    ensures Ok(Step(s, timeoutMs, input), timeoutMs)
  {
    hide GatherReport, GatherDeadline, Connected, ReofferPoll, Restart, Update, SignalAll;
    match input
    case Gather(failed, nested, incoming) => GatherKeepsOk(s, timeoutMs, failed, nested, incoming);
    case GatherTimer(nested) => DeadlineKeepsOk(s, timeoutMs, nested);
    case PairNominated(_, _, _, _, _, _) => ConnectedKeepsOk(s, timeoutMs, input);
    case ReofferTimer(awaiting, now, nested) => ReofferKeepsOk(s, timeoutMs, awaiting, now, nested);
    case RestartTimer(ok) => RestartKeepsOk(s.(rrestart := Stopped), timeoutMs, None, ok, true);
    case HandoverRestart(laddr, ok) => RestartKeepsOk(s, timeoutMs, laddr, ok, false);
    case SdpExchange(sdp) => UpdateKeepsOk(s.(medias := SignalAll(s.medias, sdp.peer)), timeoutMs, false, sdp);
    case _ =>
  }

  lemma {:induction false} RunsAreOk(timeoutMs: nat, inputs: Log<IceInput>)
    ensures Ok(Run(timeoutMs, inputs), timeoutMs)
  {
    hide Step, Enabled;
    match inputs
    case Empty =>
    case Then(past, i) =>
      RunsAreOk(timeoutMs, past);
      if Enabled(Run(timeoutMs, past), i) { StepKeepsOk(Run(timeoutMs, past), timeoutMs, i); }
  }

  /** baresip's estab handler hears of a failure at most once per session, and
    then as the very first thing it hears. */
  lemma {:induction false} FailureIsContained(timeoutMs: nat, inputs: Log<IceInput>)
    ensures var l := Books(Run(timeoutMs, inputs).log);
            l.fails <= 1 && !l.lateFailure
  {
    RunsAreOk(timeoutMs, inputs);
  }

  /** A restart in progress has its deadline armed and its offer outstanding, and
    with a deadline configured so has every session that has not offered. */
  lemma {:induction false} GatheringIsBounded(timeoutMs: nat, inputs: Log<IceInput>)
    ensures var s := Run(timeoutMs, inputs);
            && (s.restarting ==> !s.released && s.gather.Armed?)
            && (timeoutMs > 0 && !s.released ==> s.gather.Armed?)
  {
    RunsAreOk(timeoutMs, inputs);
  }

  lemma HandOverFrame(s: Sess, cause: Cause, nested: Option<Sdp>)
    ensures var t := HandOver(s, cause, nested);
            && t.released == s.released && t.restarting == s.restarting && |t.medias| == |s.medias|
            && Books(t.log).estabs == Books(s.log).estabs + 1
  {
    hide Update, AnswersPeerRestart, SignalAll;
    if nested.Some? {
      var t := Tell(s, Offered(cause));
      UpdateShape(t.(medias := SignalAll(t.medias, nested.value.peer)), true, nested.value);
    }
  }

  /** So a gather that never reports still hands an offer over when the deadline
    fires, and later restarts are not refused as already running. */
  lemma {:induction false} SilentGatherStillOffers(timeoutMs: nat, inputs: Log<IceInput>, nested: Option<Sdp>, laddr: Option<Endpoint>)
    requires !Run(timeoutMs, inputs).released && Run(timeoutMs, inputs).gather.Armed?
    ensures var s := Run(timeoutMs, inputs);
            var t := GatherDeadline(s, nested);
            && t.released && !t.restarting
            && Books(t.log).estabs == Books(s.log).estabs + 1
            && (t.medias != [] ==> Restart(t, timeoutMs, laddr, true, false).1 == RestartAnswer.Ok)
  {
    hide HandOver;
    var s := Run(timeoutMs, inputs);
    HandOverFrame(s.(gather := Stopped, restarting := false, released := true), DeadlineHit, nested);
  }

  /** However often the peer changes its credentials, the session answers with at
    most two restarts of its own; the first update after any restart of ours
    never schedules another; and candidate re-offers, requested or sent, number
    at most one more than the restarts. */
  lemma {:induction false} NoRestartStorm(timeoutMs: nat, inputs: Log<IceInput>)
    ensures var l := Books(Run(timeoutMs, inputs).log);
            && l.peerRestarts <= 2
            && !l.storm
            && l.requests <= 1 + l.restarts
            && l.reoffers <= l.requests
  {
    RunsAreOk(timeoutMs, inputs);
  }

  /** The hypothesis on nominated pairs is needed: a pair reported before any
    offer would send a candidate re-offer as the first estab call, and the
    gather's failure would then be the second. */
  lemma EarlyPairLetsFailureBeSecond(s: Sess, m: Media, raddr: Option<Endpoint>, now: nat)
    requires s == Create(0).(medias := [m]) && NeverSignalled(m)
    ensures var early := Connected(s, 0, raddr, false, false, now, None);
            Books(GatherReport(early, true, None, false).log).lateFailure
  {
    var early := Connected(s, 0, raddr, false, false, now, None);
    assert early.log == Then(Then(Empty, ReofferRequested), Offered(CandidateReoffer));
    var failed := GatherReport(early, true, None, false);
    assert failed.log == Then(early.log, FailureReported);
    assert Books(early.log).estabs == 1;
  }

  // ---------------------------------------------------------------------
  // The nominated pair wins
  // ---------------------------------------------------------------------

  /** Media goes to the pair ICE nominated. */
  predicate Pinned(m: Media) {
    m.connh && m.selSet && !m.held ==> m.stream == m.selected
  }

  predicate AllPinned(ms: seq<Media>) {
    forall i :: 0 <= i < |ms| ==> Pinned(ms[i])
  }

  /** Straight after an SDP exchange: a remembered pair is in force, and a stream
    without one sends where the peer signalled. */
  predicate Settled(m: Media) {
    && (m.connh && m.selSet ==> !m.held && m.stream == m.selected)
    && (!m.selSet || !m.connh ==> m.stream == m.sdpRaddr)
  }

  predicate AllSettled(ms: seq<Media>) {
    forall i :: 0 <= i < |ms| ==> Settled(ms[i])
  }

  /** Every SDP exchange, nested or not, leaves every stream settled, whatever the
    state before: the reset to the signalled address never sticks. */
  lemma ExchangeSettles(s: Sess, nested: bool, sdp: Sdp)
    ensures AllSettled(ApplySdp(s, nested, sdp).medias) && AllPinned(ApplySdp(s, nested, sdp).medias)
  {
    hide AnyPeerChanged, AnswersPeerRestart, SignalAll, SyncAll, ReassertAll, ForgetAll;
    var signalled := SignalAll(s.medias, sdp.peer);
    ReassertSettles(s.medias, sdp.peer);
    ForgetSettles(s.medias, sdp.peer);
    var ms := ApplySdp(s, nested, sdp).medias;
    assert ms == ReassertAll(signalled) || ms == ReassertAll(SyncAll(signalled)) || ms == ForgetAll(SyncAll(signalled));
    SettledIsPinned(ms);
  }

  /** One stream, signalled and then re-asserted or let go. */
  lemma MediaSettles(m: Media, peer: PeerMedia)
    ensures Settled(ReassertMedia(SignalMedia(m, peer))) && Settled(ReassertMedia(SyncMedia(SignalMedia(m, peer))))
    ensures Settled(ForgetMedia(SyncMedia(SignalMedia(m, peer))))
  {
  }

  lemma SettledIsPinned(ms: seq<Media>)
    requires AllSettled(ms)
    ensures AllPinned(ms)
  {
  }

  lemma ReassertSettles(ms: seq<Media>, peer: nat -> PeerMedia)
    ensures AllSettled(ReassertAll(SignalAll(ms, peer))) && AllSettled(ReassertAll(SyncAll(SignalAll(ms, peer))))
  {
    hide Settled, ReassertMedia, SyncMedia, SignalMedia;
    forall i: nat | i < |ms|
      ensures Settled(ReassertMedia(SignalMedia(ms[i], peer(i)))) && Settled(ReassertMedia(SyncMedia(SignalMedia(ms[i], peer(i)))))
    {
      MediaSettles(ms[i], peer(i));
    }
  }

  lemma ForgetSettles(ms: seq<Media>, peer: nat -> PeerMedia)
    ensures AllSettled(ForgetAll(SyncAll(SignalAll(ms, peer))))
  {
    hide Settled, ForgetMedia, SyncMedia, SignalMedia;
    forall i: nat | i < |ms| ensures Settled(ForgetMedia(SyncMedia(SignalMedia(ms[i], peer(i))))) {
      MediaSettles(ms[i], peer(i));
    }
  }

  lemma HandOverKeepsPinned(s: Sess, cause: Cause, nested: Option<Sdp>)
    requires AllPinned(s.medias)
    ensures AllPinned(HandOver(s, cause, nested).medias)
  {
    hide ApplySdp;
    if nested.Some? { ExchangeSettles(Tell(s, Offered(cause)), true, nested.value); }
  }

  lemma ConnectedKeepsPinned(
    s: Sess, i: nat, raddr: Option<Endpoint>, incoming: bool, awaiting: bool, now: nat, nested: Option<Sdp>)
    requires AllPinned(s.medias) && i < |s.medias|
    ensures AllPinned(Connected(s, i, raddr, incoming, awaiting, now, nested).medias)
  {
    hide HandOver;
    var t := s.(medias := s.medias[i := ConnectMedia(s.medias[i], raddr, incoming)]);
    assert AllPinned(t.medias);
    HandOverKeepsPinned(Tell(t.(reoffered := true), ReofferRequested).(reoffer := Stopped), CandidateReoffer, nested);
  }

  lemma StepKeepsPinned(s: Sess, timeoutMs: nat, input: IceInput)
    requires AllPinned(s.medias) && Enabled(s, input)
    ensures AllPinned(Step(s, timeoutMs, input).medias)
  {
    hide HandOver, ApplySdp, AnyOffer, Connected;
    match input
    case Gather(failed, nested, incoming) =>
      var t := s.(gather := Stopped, restarting := false, released := true, medias := RebaseAll(s.medias));
      HandOverKeepsPinned(t, Gathered, nested);
    case GatherTimer(nested) =>
      HandOverKeepsPinned(s.(gather := Stopped, restarting := false, released := true), DeadlineHit, nested);
    case PairNominated(i, raddr, incoming, awaiting, now, nested) =>
      ConnectedKeepsPinned(s, i, raddr, incoming, awaiting, now, nested);
    case ReofferTimer(awaiting, now, nested) => HandOverKeepsPinned(s.(reoffer := Stopped), CandidateReoffer, nested);
    case SdpExchange(sdp) => ExchangeSettles(s, false, sdp);
    case _ =>
  }

  /** On every run, outside an SDP application, a stream whose pair ICE nominated
    and released sends its media to that pair. */
  lemma {:induction false} NominatedPairWins(timeoutMs: nat, inputs: Log<IceInput>)
    ensures AllPinned(Run(timeoutMs, inputs).medias)
  {
    hide Step, Enabled;
    match inputs
    case Empty =>
    case Then(past, i) =>
      NominatedPairWins(timeoutMs, past);
      if Enabled(Run(timeoutMs, past), i) { StepKeepsPinned(Run(timeoutMs, past), timeoutMs, i); }
  }

  /** A peer that signals a different address is followed, not pinned: after the
    exchange the stream sends there unless the pair was still held for the
    answer. */
  lemma {:induction false} MovedPeerIsFollowed(s: Sess, sdp: Sdp, i: nat)
    requires i < |s.medias| && s.medias[i].connh && !s.medias[i].held
    requires s.medias[i].rsig != sdp.peer(i).raddr
    ensures var m := ApplySdp(s, false, sdp).medias[i];
            !m.selSet && m.stream == sdp.peer(i).raddr
  {
    hide AnyPeerChanged, AnswersPeerRestart;
    var m := SignalMedia(s.medias[i], sdp.peer(i));
    var t := ApplySdp(s, false, sdp);
    assert t.medias[i] == ReassertMedia(SyncMedia(m)) || t.medias[i] == ForgetMedia(SyncMedia(m));
  }
}
