/** What each handler of src/ice_shim.c does to the pairs ICE nominated, to the
  offers and to the restarts, and exactly when. */
module IcePairs {
  import opened History
  import opened IceSession
  import opened IceProofs

  // ---------------------------------------------------------------------
  // An SDP exchange
  // ---------------------------------------------------------------------

  /** The peer comes back with other credentials than those last seen on a stream. */
  predicate Renewed(s: Sess, sdp: Sdp) {
    exists k :: 0 <= k < |s.medias| && sdp.peer(k).ufrag.Some? && s.medias[k].rufrag.Some?
             && sdp.peer(k).ufrag != s.medias[k].rufrag
  }

  /** The update that baresip makes from inside our own restart offer is not an
    exchange with the peer. */
  predicate OwnOffer(s: Sess, nested: bool) {
    nested && s.awaitAnswer
  }

  /** New credentials that answer a restart of ours, or that come while the media
    is not secured: the nominated pairs are of the past. */
  predicate DropsPairs(s: Sess, nested: bool, sdp: Sdp) {
    !OwnOffer(s, nested) && Renewed(s, sdp) && (s.awaitAnswer || sdp.awaitingSecure)
  }

  /** One stream after an exchange. */
  predicate StreamAfter(m: Media, t: Media, p: PeerMedia, own: bool, drops: bool) {
    && t.connh == m.connh && t.selected == m.selected && t.rsig == m.rsig
    && t.signalled == m.signalled && t.sdpLaddr == m.sdpLaddr
    && t.sdpRaddr == p.raddr && t.sdpUfrag == p.ufrag
    && t.rufrag == (if own || p.ufrag.None? then m.rufrag else p.ufrag)
    && if drops || !m.connh || !m.selSet then
         t.stream == p.raddr && t.held == m.held && t.selSet == (m.selSet && !drops)
       else if m.held then t.selSet && !t.held && t.stream == m.selected
       else !t.held && (if p.raddr.Some? && p.raddr == m.rsig then t.selSet && t.stream == m.selected
                        else !t.selSet && t.stream == p.raddr)
  }

  lemma ChangedIsRenewed(s: Sess, sdp: Sdp)
    ensures AnyPeerChanged(SignalAll(s.medias, sdp.peer)) <==> Renewed(s, sdp)
  {
    var ms := SignalAll(s.medias, sdp.peer);
    assert forall k :: 0 <= k < |ms| ==> ms[k] == SignalMedia(s.medias[k], sdp.peer(k));
    if AnyPeerChanged(ms) {
      var k :| 0 <= k < |ms| && PeerChanged(ms[k]);
      assert sdp.peer(k).ufrag != s.medias[k].rufrag;
    }
    if Renewed(s, sdp) {
      var k :| 0 <= k < |s.medias| && sdp.peer(k).ufrag.Some? && s.medias[k].rufrag.Some?
             && sdp.peer(k).ufrag != s.medias[k].rufrag;
      assert PeerChanged(ms[k]);
    }
  }

  lemma OneStream(m: Media, p: PeerMedia)
    ensures StreamAfter(m, ReassertMedia(SignalMedia(m, p)), p, true, false)
    ensures StreamAfter(m, ReassertMedia(SyncMedia(SignalMedia(m, p))), p, false, false)
    ensures StreamAfter(m, ForgetMedia(SyncMedia(SignalMedia(m, p))), p, false, true)
  {
  }

  /** An SDP exchange does to every stream exactly what that says. */
  lemma {:induction false} ExchangeIs(s: Sess, nested: bool, sdp: Sdp, i: nat)
    requires i < |s.medias|
    ensures |ApplySdp(s, nested, sdp).medias| == |s.medias|
    ensures StreamAfter(s.medias[i], ApplySdp(s, nested, sdp).medias[i], sdp.peer(i), OwnOffer(s, nested),
                        DropsPairs(s, nested, sdp))
  {
    hide AnyPeerChanged, AnswersPeerRestart, ReassertMedia, SyncMedia, SignalMedia, ForgetMedia, StreamAfter, Renewed;
    ChangedIsRenewed(s, sdp);
    OneStream(s.medias[i], sdp.peer(i));
    var signalled := SignalAll(s.medias, sdp.peer);
    assert signalled[i] == SignalMedia(s.medias[i], sdp.peer(i));
    var ms := ApplySdp(s, nested, sdp).medias;
    if OwnOffer(s, nested) {
      assert ms == ReassertAll(signalled);
    } else if DropsPairs(s, nested, sdp) {
      assert ms == ForgetAll(SyncAll(signalled));
    } else {
      assert ms == ReassertAll(SyncAll(signalled));
    }
  }

  /** An established pair outlives an exchange, and media is pointed back at it, if
    and only if the peer signals the address it signalled when the pair was
    nominated and does not drop the pairs by new credentials. */
  lemma {:induction false} PairSurvivesExactly(s: Sess, nested: bool, sdp: Sdp, i: nat)
    requires i < |s.medias| && s.medias[i].connh && s.medias[i].selSet && !s.medias[i].held
    ensures |ApplySdp(s, nested, sdp).medias| == |s.medias|
    ensures var (m, t) := (s.medias[i], ApplySdp(s, nested, sdp).medias[i]);
            t.selSet && t.stream == m.selected
            <==> sdp.peer(i).raddr.Some? && sdp.peer(i).raddr == m.rsig && !DropsPairs(s, nested, sdp)
  {
    hide ApplySdp, DropsPairs;
    ExchangeIs(s, nested, sdp, i);
  }

  /** A pair held while the phone rang is delivered by the exchange that answers,
    under the last condition alone. */
  lemma {:induction false} HeldPairIsDeliveredExactly(s: Sess, nested: bool, sdp: Sdp, i: nat)
    requires i < |s.medias| && s.medias[i].connh && s.medias[i].selSet && s.medias[i].held
    ensures |ApplySdp(s, nested, sdp).medias| == |s.medias|
    ensures var (m, t) := (s.medias[i], ApplySdp(s, nested, sdp).medias[i]);
            t.selSet && !t.held && t.stream == m.selected <==> !DropsPairs(s, nested, sdp)
  {
    hide ApplySdp, DropsPairs;
    ExchangeIs(s, nested, sdp, i);
  }

  /** An exchange schedules a restart of ours if and only if the peer came back
    with new credentials by itself, the media is not secured, none is under way or
    scheduled, and fewer than two have been. */
  lemma {:induction false} RestartIsScheduledExactly(s: Sess, nested: bool, sdp: Sdp)
    ensures var t := ApplySdp(s, nested, sdp);
            var schedules := !s.awaitAnswer && Renewed(s, sdp) && sdp.awaitingSecure && !s.restarting
                             && !s.rrestart.Armed? && s.rrestarts < 2;
            && t.log == Then(s.log, Updated(nested, schedules))
            && t.rrestart == (if schedules then Armed(0) else s.rrestart)
            && t.rrestarts == s.rrestarts + (if schedules then 1 else 0)
            && t.awaitAnswer == OwnOffer(s, nested)
            && t.released == s.released && t.restarting == s.restarting && t.reoffered == s.reoffered
            && t.gather == s.gather && t.reoffer == s.reoffer && t.reofferDue == s.reofferDue && t.primed == s.primed
  {
    hide AnyPeerChanged, Renewed, SignalAll;
    ChangedIsRenewed(s, sdp);
    UpdateShape(s.(medias := SignalAll(s.medias, sdp.peer)), nested, sdp);
    hide Update;
  }

  // ---------------------------------------------------------------------
  // Nomination
  // ---------------------------------------------------------------------

  /** What is handed to baresip: one offer, followed by the exchange it makes on
    the spot, if any. */
  predicate HandsOver(s: Sess, t: Sess, cause: Cause, nested: Option<Sdp>) {
    var offered := s.(log := Then(s.log, Offered(cause)));
    t == if nested.Some? then ApplySdp(offered, true, nested.value) else offered
  }

  /** The stream when ICE settles on a pair: the pair and the address the peer had
    signalled are remembered; before the answer they are held, afterwards media is
    pointed at the pair. */
  predicate Nominated(m: Media, t: Media, raddr: Option<Endpoint>, incoming: bool) {
    && t.connh == m.connh && t.sdpRaddr == m.sdpRaddr && t.sdpUfrag == m.sdpUfrag && t.sdpLaddr == m.sdpLaddr
    && t.signalled == m.signalled && t.rufrag == m.rufrag
    && (if raddr.Some? then t.selSet && t.selected == raddr && t.rsig == m.sdpRaddr
        else t.selSet == m.selSet && t.selected == m.selected && t.rsig == m.rsig)
    && t.held == (m.held || (incoming && t.selSet))
    && t.stream == if raddr.Some? && !incoming && m.connh then raddr else m.stream
  }

  /** ICE settled on a local address that was never signalled. */
  predicate Unsignalled(m: Media) {
    m.sdpLaddr.Some? && m.signalled.Some? && m.sdpLaddr.value != m.signalled.value
  }

  /** ice_connected: the stream takes the pair; once per session, outside ringing,
    an unsignalled local address is re-offered, at once or when the media is
    secured, polled every 50 ms for 12 s. */
  lemma {:induction false} NominationIs(
    s: Sess, i: nat, raddr: Option<Endpoint>, incoming: bool, awaitingSecure: bool, now: nat, nested: Option<Sdp>)
    requires i < |s.medias|
    ensures var t := Connected(s, i, raddr, incoming, awaitingSecure, now, nested);
            exists m :: Nominated(s.medias[i], m, raddr, incoming) &&
              var took := s.(medias := s.medias[i := m]);
              if incoming || !Unsignalled(s.medias[i]) || s.reoffered then t == took
              else
                var asked := took.(reoffered := true, log := Then(s.log, ReofferRequested));
                if awaitingSecure then t == asked.(reofferDue := now + 12000, reoffer := Armed(50))
                else HandsOver(asked.(reoffer := Stopped), t, CandidateReoffer, nested)
  {
    hide Requested, ConnectMedia, HandsOver;
    var m := ConnectMedia(s.medias[i], raddr, incoming);
    TakesPair(s.medias[i], raddr, incoming);
    ReofferIs(s.(medias := s.medias[i := m]), awaitingSecure, now, nested);
  }

  lemma TakesPair(m: Media, raddr: Option<Endpoint>, incoming: bool)
    ensures Nominated(m, ConnectMedia(m, raddr, incoming), raddr, incoming)
  {
  }

  lemma ReofferIs(s: Sess, awaitingSecure: bool, now: nat, nested: Option<Sdp>)
    ensures var t := Requested(s, awaitingSecure, now, nested);
            var asked := s.(reoffered := true, log := Then(s.log, ReofferRequested));
            if awaitingSecure then t == asked.(reofferDue := now + 12000, reoffer := Armed(50))
            else HandsOver(asked.(reoffer := Stopped), t, CandidateReoffer, nested)
  {
    hide ApplySdp;
  }

  /** reoffer_deadline: sent once the media is secured, dropped after 12 s. */
  lemma {:induction false} HeldReofferIs(s: Sess, awaitingSecure: bool, now: nat, nested: Option<Sdp>)
    ensures var t := ReofferPoll(s, awaitingSecure, now, nested);
            if !awaitingSecure then HandsOver(s.(reoffer := Stopped), t, CandidateReoffer, nested)
            else if now < s.reofferDue then t == s.(reoffer := Armed(50))
            else t == s.(reoffer := Stopped)
  {
    hide ApplySdp;
  }

  // ---------------------------------------------------------------------
  // Gathering and restart
  // ---------------------------------------------------------------------

  /** The baseline for "never signalled" is what the offer says. */
  predicate Rebased(ms: seq<Media>, ts: seq<Media>) {
    && |ts| == |ms|
    && forall i :: 0 <= i < |ms| ==>
         ts[i] == ms[i].(signalled := if ms[i].sdpLaddr.Some? then ms[i].sdpLaddr else ms[i].signalled)
  }

  /** ice_estab: the deadline is off and a restart is over. A failure is reported
    only before any offer and outside a restart, and swallowed after; anything
    else hands an offer over, from the addresses then in the SDP. */
  lemma {:induction false} GatherIs(s: Sess, failed: bool, nested: Option<Sdp>, incoming: bool)
    ensures var t := GatherReport(s, failed, nested, incoming);
            var over := s.(gather := Stopped, restarting := false);
            if failed && s.released then t == over
            else if failed && !s.restarting then t == over.(released := true, log := Then(s.log, FailureReported))
            else exists ts, u :: Rebased(s.medias, ts) && HandsOver(over.(released := true, medias := ts), u, Gathered, nested)
                              && t == Prime(u, incoming)
  {
    hide ApplySdp, Prime;
    var over := s.(gather := Stopped, restarting := false);
    var ts := RebaseAll(s.medias);
    assert Rebased(s.medias, ts);
    var u := HandOver(over.(released := true, medias := ts), Gathered, nested);
    assert HandsOver(over.(released := true, medias := ts), u, Gathered, nested);
  }

  /** prime_conncheck: once, while the phone rings and the peer's credentials are
    known, they become the ones to compare with. */
  lemma {:induction false} PrimeIs(s: Sess, incoming: bool)
    ensures var t := Prime(s, incoming);
            if !s.primed && incoming && (exists i :: 0 <= i < |s.medias| && s.medias[i].sdpUfrag.Some?) then
              && t.primed && t == s.(primed := true, medias := t.medias) && |t.medias| == |s.medias|
              && forall i :: 0 <= i < |s.medias| ==>
                   t.medias[i] == s.medias[i].(rufrag := if s.medias[i].sdpUfrag.Some? then s.medias[i].sdpUfrag
                                                         else s.medias[i].rufrag)
            else t == s
  {
  }

  lemma {:induction false} DeadlineIs(s: Sess, nested: Option<Sdp>)
    ensures var t := GatherDeadline(s, nested);
            if s.released then t == s.(gather := Stopped)
            else HandsOver(s.(gather := Stopped, restarting := false, released := true), t, DeadlineHit, nested)
  {
    hide ApplySdp;
  }

  /** vox_ice_restart: refused without streams, during a restart or without memory;
    else every pair is dropped, the new address written, the answer awaited and
    the deadline set. */
  lemma {:induction false} RestartIs(s: Sess, timeoutMs: nat, laddr: Option<Endpoint>, allocOk: bool, forPeer: bool)
    ensures var (t, answer) := Restart(s, timeoutMs, laddr, allocOk, forPeer);
            if |s.medias| == 0 then t == s && answer == RestartAnswer.NoEntry
            else if s.restarting then t == s && answer == RestartAnswer.Already
            else if !allocOk then t == s && answer == RestartAnswer.AllocError
            else
              && answer == RestartAnswer.Ok && |t.medias| == |s.medias|
              && t == s.(released := false, restarting := true, reoffered := false, awaitAnswer := true, medias := t.medias,
                         gather := Armed(if timeoutMs > 0 then timeoutMs else 3000), log := Then(s.log, Restarted(forPeer)))
              && forall i :: 0 <= i < |s.medias| ==>
                   t.medias[i] == s.medias[i].(selSet := false, held := false,
                                               sdpLaddr := if laddr.Some? then laddr else s.medias[i].sdpLaddr)
  {
  }

  /** Which handler an input is for. */
  lemma InputIs(s: Sess, timeoutMs: nat, input: IceInput)
    requires Enabled(s, input)
    ensures var t := Step(s, timeoutMs, input);
            match input
            case SdpExchange(sdp) => t == ApplySdp(s, false, sdp)
            case Gather(failed, nested, incoming) => t == GatherReport(s, failed, nested, incoming)
            case GatherTimer(nested) => t == GatherDeadline(s, nested)
            case PairNominated(i, raddr, incoming, awaiting, now, nested) =>
              t == Connected(s, i, raddr, incoming, awaiting, now, nested)
            case ReofferTimer(awaiting, now, nested) => t == ReofferPoll(s, awaiting, now, nested)
            case RestartTimer(ok) => t == Restart(s.(rrestart := Stopped), timeoutMs, None, ok, true).0
            case HandoverRestart(laddr, ok) => t == Restart(s, timeoutMs, laddr, ok, false).0
            case MediaAdded(m) => t == s.(medias := s.medias + [m])
            case LaddrWritten(i, laddr) => t == s.(medias := s.medias[i := s.medias[i].(sdpLaddr := laddr)])
  {
    hide ApplySdp, GatherReport, GatherDeadline, Connected, ReofferPoll, Restart;
  }
}
