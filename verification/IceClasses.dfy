/** The handlers of src/ice_shim.c as they run, on a session object whose flags,
  timers and stream list are updated in place.  Every method is proved equal to
  the state transformer of the same handler in IceSession. */
module IceClasses {
  import opened History
  import opened IceSession
  import IceProofs

  class Session {
    const timeoutMs: nat
    var released: bool
    var restarting: bool
    var reoffered: bool
    var awaitAnswer: bool
    var primed: bool
    var rrestarts: nat
    var gather: Timer
    var reoffer: Timer
    var reofferDue: nat
    var rrestart: Timer
    var medias: seq<Media>
    var log: Log<IceEvent>

    function View(): Sess
      reads this
    {
      Sess(released, restarting, reoffered, awaitAnswer, primed, rrestarts, gather, reoffer, reofferDue, rrestart,
           medias, log)
    }

    constructor (timeoutMs: nat)
      ensures Valid() && View() == Create(timeoutMs) && this.timeoutMs == timeoutMs
    {
      this.timeoutMs := timeoutMs;
      released, restarting, reoffered, awaitAnswer, primed, rrestarts := false, false, false, false, false, 0;
      gather := if timeoutMs > 0 then Armed(timeoutMs) else Stopped;
      reoffer, reofferDue, rrestart, medias, log := Stopped, 0, Stopped, [], Empty;
    }

    method Record(e: IceEvent)
      modifies this`log
      ensures log == Then(old(log), e)
    {
      log := Then(log, e);
    }

    method RebaseSignalled()
      modifies this`medias
      ensures medias == RebaseAll(old(medias))
    {
      for i := 0 to |medias|
        invariant |medias| == |old(medias)|
        invariant forall k :: 0 <= k < |medias| ==> medias[k] == if k < i then RebaseMedia(old(medias)[k]) else old(medias)[k]
      {
        if medias[i].sdpLaddr.Some? { medias := medias[i := medias[i].(signalled := medias[i].sdpLaddr)]; }
      }
    }

    /** remote_ufrag_sync: did any stream's peer credentials change? */
    method SyncRemoteUfrag() returns (changed: bool)
      modifies this`medias
      ensures medias == SyncAll(old(medias))
      ensures changed == AnyPeerChanged(old(medias))
    {
      changed := false;
      for i := 0 to |medias|
        invariant |medias| == |old(medias)|
        invariant forall k :: 0 <= k < |medias| ==> medias[k] == if k < i then SyncMedia(old(medias)[k]) else old(medias)[k]
        invariant changed == exists k :: 0 <= k < i && PeerChanged(old(medias)[k])
      {
        var ru := medias[i].sdpUfrag;
        if ru.Some? {
          if medias[i].rufrag.Some? && medias[i].rufrag != ru { changed := true; }
          medias := medias[i := medias[i].(rufrag := ru)];
        }
      }
    }

    method ReassertSelected()
      modifies this`medias
      ensures medias == ReassertAll(old(medias))
    {
      for i := 0 to |medias|
        invariant |medias| == |old(medias)|
        invariant forall k :: 0 <= k < |medias| ==>
                    medias[k] == if k < i then ReassertMedia(old(medias)[k]) else old(medias)[k]
      {
        var m := medias[i];
        if m.selSet && m.connh {
          if m.held {
            m := m.(held := false, stream := m.selected);
          } else if m.sdpRaddr.None? || m.sdpRaddr != m.rsig {
            m := m.(selSet := false);
          } else {
            m := m.(stream := m.selected);
          }
          medias := medias[i := m];
        }
      }
    }

    method ForgetSelected()
      modifies this`medias
      ensures medias == ForgetAll(old(medias))
    {
      for i := 0 to |medias|
        invariant |medias| == |old(medias)|
        invariant forall k :: 0 <= k < |medias| ==> medias[k] == if k < i then ForgetMedia(old(medias)[k]) else old(medias)[k]
      {
        medias := medias[i := medias[i].(selSet := false)];
      }
    }

    method UpdateHandler(nested: bool, sdp: Sdp)
      modifies this
      ensures View() == Update(old(View()), nested, sdp)
    {
      hide ReassertAll, Exchanged;
      if nested && awaitAnswer {
        ReassertSelected();
        Record(Updated(true, false));
        return;
      }
      ExchangeDone(nested, sdp);
    }

    method ExchangeDone(nested: bool, sdp: Sdp)
      modifies this
      ensures View() == Exchanged(old(View()), nested, sdp)
    {
      hide ReassertAll, SyncAll, ForgetAll, AnyPeerChanged;
      var changed := SyncRemoteUfrag();
      var restart := false;
      if awaitAnswer && changed {
        awaitAnswer := false;
        ForgetSelected();
      } else {
        awaitAnswer := false;
        if changed && sdp.awaitingSecure {
          ForgetSelected();
          restart := ConsiderRestart();
        } else {
          ReassertSelected();
        }
      }
      Record(Updated(nested, restart));
    }

    /** Answer the peer's restart from a fresh stack, a bounded number of times. */
    method ConsiderRestart() returns (restart: bool)
      modifies this`rrestarts, this`rrestart
      ensures restart == (!restarting && !old(rrestart).Armed? && old(rrestarts) < MAX_REMOTE_RESTARTS)
      ensures rrestarts == old(rrestarts) + if restart then 1 else 0
      ensures rrestart == if restart then Armed(0) else old(rrestart)
    {
      if restarting || rrestart.Armed? { return false; }
      restart := rrestarts < MAX_REMOTE_RESTARTS;
      if restart {
        rrestarts := rrestarts + 1;
        rrestart := Armed(0);
      }
    }

    /** call_apply_sdp: the streams are reset to what the peer signalled, then
      the update handler runs. */
    method ApplySdpExchange(nested: bool, sdp: Sdp)
      modifies this
      ensures View() == ApplySdp(old(View()), nested, sdp)
    {
      hide Update;
      for i := 0 to |medias|
        invariant |medias| == |old(medias)| && View() == old(View()).(medias := medias)
        invariant forall k :: 0 <= k < |medias| ==>
                    medias[k] == if k < i then SignalMedia(old(medias)[k], sdp.peer(k)) else old(medias)[k]
      {
        medias := medias[i := medias[i].(stream := sdp.peer(i).raddr, sdpRaddr := sdp.peer(i).raddr,
                                         sdpUfrag := sdp.peer(i).ufrag)];
      }
      assert medias == SignalAll(old(medias), sdp.peer);
      UpdateHandler(nested, sdp);
    }

    method Release(cause: Cause, nested: Option<Sdp>)
      modifies this
      ensures View() == HandOver(old(View()), cause, nested)
    {
      hide ApplySdp;
      Record(Offered(cause));
      if nested.Some? { ApplySdpExchange(true, nested.value); }
    }

    method PrimeChecks(incoming: bool)
      modifies this
      ensures View() == Prime(old(View()), incoming)
    {
      hide SyncAll, AnyPeerChanged;
      if primed || !incoming { return; }
      var haveRemote := false;
      for i := 0 to |medias|
        invariant haveRemote == exists k :: 0 <= k < i && medias[k].sdpUfrag.Some?
      {
        if medias[i].sdpUfrag.Some? { haveRemote := true; }
      }
      if !haveRemote { return; }
      primed := true;
      var _ := SyncRemoteUfrag();
    }

    method GatherReported(failed: bool, nested: Option<Sdp>, incoming: bool)
      modifies this
      ensures View() == GatherReport(old(View()), failed, nested, incoming)
    {
      hide HandOver, RebaseAll, Prime;
      gather := Stopped;
      if released {
        restarting := false;
        if failed { return; }
      }
      var failing := failed && !restarting;
      restarting := false;
      if !failing { RebaseSignalled(); }
      released := true;
      if failing {
        Record(FailureReported);
        return;
      }
      Release(Gathered, nested);
      PrimeChecks(incoming);
    }

    method DeadlineFired(nested: Option<Sdp>)
      requires gather.Armed?
      modifies this
      ensures View() == GatherDeadline(old(View()), nested)
    {
      hide HandOver;
      gather := Stopped;
      if released { return; }
      restarting := false;
      released := true;
      Release(DeadlineHit, nested);
    }

    method PairConnected(
      i: nat, raddr: Option<Endpoint>, incoming: bool, awaitingSecure: bool, now: nat, nested: Option<Sdp>)
      requires i < |medias|
      modifies this
      ensures View() == Connected(old(View()), i, raddr, incoming, awaitingSecure, now, nested)
    {
      hide Requested;
      var m := medias[i];
      if raddr.Some? { m := m.(selected := raddr, rsig := m.sdpRaddr, selSet := true); }
      if incoming {
        if m.selSet { m := m.(held := true); }
        medias := medias[i := m];
        return;
      }
      if m.connh && raddr.Some? { m := m.(stream := raddr); }
      medias := medias[i := m];
      if m.sdpLaddr.None? || m.signalled.None? { return; }
      if m.sdpLaddr == m.signalled { return; }
      if reoffered { return; }
      RequestReoffer(awaitingSecure, now, nested);
    }

    method RequestReoffer(awaitingSecure: bool, now: nat, nested: Option<Sdp>)
      modifies this
      ensures View() == Requested(old(View()), awaitingSecure, now, nested)
    {
      hide HandOver;
      reoffered := true;
      Record(ReofferRequested);
      if awaitingSecure {
        reofferDue := now + REOFFER_SECURE_DEADLINE_MS;
        reoffer := Armed(REOFFER_POLL_MS);
        return;
      }
      reoffer := Stopped;
      Release(CandidateReoffer, nested);
    }

    method ReofferPolled(awaitingSecure: bool, now: nat, nested: Option<Sdp>)
      requires reoffer.Armed?
      modifies this
      ensures View() == ReofferPoll(old(View()), awaitingSecure, now, nested)
    {
      hide HandOver;
      if awaitingSecure {
        if now < reofferDue {
          reoffer := Armed(REOFFER_POLL_MS);
          return;
        }
        reoffer := Stopped;
        return;
      }
      reoffer := Stopped;
      Release(CandidateReoffer, nested);
    }

    method RestartIce(laddr: Option<Endpoint>, allocOk: bool, forPeer: bool) returns (answer: RestartAnswer)
      modifies this
      ensures (View(), answer) == Restart(old(View()), timeoutMs, laddr, allocOk, forPeer)
    {
      if medias == [] { return NoEntry; }
      if restarting { return Already; }
      if !allocOk { return AllocError; }
      released := false;
      restarting := true;
      reoffered := false;
      awaitAnswer := true;
      for i := 0 to |medias|
        invariant |medias| == |old(medias)|
        invariant View() == old(View()).(released := false, restarting := true, reoffered := false, awaitAnswer := true,
                                         medias := medias)
        invariant forall k :: 0 <= k < |medias| ==>
                    medias[k] == if k < i then RestartMedia(old(medias)[k], laddr) else old(medias)[k]
      {
        var m := medias[i];
        if laddr.Some? { m := m.(sdpLaddr := laddr); }
        medias := medias[i := m.(selSet := false, held := false)];
      }
      assert medias == RestartAll(old(medias), laddr);
      gather := Armed(if timeoutMs > 0 then timeoutMs else RESTART_DEADLINE_MS);
      Record(Restarted(forPeer));
      answer := RestartAnswer.Ok;
    }

    method PeerRestartDue(allocOk: bool)
      requires rrestart.Armed?
      modifies this
      ensures View() == Restart(old(View()).(rrestart := Stopped), timeoutMs, None, allocOk, true).0
    {
      rrestart := Stopped;
      var _ := RestartIce(None, allocOk, true);
    }

    /** What every handler keeps: failures contained, gathering bounded, restarts
      within their budget, and media sent to the nominated pair. */
    ghost predicate Valid()
      reads this
    {
      IceProofs.Ok(View(), timeoutMs) && IceProofs.AllPinned(medias)
    }

    /** Any input of the environment, as it arrives. */
    method Handle(input: IceInput)
      requires Valid() && Enabled(View(), input)
      modifies this
      ensures Valid() && View() == Step(old(View()), timeoutMs, input)
    {
      IceProofs.StepKeepsOk(View(), timeoutMs, input);
      IceProofs.StepKeepsPinned(View(), timeoutMs, input);
      hide GatherReport, GatherDeadline, Connected, ReofferPoll, Restart, ApplySdp, IceProofs.Ok, IceProofs.AllPinned, AnyOffer;
      match input
      case MediaAdded(m) => medias := medias + [m];
      case LaddrWritten(i, laddr) => medias := medias[i := medias[i].(sdpLaddr := laddr)];
      case Gather(failed, nested, incoming) => GatherReported(failed, nested, incoming);
      case GatherTimer(nested) => DeadlineFired(nested);
      case PairNominated(i, raddr, incoming, awaiting, now, nested) =>
        PairConnected(i, raddr, incoming, awaiting, now, nested);
      case ReofferTimer(awaiting, now, nested) => ReofferPolled(awaiting, now, nested);
      case RestartTimer(ok) => PeerRestartDue(ok);
      case HandoverRestart(laddr, ok) => var _ := RestartIce(laddr, ok, false);
      case SdpExchange(sdp) => ApplySdpExchange(false, sdp);
    }
  }
}
