/** What each handler of the per-call machine does, and when, read off the events
  an observer sees: the offers, the verdicts and the waits. */
module RepairVerdicts {
  import opened History
  import opened Handover
  import opened Migration
  import opened RepairProofs

  // ---------------------------------------------------------------------
  // Budgets and deadlines in numbers
  // ---------------------------------------------------------------------

  /** How many attempts a round gets: three at most after a stall, one when ICE
    could not be restarted and the app wants to fail fast, else the configured
    number. */
  function Budget(stall: bool, restarted: bool, ice: bool, cfg: RepairConfig): nat {
    var most := cfg.net.maxAttempts;
    if stall then (if most < 3 then most else 3)
    else if cfg.failFast && ice && !restarted then 1
    else most
  }

  /** When an offer may be judged: after a tick of at least half a second, at most
    1.5 s after a stall, and after the gathering of a restart. */
  function Deadline(o: OfferSeen, stall: bool, cfg: RepairConfig): nat {
    var asked := if cfg.verifyMs == 0 then 2000 else cfg.verifyMs;
    var tick := if asked < 500 then 500 else asked;
    var tick := if stall && cfg.verifyMs != 0 && tick > 1500 then 1500 else tick;
    o.at + tick + if !o.byRestart then 0 else if cfg.gatherMs == 0 then 3000 else cfg.gatherMs
  }

  function Grace(byRestart: bool, cfg: RepairConfig): nat {
    if byRestart then RestartGraceMs(cfg) else 0
  }

  lemma ClocksAgree(c: Call, cfg: RepairConfig, e: Env)
    ensures MaxAttemptsFor(c, cfg, e) == Budget(c.stall, c.restarted, e.ice, cfg)
    ensures forall o: OfferSeen :: o.at == e.now ==>
              Deadline(o, c.stall, cfg) == e.now + VerifyTickFor(c.stall, cfg) + Grace(o.byRestart, cfg)
  {
  }

  // ---------------------------------------------------------------------
  // One attempt
  // ---------------------------------------------------------------------

  function FailureTold(trace: Log<CallEvent>, cfg: RepairConfig): Log<CallEvent> {
    if cfg.hangupOnFail then Then(Then(trace, MigrationFailed), HungUp) else Then(trace, MigrationFailed)
  }

  /** send_migration on a live call, from `laddr`, the path having moved or not:
    it waits for the dialog, restarts ICE, re-offers, gives up or tries later. */
  predicate Attempted(c: Call, d: Call, cfg: RepairConfig, e: Env, laddr: Option<Addr>, moved: bool) {
    if !e.refreshable then
      && d.state == Deferred && d.tries == c.tries
      && d.trace == if c.state.Deferred? then c.trace else Then(c.trace, CallDeferred)
    else
      var n := c.tries + 1;
      var told := if moved && e.restart.RestartError? && !c.staleSent then Then(c.trace, IceStale) else c.trace;
      && d.tries == n && d.laddr == laddr
      && if moved && (e.restart.Restarted? || e.restart.AlreadyRestarting?) then
           d.state == Sent && d.restarted && d.trace == Then(c.trace, Migrating(OfferSeen(n, e.rx, e.now, true, laddr)))
         else if e.resetOk then
           var offered := Then(told, Migrating(OfferSeen(n, e.rx, e.now, false, laddr)));
           if cfg.verifyMs == 0 then d.state == Done && d.trace == Then(offered, Migrated)
           else d.state == Sent && d.trace == offered
         else if n >= Budget(c.stall, c.restarted, e.ice, cfg) then
           d.state == Failed && d.trace == FailureTold(told, cfg)
         else d.state == Deferred && d.trace == told
  }

  lemma ReofferIs(c: Call, cfg: RepairConfig, e: Env)
    requires c.live
    ensures var d := Reoffer(c, cfg, e);
            && d.tries == c.tries && d.laddr == c.laddr
            && if e.resetOk then
                 var offered := Then(c.trace, Migrating(OfferSeen(c.tries, e.rx, e.now, false, c.laddr)));
                 if cfg.verifyMs == 0 then d.state == Done && d.trace == Then(offered, Migrated)
                 else d.state == Sent && d.trace == offered
               else if c.tries >= Budget(c.stall, c.restarted, e.ice, cfg) then
                 d.state == Failed && d.trace == FailureTold(c.trace, cfg)
               else d.state == Deferred && d.trace == c.trace
  {
    hide VerifyTickFor, MaxAttemptsFor;
    ClocksAgree(c, cfg, e);
  }

  lemma {:induction false} SendIs(c: Call, cfg: RepairConfig, e: Env)
    requires c.live
    ensures Attempted(c, Send(c, cfg, e), cfg, e, c.laddr, c.pathMoved)
  {
    hide Reoffer, Remember, RestartGraceMs, VerifyTickFor, FailureTold;
    if e.refreshable {
      var r := Remember(c.(rxAtMig := e.rx, tries := c.tries + 1));
      RememberFrame(c.(rxAtMig := e.rx, tries := c.tries + 1));
      ReofferIs(r, cfg, e);
      ReofferIs(Tell(r.(staleSent := true), IceStale), cfg, e);
    }
  }

  // ---------------------------------------------------------------------
  // The start of a round
  // ---------------------------------------------------------------------

  /** The address the first offer of a turn is made from: the route's, unless that
    one has had its chances. */
  function FromAddr(c: Call, e: Env): Addr
    requires e.route.Some?
  {
    var route := e.route.value;
    if c.tries < (if c.stall then 1 else 2) || route !in c.tried then route
    else
      match NextLaddr(c.tried, route.af, e.locals).1
      case Some(a) => a
      case None => route
  }

  /** start_migration on a call of the current claim: without a stream, a peer or a
    route it waits; on an unchanged path it is done without an offer, unless the
    transport is a WebSocket or media stalled; else it offers. */
  predicate Started(c: Call, d: Call, cfg: RepairConfig, e: Env) {
    if !e.stream || !e.peerKnown || e.route.None? then
      && d.state == WaitAddr && d.tries == c.tries
      && d.trace == if c.state.WaitAddr? then c.trace else Then(c.trace, CallDeferred)
    else
      var same := e.current == Some(FromAddr(c, e));
      if same && !e.overWs && !c.stall then d.state == Idle && d.trace == c.trace
      else Attempted(c, d, cfg, e, Some(FromAddr(c, e)), c.pathMoved || c.stall || !same)
  }

  lemma {:induction false} LocateIs(c: Call, cfg: RepairConfig, e: Env)
    requires c.live
    ensures Started(c, Locate(c, cfg, e), cfg, e)
  {
    hide Send, FailureTold, FromAddr;
    if e.stream && e.peerKnown && e.route.Some? {
      var d := LocateOffers(c, cfg, e);
      hide Locate;
      var from := FromAddr(c, e);
      var o := d.(pathMoved := c.pathMoved || c.stall || e.current != Some(from), laddr := Some(from));
      SendIs(o, cfg, e);
    }
  }

  lemma LocateOffers(c: Call, cfg: RepairConfig, e: Env) returns (d: Call)
    requires e.stream && e.peerKnown && e.route.Some?
    ensures d == c.(tried := d.tried) && Locate(c, cfg, e) == Offer(d, cfg, FromAddr(c, e), e)
  {
    hide Offer, NextLaddr;
    d := c.(tried := if Rotates(c) && e.route.value in c.tried
                     then NextLaddr(c.tried, e.route.value.af, e.locals).0 else c.tried);
  }

  /** A completed handover starts every live call afresh: claimed for its
    generation, no attempt counted, no path moved, no address tried. */
  lemma {:induction false} StartIs(c: Call, cfg: RepairConfig, gen: nat, hs: nat, e: Env)
    requires c.live && c.gen != gen
    ensures var claimed := c.(gen := gen, tries := 0, due := 0, staleSent := false, restarted := false, pathMoved := false,
                              stall := false, tried := [], laddr := None, start := if hs != 0 then hs else e.now,
                              trace := Then(c.trace, Claimed(false, e.now)));
            Started(claimed, Start(c, cfg, gen, hs, e), cfg, e)
  {
    hide Locate, Started;
    LocateIs(Claim(c, gen, false, if hs != 0 then hs else e.now, e.now), cfg, e);
  }

  // ---------------------------------------------------------------------
  // The offer in hand
  // ---------------------------------------------------------------------

  /** The last offer since the call was claimed. */
  function LastOffer(trace: Log<CallEvent>): Option<OfferSeen> {
    match trace
    case Empty => None
    case Then(_, Claimed(_, _)) => None
    case Then(_, Migrating(o)) => Some(o)
    case Then(past, _) => LastOffer(past)
  }

  /** A SENT call remembers its last offer as it was made. */
  predicate InHand(c: Call, cfg: RepairConfig) {
    c.state.Sent? ==>
      match LastOffer(c.trace)
      case None => false
      case Some(o) =>
        c.tries == o.tries && c.rxAtMig == o.rx && c.laddr == o.laddr && c.due == Deadline(o, c.stall, cfg)
  }

  lemma ReofferIsInHand(c: Call, cfg: RepairConfig, e: Env)
    requires c.rxAtMig == e.rx
    ensures InHand(Reoffer(c, cfg, e), cfg)
  {
    hide MaxAttemptsFor, VerifyTickFor, Deadline;
    ClocksAgree(c, cfg, e);
    var o := OfferSeen(c.tries, e.rx, e.now, false, c.laddr);
    assert Deadline(o, c.stall, cfg) == e.now + VerifyTickFor(c.stall, cfg);
  }

  lemma SendIsInHand(c: Call, cfg: RepairConfig, e: Env)
    ensures InHand(Send(c, cfg, e), cfg)
  {
    hide Reoffer, Remember, RestartGraceMs, VerifyTickFor, Deadline;
    var b := c.(rxAtMig := e.rx, tries := c.tries + 1);
    RememberFrame(b);
    var r := Remember(b);
    ReofferIsInHand(r, cfg, e);
    ReofferIsInHand(Tell(r.(staleSent := true), IceStale), cfg, e);
    ClocksAgree(r, cfg, e);
    var o := OfferSeen(r.tries, e.rx, e.now, true, r.laddr);
    assert Deadline(o, r.stall, cfg) == e.now + VerifyTickFor(r.stall, cfg) + RestartGraceMs(cfg);
  }

  lemma StartIsInHand(c: Call, cfg: RepairConfig, gen: nat, hs: nat, e: Env)
    ensures InHand(Start(c, cfg, gen, hs, e), cfg)
  {
    hide Locate, Claim, Deadline, LastOffer;
    if c.live {
      LocateIsInHand(if c.gen == gen then c else Claim(c, gen, false, if hs != 0 then hs else e.now, e.now), cfg, e);
    }
  }

  lemma LocateIsInHand(c: Call, cfg: RepairConfig, e: Env)
    ensures InHand(Locate(c, cfg, e), cfg)
  {
    hide Send, Deadline, LastOffer, FromAddr;
    if e.stream && e.peerKnown && e.route.Some? {
      var d := LocateOffers(c, cfg, e);
      hide Locate;
      var from := FromAddr(c, e);
      SendIsInHand(d.(pathMoved := d.pathMoved || d.stall || e.current != Some(from), laddr := Some(from)), cfg, e);
    }
  }

  lemma TickIsInHand(c: Call, cfg: RepairConfig, gen: nat, hs: nat, e: Env)
    requires InHand(c, cfg)
    ensures InHand(Tick(c, cfg, gen, hs, e), cfg)
  {
    hide Start, Send, Rotate, Deadline, LastOffer, MaxAttemptsFor;
    StartIsInHand(c, cfg, gen, hs, e);
    StartIsInHand(c.(tries := c.tries + 1), cfg, gen, hs, e);
    SendIsInHand(c, cfg, e);
    SendIsInHand(Rotate(c, e), cfg, e);
  }

  predicate AllInHand(n: Netmon, cfg: RepairConfig) {
    forall i :: 0 <= i < |n.calls| ==> InHand(n.calls[i], cfg)
  }

  lemma StepIsInHand(n: Netmon, cfg: RepairConfig, input: RepairInput)
    requires AllInHand(n, cfg)
    ensures AllInHand(RepairStep(n, cfg, input), cfg)
  {
    hide Step, Tick, Start, ArmVerify, Deadline, StallAdmitted, MaxAttemptsFor;
    var m := RepairStep(n, cfg, input);
    match input
    case Network(ni, envs) =>
      var mon := Step(n.mon, cfg.net, ni).0;
      forall i | 0 <= i < |m.calls| ensures InHand(m.calls[i], cfg) {
        StartIsInHand(n.calls[i], cfg, mon.gen, n.mon.handoverStart, envs(i));
      }
    case VerifyTimer(envs) =>
      forall i | 0 <= i < |m.calls| ensures InHand(m.calls[i], cfg) {
        TickIsInHand(n.calls[i], cfg, n.mon.gen, n.mon.handoverStart, envs(i));
      }
    case _ =>
  }

  lemma {:induction false} RunsAreInHand(cfg: RepairConfig, down: bool, inputs: Log<RepairInput>)
    ensures AllInHand(RepairRun(cfg, down, inputs), cfg)
  {
    hide RepairStep, InHand;
    match inputs
    case Empty =>
    case Then(past, input) =>
      RunsAreInHand(cfg, down, past);
      StepIsInHand(RepairRun(cfg, down, past), cfg, input);
  }

  // ---------------------------------------------------------------------
  // The verdict
  // ---------------------------------------------------------------------

  /** Media is back: packets beyond those of the last offer, or a held call that
    expects none. */
  predicate MediaBack(o: OfferSeen, e: Env) {
    e.onHold || e.rx > o.rx
  }

  /** A verify tick on a SENT call whose last offer is `o`; the address of a further
    attempt is the one `RetryMovesExactly` determines. */
  predicate Judges(c: Call, d: Call, o: OfferSeen, cfg: RepairConfig, e: Env) {
    if e.now + 100 < Deadline(o, c.stall, cfg) then d == c
    else if MediaBack(o, e) then d.state == Done && d.trace == Then(c.trace, Migrated)
    else if o.tries >= Budget(c.stall, c.restarted, e.ice, cfg) then
      d.state == Failed && d.trace == FailureTold(c.trace, cfg)
    else Attempted(c, d, cfg, e, Rotate(c, e).laddr, c.pathMoved)
  }

  lemma JudgeIs(c: Call, cfg: RepairConfig, gen: nat, hs: nat, e: Env, o: OfferSeen)
    requires c.live && c.gen == gen && c.state.Sent? && cfg.verifyMs > 0
    requires InHand(c, cfg) && LastOffer(c.trace) == Some(o)
    ensures Judges(c, Tick(c, cfg, gen, hs, e), o, cfg, e)
  {
    hide Send, Rotate, MaxAttemptsFor, VerifyTickFor, Start;
    ClocksAgree(c, cfg, e);
    RotateFrame(c, e);
    var r := Rotate(c, e);
    SendIs(r, cfg, e);
    if e.now + 100 >= c.due && !MediaBack(o, e) && c.tries < MaxAttemptsFor(c, cfg, e) {
      assert Tick(c, cfg, gen, hs, e) == Send(r, cfg, e);
      SameAttempt(c, r, Send(r, cfg, e), cfg, e);
    }
  }

  lemma SameAttempt(c: Call, r: Call, d: Call, cfg: RepairConfig, e: Env)
    requires r == c.(tried := r.tried, laddr := r.laddr)
    requires Attempted(r, d, cfg, e, r.laddr, r.pathMoved)
    ensures Attempted(c, d, cfg, e, r.laddr, c.pathMoved)
  {
  }

  /** On every run: the verify timer judges a live SENT call of the current
    generation by its last offer in the events. Before that offer's deadline
    nothing happens; then MIGRATED is told if and only if media is back, failure
    if it is not and the offers have reached the budget, and otherwise another
    attempt is made. */
  lemma {:induction false} VerdictsOfARun(
    cfg: RepairConfig, down: bool, inputs: Log<RepairInput>, envs: nat -> Env, i: nat)
    requires cfg.verifyMs > 0 && i < |RepairRun(cfg, down, inputs).calls| && i < SNAP_MAX
    requires var n := RepairRun(cfg, down, inputs);
             n.verify.Armed? && n.calls[i].live && n.calls[i].gen == n.mon.gen && n.calls[i].state.Sent?
    ensures LastOffer(RepairRun(cfg, down, inputs).calls[i].trace).Some?
    ensures |RepairRun(cfg, down, Then(inputs, VerifyTimer(envs))).calls| == |RepairRun(cfg, down, inputs).calls|
    ensures var (c, d) := (RepairRun(cfg, down, inputs).calls[i],
                           RepairRun(cfg, down, Then(inputs, VerifyTimer(envs))).calls[i]);
            var o := LastOffer(c.trace).value;
            && Judges(c, d, o, cfg, envs(i))
            && (d.trace == Then(c.trace, Migrated)
                <==> envs(i).now + 100 >= Deadline(o, c.stall, cfg) && MediaBack(o, envs(i)))
  {
    hide Tick, ArmVerify, Deadline, LastOffer;
    RunsAreInHand(cfg, down, inputs);
    var n := RepairRun(cfg, down, inputs);
    var c := n.calls[i];
    var o := LastOffer(c.trace).value;
    JudgeIs(c, cfg, n.mon.gen, n.mon.handoverStart, envs(i), o);
    var d := RepairRun(cfg, down, Then(inputs, VerifyTimer(envs))).calls[i];
    assert d == Tick(c, cfg, n.mon.gen, n.mon.handoverStart, envs(i));
    OnlyMediaMigrates(c, d, o, cfg, envs(i));
  }

  lemma OnlyMediaMigrates(c: Call, d: Call, o: OfferSeen, cfg: RepairConfig, e: Env)
    requires Judges(c, d, o, cfg, e) && cfg.verifyMs > 0
    ensures d.trace == Then(c.trace, Migrated) <==> e.now + 100 >= Deadline(o, c.stall, cfg) && MediaBack(o, e)
  {
    hide Deadline, Budget;
    assert Length(Then(c.trace, Migrated)) == Length(c.trace) + 1;
  }

  // ---------------------------------------------------------------------
  // The other states
  // ---------------------------------------------------------------------

  /** A verify tick on a call that still waits to offer: a stalled one starts; one
    without an address spends an attempt and starts or fails; one whose dialog is
    busy offers as soon as it can, else spends an attempt and waits or fails. */
  predicate WaitsOn(c: Call, d: Call, cfg: RepairConfig, e: Env) {
    match c.state
    case Stalled => Started(c, d, cfg, e)
    case WaitAddr =>
      if c.tries + 1 >= cfg.net.maxAttempts then d.state == Failed && d.trace == FailureTold(c.trace, cfg)
      else Started(c.(tries := c.tries + 1), d, cfg, e)
    case Deferred =>
      if e.refreshable then Attempted(c, d, cfg, e, c.laddr, c.pathMoved)
      else
        && d.tries == c.tries + 1
        && if c.tries + 1 >= cfg.net.maxAttempts then d.state == Failed && d.trace == FailureTold(c.trace, cfg)
           else d.state == Deferred && d.trace == c.trace
    case _ => true
  }

  lemma {:induction false} WaitingTickIs(c: Call, cfg: RepairConfig, gen: nat, hs: nat, e: Env)
    requires c.live && c.gen == gen && Waiting(c.state)
    ensures WaitsOn(c, Tick(c, cfg, gen, hs, e), cfg, e)
  {
    hide Locate, Send, Started, Attempted;
    LocateIs(c, cfg, e);
    LocateIs(c.(tries := c.tries + 1), cfg, e);
    SendIs(c, cfg, e);
  }

  /** A stall report claims a round exactly when the call is live, not already being
    repaired, not on hold on either side, out of its cooldown and within its three
    rounds; the claim counts from zero and asks for a turn. */
  lemma {:induction false} StallIs(c: Call, gen: nat, e: Env)
    ensures var d := StallReport(c, gen, e);
            if c.live && (c.gen != gen || !Pending(c.state)) && !e.onHold && !e.localHold
               && (c.stallAt == 0 || e.now < c.stallAt || e.now - c.stallAt >= 10000) && c.stallRounds < 3
            then d.state == Stalled && d.gen == gen && d.stall && d.tries == 0 && d.tried == [] && !d.restarted
                 && d.stallAt == e.now && d.stallRounds == c.stallRounds + 1
                 && d.trace == Then(c.trace, Claimed(true, e.now))
            else d == c
  {
  }

  /** A handover that gave up fails exactly the live calls without a verdict. */
  lemma {:induction false} FailIfOwedIs(c: Call, cfg: RepairConfig, hs: nat)
    ensures var d := FailIfOwed(c, cfg, hs);
            if c.live && !c.state.Done? && !c.state.Failed? then
              d.state == Failed && d.trace == FailureTold(c.trace, cfg) && d.tries == c.tries
            else d == c
  {
  }

  // ---------------------------------------------------------------------
  // The whole machine
  // ---------------------------------------------------------------------

  /** What a step of the machine is for the call at `i`, none of them removed: the
    verify timer gives each of the first 64 its turn; a completed handover starts
    them, an exhausted one fails them; a stall report is its own call's; and
    nothing else touches a call but its end and an answer to its offer. */
  lemma {:induction false} StepIs(n: Netmon, cfg: RepairConfig, input: RepairInput, i: nat)
    requires i < |n.calls| && !input.CallRemoved?
    ensures i < |RepairStep(n, cfg, input).calls|
    ensures var (c, d) := (n.calls[i], RepairStep(n, cfg, input).calls[i]);
            match input
            case VerifyTimer(envs) =>
              d == if n.verify.Armed? && i < 64 then Tick(c, cfg, n.mon.gen, n.mon.handoverStart, envs(i)) else c
            case Network(ni, envs) =>
              var (mon, owed) := Step(n.mon, cfg.net, ni);
              d == if i >= 64 then c
                   else if FailPendingCalls in owed then FailIfOwed(c, cfg, n.mon.handoverStart)
                   else if MigrateCalls in owed then Start(c, cfg, mon.gen, n.mon.handoverStart, envs(i))
                   else c
            case StallReported(j, e) => d == if i == j then StallReport(c, n.mon.gen, e) else c
            case CallClosed(j) => d == if i == j then c.(live := false) else c
            case SdpAnswered(j) =>
              d == if i == j && c.state.Sent? && c.gen == n.mon.gen then Tell(c, Accepted) else c
            case _ => d == c
  {
    hide Tick, Start, FailIfOwed, ArmVerify, Step, Claim;
  }

  /** The verify timer is asked for at once by an admitted stall and by a deferred
    call of the current generation whose dialog is free again. */
  lemma {:induction false} TimerIs(n: Netmon, cfg: RepairConfig, input: RepairInput)
    ensures var v := RepairStep(n, cfg, input).verify;
            match input
            case StallReported(j, e) =>
              v == if j < |n.calls| && StallReport(n.calls[j], n.mon.gen, e) != n.calls[j] then Armed(1) else n.verify
            case CallRefreshable(j) =>
              v == if j < |n.calls| && n.calls[j].state.Deferred? && n.calls[j].gen == n.mon.gen then Armed(1) else n.verify
            case Network(_, _) => true
            case VerifyTimer(_) => true
            case _ => v == n.verify
  {
    hide Tick, Start, FailIfOwed, ArmVerify, Step;
    match input
    case StallReported(j, e) =>
      if j < |n.calls| && StallAdmitted(n.calls[j], n.mon.gen, e) {
        assert StallReport(n.calls[j], n.mon.gen, e).stallRounds == n.calls[j].stallRounds + 1;
      }
    case _ =>
  }
}
