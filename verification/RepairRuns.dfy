/** Media repair over whole runs: how often a claim is judged, and the runs in
  which the code does not do what its comments say. */
module RepairRuns {
  import opened History
  import opened Handover
  import opened Migration
  import opened RepairProofs

  // ---------------------------------------------------------------------
  // Every claim is judged a bounded number of times
  // ---------------------------------------------------------------------

  /** Where the call now at `i` was before the step; None when it is new. */
  function Before(n: Netmon, input: RepairInput, i: nat): Option<nat> {
    match input
    case NewCall => if i == |n.calls| then None else Some(i)
    case CallRemoved(j) => Some(if j < |n.calls| && j <= i then i + 1 else i)
    case _ => Some(i)
  }

  /** The step is a verify tick that judges the call at `i`. */
  predicate JudgedBy(n: Netmon, input: RepairInput, i: nat)
    requires i < |n.calls|
  {
    input.VerifyTimer? && n.verify.Armed? && i < SNAP_MAX && Judged(n.calls[i], n.mon.gen, input.envs(i))
  }

  function ClaimsOf(c: Call): nat {
    Books(c.trace).claims
  }

  /** How many verify ticks of a run have judged the call now at `i` since it was
    last claimed. */
  function JudgedSinceClaim(cfg: RepairConfig, down: bool, inputs: Log<RepairInput>, i: nat): nat
    requires i < |RepairRun(cfg, down, inputs).calls|
  {
    match inputs
    case Empty => 0
    case Then(past, input) =>
      var n := RepairRun(cfg, down, past);
      match Before(n, input, i)
      case None => 0
      case Some(k) =>
        if k >= |n.calls| || ClaimsOf(RepairRun(cfg, down, inputs).calls[i]) > ClaimsOf(n.calls[k]) then 0
        else JudgedSinceClaim(cfg, down, past, k) + if JudgedBy(n, input, k) then 1 else 0
  }

  /** The measure of a call that is still owed a verdict. */
  function Owed(c: Call, cfg: RepairConfig): nat
    requires CallOk(c, cfg)
  {
    if Pending(c.state) then Measure(Abs(c), cfg) else 0
  }

  function MaxJudged(cfg: RepairConfig): nat {
    4 * cfg.net.maxAttempts + 3
  }

  /** A step makes a claim, or brings the call no further from its verdict, and
    nearer when it judges it. */
  predicate Advances(c: Call, d: Call, cfg: RepairConfig, judged: bool) {
    && CallOk(c, cfg) && CallOk(d, cfg)
    && if judged then ClaimsOf(d) == ClaimsOf(c) && Owed(d, cfg) < Owed(c, cfg)
       else ClaimsOf(d) == ClaimsOf(c) + 1 || (ClaimsOf(d) == ClaimsOf(c) && Owed(d, cfg) <= Owed(c, cfg))
  }

  lemma TurnsKeepsClaims(a: Core, b: Core, cfg: RepairConfig, refreshable: bool)
    requires Turns(a, b, cfg, refreshable)
    ensures b.books.claims == a.books.claims
  {
  }

  lemma StartsKeepsClaims(a: Core, b: Core, cfg: RepairConfig, refreshable: bool)
    requires Starts(a, b, cfg, refreshable)
    ensures b.books.claims == a.books.claims
  {
  }

  lemma TickAdvances(c: Call, cfg: RepairConfig, gen: nat, hs: nat, e: Env)
    requires ValidRepairConfig(cfg) && CallOk(c, cfg)
    ensures Advances(c, Tick(c, cfg, gen, hs, e), cfg, Judged(c, gen, e))
  {
    hide Judge, Start, Send, FailCall, Turns, CoreOk, Books;
    TickKeepsOk(c, cfg, gen, hs, e);
    if Judged(c, gen, e) {
      JudgedTickDecreases(c, cfg, gen, hs, e);
      if c.live {
        TickShape(c, cfg, gen, hs, e);
        TurnsKeepsClaims(Abs(c), Abs(Tick(c, cfg, gen, hs, e)), cfg, e.refreshable);
      }
    }
  }

  lemma StartAdvances(c: Call, cfg: RepairConfig, gen: nat, hs: nat, e: Env)
    requires ValidRepairConfig(cfg) && CallOk(c, cfg) && c.gen != gen
    ensures Advances(c, Start(c, cfg, gen, hs, e), cfg, false)
  {
    hide Start, Starts, CoreOk;
    StartKeepsOk(c, cfg, gen, hs, e);
    if c.live {
      StartShape(c, cfg, gen, hs, e);
      StartsKeepsClaims(Claims(Abs(c), gen, false, e.now), Abs(Start(c, cfg, gen, hs, e)), cfg, e.refreshable);
    } else {
      DeadStart(c, cfg, gen, hs, e);
    }
  }

  lemma FailAdvances(c: Call, cfg: RepairConfig, hs: nat)
    requires ValidRepairConfig(cfg) && CallOk(c, cfg)
    ensures Advances(c, FailIfOwed(c, cfg, hs), cfg, false)
  {
    hide FailCall, CoreOk, Books;
    FailIfOwedKeepsOk(c, cfg, hs);
    FailShape(if c.start == 0 then c.(start := hs) else c, cfg);
  }

  lemma StallAdvances(c: Call, cfg: RepairConfig, gen: nat, e: Env)
    requires ValidRepairConfig(cfg) && CallOk(c, cfg)
    ensures Advances(c, StallReport(c, gen, e), cfg, false)
  {
    hide CoreOk;
    StallKeepsOk(c, cfg, gen, e);
  }

  lemma SameAdvances(c: Call, d: Call, cfg: RepairConfig)
    requires CallOk(c, cfg) && (d == c || d == c.(live := false) || d == Tell(c, Accepted))
    ensures Advances(c, d, cfg, false)
  {
    hide Quota;
  }

  lemma NetworkAdvances(n: Netmon, cfg: RepairConfig, input: RepairInput, i: nat)
    requires ValidRepairConfig(cfg) && AllOk(n, cfg) && input.Network? && i < |n.calls|
    ensures Advances(n.calls[i], RepairStep(n, cfg, input).calls[i], cfg, false)
  {
    hide Step, CoreOk, Start, FailIfOwed, ArmVerify, Advances;
    var mon := Step(n.mon, cfg.net, input.net).0;
    var hs := n.mon.handoverStart;
    GenNeverFalls(n.mon, cfg.net, input.net);
    var c := n.calls[i];
    SameAdvances(c, c, cfg);
    FailAdvances(c, cfg, hs);
    if c.gen != mon.gen { StartAdvances(c, cfg, mon.gen, hs, input.envs(i)); }
  }

  lemma StepAdvances(n: Netmon, cfg: RepairConfig, input: RepairInput, i: nat)
    requires ValidRepairConfig(cfg) && AllOk(n, cfg) && i < |RepairStep(n, cfg, input).calls|
    ensures Before(n, input, i).Some? ==>
              && Before(n, input, i).value < |n.calls|
              && Advances(n.calls[Before(n, input, i).value], RepairStep(n, cfg, input).calls[i], cfg,
                          JudgedBy(n, input, Before(n, input, i).value))
    ensures Before(n, input, i).None? ==> RepairStep(n, cfg, input).calls[i] == FRESH_CALL
  {
    hide Advances, Perform, Step, CoreOk, Tick, StallReport, ArmVerify, StallAdmitted, Judged;
    var m := RepairStep(n, cfg, input);
    match input
    case Network(_, _) => PerformKeepsCount(n, cfg, input); NetworkAdvances(n, cfg, input, i);
    case VerifyTimer(envs) =>
      TickAdvances(n.calls[i], cfg, n.mon.gen, n.mon.handoverStart, envs(i));
      SameAdvances(n.calls[i], n.calls[i], cfg);
      if !JudgedBy(n, input, i) && n.verify.Armed? && i < SNAP_MAX {
        assert m.calls[i] == Tick(n.calls[i], cfg, n.mon.gen, n.mon.handoverStart, envs(i));
      }
    case StallReported(j, e) =>
      StallAdvances(n.calls[i], cfg, n.mon.gen, e);
      SameAdvances(n.calls[i], n.calls[i], cfg);
    case _ =>
      if Before(n, input, i).Some? {
        SameAdvances(n.calls[Before(n, input, i).value], m.calls[i], cfg);
      }
  }

  lemma PerformKeepsCount(n: Netmon, cfg: RepairConfig, input: RepairInput)
    requires input.Network?
    ensures |RepairStep(n, cfg, input).calls| == |n.calls|
  {
    hide Step, ArmVerify;
  }

  lemma OwedIsBounded(c: Call, cfg: RepairConfig)
    requires CallOk(c, cfg)
    ensures Owed(c, cfg) <= MaxJudged(cfg)
    ensures Pending(c.state) ==> Owed(c, cfg) > 0
  {
    hide StallOk, VerdictOk;
  }

  /** On every run, however handovers, stalls, closings and bounces interleave
    with the ticks: since it was last claimed a call has been judged at most
    4 * max_attempts + 3 times, and strictly less while it is owed a verdict. */
  lemma {:induction false} EveryClaimEnds(cfg: RepairConfig, down: bool, inputs: Log<RepairInput>, i: nat)
    requires ValidRepairConfig(cfg) && i < |RepairRun(cfg, down, inputs).calls|
    ensures var c := RepairRun(cfg, down, inputs).calls[i];
            CallOk(c, cfg) && JudgedSinceClaim(cfg, down, inputs, i) + Owed(c, cfg) <= MaxJudged(cfg)
    ensures Pending(RepairRun(cfg, down, inputs).calls[i].state) ==>
              JudgedSinceClaim(cfg, down, inputs, i) < MaxJudged(cfg)
  {
    hide RepairStep, CoreOk, Judged, ClaimsOf, MaxJudged;
    RunsKeepOk(cfg, down, inputs);
    match inputs
    case Empty =>
    case Then(past, input) =>
      RunsKeepOk(cfg, down, past);
      var n := RepairRun(cfg, down, past);
      var c := RepairRun(cfg, down, inputs).calls[i];
      StepAdvances(n, cfg, input, i);
      OwedIsBounded(c, cfg);
      if Before(n, input, i).Some? {
        EveryClaimEnds(cfg, down, past, Before(n, input, i).value);
      } else {
        FreshOwesNothing(cfg);
      }
  }

  lemma FreshOwesNothing(cfg: RepairConfig)
    requires CallOk(FRESH_CALL, cfg)
    ensures Owed(FRESH_CALL, cfg) == 0
  {
  }

  // ---------------------------------------------------------------------
  // Runs in which nothing brings media back
  // ---------------------------------------------------------------------

  /** Every offer goes out, no packet comes in. */
  function Silent(now: nat, route: Addr, locals: seq<Addr>): Env {
    Env(now, true, true, Some(route), None, false, locals, true, false, NoIce, true, 0, false, false)
  }

  /** One call, waiting for media on `laddr` after `tries` offers. */
  predicate Offering(n: Netmon, laddr: Addr, tried: seq<Addr>, tries: nat) {
    && |n.calls| == 1 && n.verify.Armed?
    && var c := n.calls[0];
       && c.live && c.gen == n.mon.gen && c.state.Sent? && !c.stall
       && c.laddr == Some(laddr) && c.tried == tried && c.tries == tries
  }

  /** One more silent verify tick. */
  function SilentTick(n: Netmon, locals: seq<Addr>): RepairInput
    requires |n.calls| == 1 && n.calls[0].laddr.Some?
  {
    var e := Silent(n.calls[0].due, n.calls[0].laddr.value, locals);
    VerifyTimer(i => e)
  }

  lemma ReofferGoesOut(c: Call, cfg: RepairConfig, e: Env)
    requires e.resetOk && cfg.verifyMs > 0
    ensures var d := Reoffer(c, cfg, e);
            && d == c.(state := Sent, due := d.due, trace := d.trace)
  {
    hide VerifyTickFor, MaxAttemptsFor;
  }

  lemma SendGoesOut(c: Call, cfg: RepairConfig, e: Env)
    requires c.live && e.refreshable && e.restart.NoIce? && e.resetOk && cfg.verifyMs > 0
    ensures var d := Send(c, cfg, e);
            var r := Remember(c.(rxAtMig := e.rx, tries := c.tries + 1));
            d == r.(state := Sent, due := d.due, trace := d.trace)
  {
    hide Reoffer, Remember;
    RememberFrame(c.(rxAtMig := e.rx, tries := c.tries + 1));
    ReofferGoesOut(Remember(c.(rxAtMig := e.rx, tries := c.tries + 1)), cfg, e);
  }

  /** A silent tick on a call with budget left rotates and offers again. */
  lemma SilentTickOffers(n: Netmon, cfg: RepairConfig, locals: seq<Addr>, laddr: Addr, tried: seq<Addr>, tries: nat)
    requires Offering(n, laddr, tried, tries) && cfg.verifyMs > 0 && tries < cfg.net.maxAttempts
    ensures var m := RepairStep(n, cfg, SilentTick(n, locals));
            var c := n.calls[0];
            var e := Silent(c.due, laddr, locals);
            var next := Remember(Rotate(c, e));
            && m.mon == n.mon && next.laddr.Some?
            && Offering(m, next.laddr.value, next.tried, tries + 1)
  {
    var c := n.calls[0];
    var e := Silent(c.due, laddr, locals);
    hide Send, Rotate, Remember, ArmVerify, Start, FailCall;
    RotateFrame(c, e);
    SendGoesOut(Rotate(c, e), cfg, e);
    RememberFrame(Rotate(c, e));
    RememberIgnores(Rotate(c, e), Rotate(c, e).(rxAtMig := e.rx, tries := c.tries + 1));
    var m := RepairStep(n, cfg, SilentTick(n, locals));
    assert m.calls[0] == Tick(c, cfg, n.mon.gen, n.mon.handoverStart, e) == Send(Rotate(c, e), cfg, e);
    ArmSeesPending(m.calls, n.mon.gen, cfg, Stopped, 0);
  }

  lemma RememberIgnores(c: Call, d: Call)
    requires d.laddr == c.laddr && d.tried == c.tried
    ensures Remember(d).tried == Remember(c).tried
  {
  }

  const NOW: nat := 1

  /** A call, a forced handover, a completed transport reset. */
  function HandoverRun(route: Addr, locals: seq<Addr>): Log<RepairInput> {
    var e := Silent(NOW, route, locals);
    Then(Then(Then(Empty, NewCall), Network(Triggered(true, false, NOW), i => e)),
         Network(SettleTimer(false, Routable, true), i => e))
  }

  /** The first offer goes out from the route's own address. */
  lemma FirstOffer(cfg: RepairConfig, route: Addr, locals: seq<Addr>)
    requires cfg.verifyMs > 0 && cfg.net.reinviteCalls
    ensures Offering(RepairRun(cfg, false, HandoverRun(route, locals)), route, [route], 1)
  {
    hide Step, Start, ArmVerify, FailAll;
    ForcedHandover(cfg.net, NOW);
    var e := Silent(NOW, route, locals);
    var inputs := HandoverRun(route, locals);
    assert RepairRun(cfg, false, inputs.past.past).calls == [FRESH_CALL];
    var n := RepairRun(cfg, false, inputs.past);
    assert n.calls == [FRESH_CALL];
    var m := RepairRun(cfg, false, inputs);
    assert m.calls == [Start(FRESH_CALL, cfg, 1, NOW, e)];
    FirstStart(cfg, route, locals);
    var c := m.calls[0];
    assert c == Start(FRESH_CALL, cfg, 1, NOW, e) && m.mon.gen == 1;
    assert c.gen == 1 && Pending(c.state);
    assert m.verify == ArmVerify(m.calls, 1, cfg, n.verify);
    ArmSeesPending(m.calls, 1, cfg, n.verify, 0);
  }

  lemma FirstStart(cfg: RepairConfig, route: Addr, locals: seq<Addr>)
    requires cfg.verifyMs > 0
    ensures var c := Start(FRESH_CALL, cfg, 1, NOW, Silent(NOW, route, locals));
            && c.live && c.gen == 1 && c.state.Sent? && !c.stall
            && c.laddr == Some(route) && c.tried == [route] && c.tries == 1
  {
    hide Send;
    var e := Silent(NOW, route, locals);
    var c := Claim(FRESH_CALL, 1, false, NOW, NOW);
    SendGoesOut(c.(pathMoved := true, laddr := Some(route)), cfg, e);
  }

  /** A handover gives the route a second attempt before it looks elsewhere. */
  lemma SecondOffer(cfg: RepairConfig, route: Addr, locals: seq<Addr>) returns (inputs: Log<RepairInput>)
    requires cfg.verifyMs > 0 && cfg.net.reinviteCalls && cfg.net.maxAttempts > 1
    ensures Offering(RepairRun(cfg, false, inputs), route, [route], 2)
  {
    hide RepairStep;
    FirstOffer(cfg, route, locals);
    var n := RepairRun(cfg, false, HandoverRun(route, locals));
    SilentTickOffers(n, cfg, locals, route, [route], 1);
    inputs := Then(HandoverRun(route, locals), SilentTick(n, locals));
  }

  /** Where a silent tick takes a call that rotates. */
  lemma SilentRotation(n: Netmon, cfg: RepairConfig, locals: seq<Addr>, laddr: Addr, tried: seq<Addr>, tries: nat,
                       k: nat, f: nat)
    requires Offering(n, laddr, tried, tries) && cfg.verifyMs > 0 && 2 <= tries < cfg.net.maxAttempts
    requires laddr in tried
    requires FirstUntried(locals, laddr.af, tried, k) && FirstUntried(locals, laddr.af, [], f) && f < |locals|
    ensures var m := RepairStep(n, cfg, SilentTick(n, locals));
            if k == |locals| then Offering(m, locals[f], [locals[f]], tries + 1)
            else Offering(m, locals[k], if |tried| < MAX_CAND then tried + [locals[k]] else tried, tries + 1)
  {
    hide RepairStep, Pick;
    var c := n.calls[0];
    PickIsFirst(locals, laddr.af, tried, k);
    PickIsFirst(locals, laddr.af, [], f);
    assert Remember(c) == c;
    SilentTickOffers(n, cfg, locals, laddr, tried, tries);
  }

  /** Two interfaces do not alternate: on a call first offered from the second
    one, the third and fourth offers both come from the first. */
  lemma {:induction false} RepeatedOffer(cfg: RepairConfig, a: Addr, b: Addr) returns (third: Log<RepairInput>, fourth: RepairInput)
    requires cfg.verifyMs > 0 && cfg.net.reinviteCalls && cfg.net.maxAttempts >= 4 && a != b && a.af == b.af
    ensures Offering(RepairRun(cfg, false, third), a, [b, a], 3)
    ensures Offering(RepairRun(cfg, false, Then(third, fourth)), a, [a], 4)
  {
    hide RepairStep, Offering;
    var locals := [a, b];
    var second := SecondOffer(cfg, b, locals);
    var n := RepairRun(cfg, false, second);
    OneOffering(n, b, [b], 2);
    SilentRotation(n, cfg, locals, b, [b], 2, 0, 0);
    third := Then(second, SilentTick(n, locals));
    var m := RepairRun(cfg, false, third);
    assert [b] + [a] == [b, a];
    OneOffering(m, a, [b, a], 3);
    SilentRotation(m, cfg, locals, a, [b, a], 3, 2, 0);
    fourth := SilentTick(m, locals);
  }

  lemma OneOffering(n: Netmon, laddr: Addr, tried: seq<Addr>, tries: nat)
    requires Offering(n, laddr, tried, tries)
    ensures |n.calls| == 1 && n.calls[0].laddr == Some(laddr)
  {
  }

  /** Five addresses of one family, the route's first. */
  predicate FiveOfAFamily(locals: seq<Addr>) {
    && |locals| == 5
    && (forall i :: 0 <= i < 5 ==> locals[i].af == locals[0].af)
    && forall i, j :: 0 <= i < j < 5 ==> locals[i] != locals[j]
  }

  /** The silent run in which the first `k` addresses have been offered. */
  lemma {:induction false} OffersInTurn(cfg: RepairConfig, locals: seq<Addr>, k: nat) returns (inputs: Log<RepairInput>)
    requires cfg.verifyMs > 0 && cfg.net.reinviteCalls && cfg.net.maxAttempts >= 7
    requires FiveOfAFamily(locals) && 1 <= k <= 5
    ensures Offering(RepairRun(cfg, false, inputs), locals[k - 1], locals[..Min(k, MAX_CAND)], k + 1)
  {
    hide RepairStep, Offering;
    if k == 1 {
      inputs := SecondOffer(cfg, locals[0], locals);
      assert locals[..1] == [locals[0]];
    } else {
      var past := OffersInTurn(cfg, locals, k - 1);
      var n := RepairRun(cfg, false, past);
      OneOffering(n, locals[k - 2], locals[..k - 1], k);
      SilentRotation(n, cfg, locals, locals[k - 2], locals[..k - 1], k, k - 1, 0);
      assert k < 5 ==> locals[..k - 1] + [locals[k - 1]] == locals[..k];
      inputs := Then(past, SilentTick(n, locals));
    }
  }

  /** Rotation sticks on a fifth address: the record is full when its turn comes,
    and from then on every attempt that is left offers it again. */
  lemma {:induction false} FifthIsReached(cfg: RepairConfig, locals: seq<Addr>) returns (inputs: Log<RepairInput>)
    requires cfg.verifyMs > 0 && cfg.net.reinviteCalls && cfg.net.maxAttempts >= 7 && FiveOfAFamily(locals)
    ensures |RepairRun(cfg, false, inputs).calls| == 1
    ensures var c := RepairRun(cfg, false, inputs).calls[0];
            c.state.Sent? && c.tries == 6 && Rotates(c) && FifthInHand(c, locals)
  {
    hide RepairRun;
    inputs := OffersInTurn(cfg, locals, 5);
    assert locals[..4] == [locals[0], locals[1], locals[2], locals[3]];
  }

  // ---------------------------------------------------------------------
  // A run that strands a call
  // ---------------------------------------------------------------------

  /** With re-INVITEs off, a stall claims the call and the handover that completes
    next moves the generation on: nothing will ever look at the call again. */
  lemma {:induction false} HandoverStrandsAStall(cfg: RepairConfig, e: Env) returns (inputs: Log<RepairInput>)
    requires !cfg.net.reinviteCalls && !e.onHold && !e.localHold
    ensures var n := RepairRun(cfg, false, inputs);
            |n.calls| == 1 && n.calls[0].live && Pending(n.calls[0].state) && n.calls[0].gen != n.mon.gen
  {
    hide Step, FailAll, StartAll;
    ForcedHandover(cfg.net, NOW);
    var stalled := Then(Then(Empty, NewCall), StallReported(0, e));
    assert RepairRun(cfg, false, stalled.past).calls == [FRESH_CALL];
    var n := RepairRun(cfg, false, stalled);
    assert n.mon == Init(false) && n.calls == [StallReport(FRESH_CALL, 0, e)];
    var announced := Then(stalled, Network(Triggered(true, false, NOW), i => e));
    assert RepairRun(cfg, false, announced).calls == n.calls;
    inputs := Then(announced, Network(SettleTimer(false, Routable, true), i => e));
    assert RepairRun(cfg, false, inputs).calls == n.calls;
  }

  /** Calls that are set up and left alone. */
  function NewCalls(n: nat): Log<RepairInput> {
    if n == 0 then Empty else Then(NewCalls(n - 1), NewCall)
  }

  lemma {:induction false} NewCallsAreFresh(cfg: RepairConfig, n: nat)
    ensures RepairRun(cfg, false, NewCalls(n)) == Netmon(Init(false), seq(n, _ => FRESH_CALL), Stopped)
  {
    if n > 0 {
      NewCallsAreFresh(cfg, n - 1);
      assert seq(n, _ => FRESH_CALL) == seq(n - 1, _ => FRESH_CALL) + [FRESH_CALL];
    }
  }

  lemma FreshIsPassedOver(cfg: RepairConfig, e: Env)
    ensures Tick(FRESH_CALL, cfg, 0, 0, e) == FRESH_CALL
  {
  }

  /** Without any handover and whatever the policy: with 64 quiet calls before it,
    a call that stalls is never looked at. The tick it asked for passes it over,
    sees nothing pending, and the timer stops. */
  lemma {:induction false} SixtyFifthStallIsForgotten(cfg: RepairConfig, e: Env, envs: nat -> Env)
      returns (inputs: Log<RepairInput>)
    requires !e.onHold && !e.localHold
    ensures var n := RepairRun(cfg, false, inputs);
            && |n.calls| == 65 && n.calls[64].live && Pending(n.calls[64].state)
            && n.calls[64].gen == n.mon.gen && n.verify.Stopped?
  {
    hide ArmVerify, Tick;
    NewCallsAreFresh(cfg, 65);
    var quiet := RepairRun(cfg, false, NewCalls(65));
    var stalled := Then(NewCalls(65), StallReported(64, e));
    hide Step, Perform;
    var n := RepairRun(cfg, false, stalled);
    assert quiet.calls[64] == FRESH_CALL;
    assert n.calls == quiet.calls[64 := StallReport(FRESH_CALL, 0, e)] && n.verify == Armed(1) && n.mon == Init(false);
    inputs := Then(stalled, VerifyTimer(envs));
    var m := RepairRun(cfg, false, inputs);
    forall i | 0 <= i < 65 ensures m.calls[i] == n.calls[i] {
      if i < 64 {
        assert n.calls[i] == FRESH_CALL;
        FreshIsPassedOver(cfg, envs(i));
      }
    }
    ArmSeesOnlyPending(m.calls, 0, cfg);
  }
}
