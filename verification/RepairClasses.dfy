/** The handlers of src/netmon.c as they run: one record per call, updated in
  place, and the loops over the call snapshot.  Every method is proved equal to
  the state transformer of the same handler in Migration. */
module RepairClasses {
  import opened History
  import opened Handover
  import opened Migration
  import opened RepairProofs

  class RepairCall {
    var live: bool
    var gen: nat
    var state: MigState
    var tries: nat
    var due: nat
    var stall: bool
    var restarted: bool
    var staleSent: bool
    var pathMoved: bool
    var laddr: Option<Addr>
    var tried: seq<Addr>
    var rxAtMig: nat
    var start: nat
    var stallAt: nat
    var stallRounds: nat
    var trace: Log<CallEvent>

    function View(): Call
      reads this
    {
      Call(live, gen, state, tries, due, stall, restarted, staleSent, pathMoved, laddr, tried, rxAtMig, start,
           stallAt, stallRounds, trace)
    }

    constructor ()
      ensures View() == FRESH_CALL
    {
      live, gen, state, tries, due, stall := true, 0, Idle, 0, 0, false;
      restarted, staleSent, pathMoved, laddr, tried := false, false, false, None, [];
      rxAtMig, start, stallAt, stallRounds, trace := 0, 0, 0, 0, Empty;
    }

    method RememberLaddr()
      modifies this`tried
      ensures View() == Remember(old(View()))
    {
      if laddr.None? || laddr.value in tried { return; }
      if |tried| >= MAX_CAND { return; }
      tried := tried + [laddr.value];
    }

    /** One walk over the local addresses. */
    method PickLaddr(locals: seq<Addr>, af: nat) returns (pick: Option<Addr>)
      ensures pick == Pick(locals, af, tried)
    {
      var k := 0;
      while k < |locals|
        invariant k <= |locals|
        invariant Pick(locals, af, tried) == Pick(locals[k..], af, tried)
      {
        if locals[k].af == af && locals[k] !in tried { return Some(locals[k]); }
        assert locals[k..][1..] == locals[k + 1..];
        k := k + 1;
      }
      pick := None;
    }

    method TakeNextLaddr(locals: seq<Addr>, af: nat) returns (next: Option<Addr>)
      modifies this`tried
      ensures (tried, next) == NextLaddr(old(tried), af, locals)
    {
      next := PickLaddr(locals, af);
      if next.None? {
        tried := [];
        next := PickLaddr(locals, af);
      }
    }

    method FailMigration(cfg: RepairConfig)
      modifies this`state, this`trace
      ensures View() == FailCall(old(View()), cfg)
    {
      state := Failed;
      trace := Then(trace, MigrationFailed);
      if cfg.hangupOnFail && live { trace := Then(trace, HungUp); }
    }

    /** The restart carries its own offer once it has gathered. */
    method RestartSent(e: Env, deadline: nat)
      modifies this`restarted, this`state, this`due, this`trace
      ensures restarted && state == Sent && due == deadline && trace == Then(old(trace), Migrating(OfferSeen(tries, e.rx, e.now, true, laddr)))
    {
      restarted := true;
      state := Sent;
      due := deadline;
      trace := Then(trace, Migrating(OfferSeen(tries, e.rx, e.now, true, laddr)));
    }

    method SendMigration(cfg: RepairConfig, e: Env)
      modifies this
      ensures View() == Send(old(View()), cfg, e)
    {
      hide Attempt, Remember;
      if !live {
        state := Idle;
        return;
      }
      if !e.refreshable {
        if !state.Deferred? {
          state := Deferred;
          trace := Then(trace, CallDeferred);
        }
        return;
      }
      rxAtMig := e.rx;
      tries := tries + 1;
      RememberLaddr();
      AttemptRepair(cfg, e);
    }

    method AttemptRepair(cfg: RepairConfig, e: Env)
      modifies this
      ensures View() == Attempt(old(View()), cfg, e)
    {
      hide Reoffer;
      if pathMoved {
        if e.restart.Restarted? || e.restart.AlreadyRestarting? {
          RestartSent(e, e.now + RestartGraceMs(cfg) + VerifyTickFor(stall, cfg));
          return;
        }
        if !e.restart.NoIce? && !staleSent {
          staleSent := true;
          trace := Then(trace, IceStale);
        }
      }
      SendReoffer(cfg, e);
    }

    method SendReoffer(cfg: RepairConfig, e: Env)
      modifies this
      ensures View() == Reoffer(old(View()), cfg, e)
    {
      if !e.resetOk {
        if tries >= MaxAttemptsFor(View(), cfg, e) {
          FailMigration(cfg);
        } else {
          state := Deferred;
        }
        return;
      }
      state := Sent;
      due := e.now + VerifyTickFor(stall, cfg);
      trace := Then(trace, Migrating(OfferSeen(tries, e.rx, e.now, false, laddr)));
      if cfg.verifyMs == 0 {
        state := Done;
        trace := Then(trace, Migrated);
      }
    }

    method RetryMigration(cfg: RepairConfig, e: Env)
      modifies this
      ensures View() == Retry(old(View()), cfg, e)
    {
      RememberLaddr();
      if Rotates(View()) && laddr.Some? {
        var next := TakeNextLaddr(e.locals, laddr.value.af);
        if next.Some? && next != laddr { laddr := next; }
      }
      assert View() == Rotate(old(View()), e);
      hide Send, Rotate;
      SendMigration(cfg, e);
    }

    method WaitAddress()
      modifies this`state, this`trace
      ensures View() == WaitForAddr(old(View()))
    {
      if state.WaitAddr? { return; }
      state := WaitAddr;
      trace := Then(trace, CallDeferred);
    }

    /** What a round leaves behind does not outlive it. */
    method ForgetRound()
      modifies this`tries, this`due, this`staleSent, this`restarted, this`pathMoved, this`tried, this`laddr
      ensures tries == due == 0 && !staleSent && !restarted && !pathMoved && tried == [] && laddr == None
    {
      tries := 0;
      due := 0;
      staleSent := false;
      restarted := false;
      pathMoved := false;
      tried := [];
      laddr := None;
    }

    method ClaimFor(gen: nat, stall: bool, start: nat, now: nat)
      modifies this
      ensures View() == Claim(old(View()), gen, stall, start, now)
    {
      ForgetRound();
      this.gen := gen;
      this.stall := stall;
      this.start := start;
      trace := Then(trace, Claimed(stall, now));
    }

    method OfferFrom(cfg: RepairConfig, from: Addr, e: Env)
      modifies this
      ensures View() == Offer(old(View()), cfg, from, e)
    {
      hide Send;
      if e.current == Some(from) && !e.overWs && !stall {
        state := Idle;
        return;
      }
      if stall {
        pathMoved := true;
      } else if e.current != Some(from) {
        pathMoved := true;
      }
      laddr := Some(from);
      SendMigration(cfg, e);
    }

    method LocateAndOffer(cfg: RepairConfig, e: Env)
      modifies this
      ensures View() == Locate(old(View()), cfg, e)
    {
      hide Offer, WaitForAddr, NextLaddr;
      if !e.stream || !e.peerKnown || e.route.None? {
        WaitAddress();
        return;
      }
      var from := e.route.value;
      if Rotates(View()) && from in tried {
        var next := TakeNextLaddr(e.locals, from.af);
        if next.Some? { from := next.value; }
      }
      OfferFrom(cfg, from, e);
    }

    method StartMigration(cfg: RepairConfig, gen: nat, handoverStart: nat, e: Env)
      modifies this
      ensures View() == Start(old(View()), cfg, gen, handoverStart, e)
    {
      hide Locate, Claim;
      if !live {
        state := Idle;
        return;
      }
      if this.gen != gen {
        ClaimFor(gen, false, if handoverStart != 0 then handoverStart else e.now, e.now);
      }
      LocateAndOffer(cfg, e);
    }

    method JudgeSent(cfg: RepairConfig, e: Env)
      modifies this
      ensures View() == Judge(old(View()), cfg, e)
    {
      hide Retry, FailCall;
      if cfg.verifyMs == 0 || e.onHold || e.rx > rxAtMig {
        state := Done;
        trace := Then(trace, Migrated);
      } else if tries >= MaxAttemptsFor(View(), cfg, e) {
        FailMigration(cfg);
      } else {
        RetryMigration(cfg, e);
      }
    }

    method VerifyTurn(cfg: RepairConfig, gen: nat, handoverStart: nat, e: Env)
      modifies this
      ensures View() == Tick(old(View()), cfg, gen, handoverStart, e)
    {
      hide Start, Send, Judge, FailCall;
      if this.gen != gen { return; }
      if !live {
        state := Idle;
        return;
      }
      match state
      case Stalled => StartMigration(cfg, gen, handoverStart, e);
      case WaitAddr =>
        tries := tries + 1;
        if tries >= cfg.net.maxAttempts { FailMigration(cfg); } else { StartMigration(cfg, gen, handoverStart, e); }
      case Deferred =>
        if e.refreshable { SendMigration(cfg, e); }
        else {
          tries := tries + 1;
          if tries >= cfg.net.maxAttempts { FailMigration(cfg); }
        }
      case Sent => if !TooEarly(View(), e) { JudgeSent(cfg, e); }
      case _ =>
    }

    /** vox_netmon_call_stalled; `claimed` asks for the verify timer. */
    method Stall(gen: nat, e: Env) returns (claimed: bool)
      modifies this
      ensures claimed == StallAdmitted(old(View()), gen, e)
      ensures View() == StallReport(old(View()), gen, e)
    {
      claimed := false;
      if !live { return; }
      if this.gen == gen && Pending(state) { return; }
      if e.onHold || e.localHold { return; }
      if stallAt != 0 && stallAt <= e.now && e.now - stallAt < STALL_COOLDOWN_MS { return; }
      if stallRounds >= STALL_ROUNDS { return; }
      stallAt := e.now;
      stallRounds := stallRounds + 1;
      ClaimFor(gen, true, e.now, e.now);
      state := Stalled;
      claimed := true;
    }

    method FailOwed(cfg: RepairConfig, handoverStart: nat)
      modifies this
      ensures View() == FailIfOwed(old(View()), cfg, handoverStart)
    {
      if !live || Terminal(state) { return; }
      if start == 0 { start := handoverStart; }
      FailMigration(cfg);
    }
  }

  function ViewsOf(calls: seq<RepairCall>): (v: seq<Call>)
    reads calls
    ensures |v| == |calls|
  {
    seq(|calls|, i requires 0 <= i < |calls| reads calls => calls[i].View())
  }

  class CallMonitor {
    const cfg: RepairConfig
    var calls: seq<RepairCall>
    var verify: Timer

    constructor (cfg: RepairConfig)
      ensures this.cfg == cfg && calls == [] && verify == Stopped
    {
      this.cfg, calls, verify := cfg, [], Stopped;
    }

    /** The call list holds every call once. */
    ghost predicate Valid()
      reads this
    {
      forall i, j :: 0 <= i < j < |calls| ==> calls[i] != calls[j]
    }

    /** Every call is within its budgets and owed at most one verdict. */
    ghost predicate Sound()
      reads this, calls
    {
      ValidRepairConfig(cfg) && forall i :: 0 <= i < |calls| ==> CallOk(calls[i].View(), cfg)
    }

    function Views(): seq<Call>
      reads this`calls, calls
    {
      ViewsOf(calls)
    }

    /** arm_verify with migration_pending inlined: the shared timer runs at the
      pace of the most impatient pending call. */
    method RearmVerify(gen: nat)
      modifies this`verify
      ensures verify == ArmVerify(Views(), gen, cfg, old(verify))
    {
      var n := Min(|calls|, SNAP_MAX);
      var tick := VerifyTickMs(cfg);
      var pending := false;
      for i := 0 to n
        invariant PendingTick(Views()[..i], gen, cfg) == if pending then Some(tick) else None
        invariant !pending ==> tick == VerifyTickMs(cfg)
      {
        var c := calls[i];
        assert Views()[..i + 1][..i] == Views()[..i];
        if c.gen == gen && Pending(c.state) {
          if VerifyTickFor(c.stall, cfg) < tick { tick := VerifyTickFor(c.stall, cfg); }
          pending := true;
        }
      }
      if pending { verify := Armed(tick); }
    }

    method MigrateAll(gen: nat, handoverStart: nat, envs: nat -> Env)
      requires Valid()
      modifies this`verify, calls
      ensures Views() == StartAll(old(Views()), cfg, gen, handoverStart, envs)
      ensures verify == ArmVerify(Views(), gen, cfg, old(verify))
      ensures old(Sound()) && (forall i :: 0 <= i < |calls| ==> old(calls[i].gen) != gen) ==> Sound()
    {
      hide Start, CallOk;
      ghost var was := Views();
      for i := 0 to Min(|calls|, SNAP_MAX)
        invariant verify == old(verify)
        invariant forall k :: 0 <= k < i ==>
                    calls[k].View() == Start(old(calls[k].View()), cfg, gen, handoverStart, envs(k))
        invariant forall k :: i <= k < |calls| ==> calls[k].View() == old(calls[k].View())
      {
        calls[i].StartMigration(cfg, gen, handoverStart, envs(i));
      }
      forall k | 0 <= k < |was| && ValidRepairConfig(cfg) && CallOk(was[k], cfg) && was[k].gen != gen
        ensures CallOk(Start(was[k], cfg, gen, handoverStart, envs(k)), cfg)
      {
        StartKeepsOk(was[k], cfg, gen, handoverStart, envs(k));
      }
      RearmVerify(gen);
    }

    /** The verify timer fired: every call of the snapshot gets its turn. */
    method VerifyFired(gen: nat, handoverStart: nat, envs: nat -> Env)
      requires Valid() && verify.Armed?
      modifies this`verify, calls
      ensures Views() == TickAll(old(Views()), cfg, gen, handoverStart, envs)
      ensures verify == ArmVerify(Views(), gen, cfg, Stopped)
      ensures old(Sound()) ==> Sound()
    {
      hide Tick, CallOk;
      ghost var was := Views();
      verify := Stopped;
      for i := 0 to Min(|calls|, SNAP_MAX)
        invariant verify == Stopped
        invariant forall k :: 0 <= k < i ==>
                    calls[k].View() == Tick(old(calls[k].View()), cfg, gen, handoverStart, envs(k))
        invariant forall k :: i <= k < |calls| ==> calls[k].View() == old(calls[k].View())
      {
        calls[i].VerifyTurn(cfg, gen, handoverStart, envs(i));
      }
      forall k | 0 <= k < |was| && ValidRepairConfig(cfg) && CallOk(was[k], cfg)
        ensures CallOk(Tick(was[k], cfg, gen, handoverStart, envs(k)), cfg)
      {
        TickKeepsOk(was[k], cfg, gen, handoverStart, envs(k));
      }
      RearmVerify(gen);
    }

    method FailPending(handoverStart: nat)
      requires Valid()
      modifies calls
      ensures Views() == FailAll(old(Views()), cfg, handoverStart)
      ensures old(Sound()) ==> Sound()
    {
      hide FailIfOwed, CallOk;
      ghost var was := Views();
      for i := 0 to Min(|calls|, SNAP_MAX)
        invariant forall k :: 0 <= k < i ==>
                    calls[k].View() == FailIfOwed(old(calls[k].View()), cfg, handoverStart)
        invariant forall k :: i <= k < |calls| ==> calls[k].View() == old(calls[k].View())
      {
        calls[i].FailOwed(cfg, handoverStart);
      }
      forall k | 0 <= k < |was| && ValidRepairConfig(cfg) && CallOk(was[k], cfg)
        ensures CallOk(FailIfOwed(was[k], cfg, handoverStart), cfg)
      {
        FailIfOwedKeepsOk(was[k], cfg, handoverStart);
      }
      assert forall k :: 0 <= k < |calls| ==> Views()[k] == calls[k].View() && was[k] == old(calls[k].View());
    }
  }
}
