/** The registration handlers as they run, on one account record updated in
  place, and the walks over the account list.  Every method is proved equal to
  the state transformer of the same handler in Registration. */
module RegistrationClasses {
  import opened History
  import opened Handover
  import opened Registration
  import opened RegistrationProofs

  class RegAccount {
    var destroyed: bool
    var ua: bool
    var wanted: bool
    var state: RegState
    var error: RegError
    var reconnecting: bool
    var attempt: nat
    var delay: nat
    var sig: Option<Signature>
    var retry: Timer
    var watch: Timer
    var watchElapsed: nat
    var ka: Timer
    var kaInFlight: bool
    var kaFailed: bool
    var policy: RetryPolicy
    var posts: Log<RegEvent>

    function View(): Account
      reads this
    {
      Account(destroyed, ua, wanted, state, error, reconnecting, attempt, delay, sig, retry, watch, watchElapsed,
              ka, kaInFlight, kaFailed, policy, posts)
    }

    constructor (policy: RetryPolicy)
      ensures Valid() && View() == NewAccount(policy)
    {
      destroyed, ua, wanted, state, error, reconnecting := false, true, false, Unregistered, NoError, false;
      attempt, delay, sig, retry, watch, watchElapsed := 0, 0, None, Stopped, Stopped, 0;
      ka, kaInFlight, kaFailed, posts := Stopped, false, false, Empty;
      this.policy := policy;
    }

    /** The backoff loop, clamped and left early once it reaches the cap. */
    method BackoffDelay() returns (d: nat)
      ensures d == Backoff(policy.initialMs, policy.maxMs, policy.backoff, attempt)
    {
      d := policy.initialMs;
      var i := 0;
      while i < attempt
        invariant i <= attempt
        invariant Backoff(policy.initialMs, policy.maxMs, policy.backoff, attempt)
               == Backoff(d, policy.maxMs, policy.backoff, attempt - i)
      {
        d := Scale(d, policy.backoff);
        if d >= policy.maxMs {
          d := policy.maxMs;
          return;
        }
        i := i + 1;
      }
    }

    method PrepareEvent(st: RegState, err: RegError) returns (post: bool)
      modifies this`sig, this`delay
      ensures (View(), post) == Prepare(old(View()), st, err)
    {
      if !st.Reconnecting? {
        sig := None;
        delay := 0;
        return true;
      }
      if sig == Some(Signature(err, attempt, delay)) { return false; }
      sig := Some(Signature(err, attempt, delay));
      post := true;
    }

    method PostEvent(st: RegState, err: RegError)
      modifies this`sig, this`delay, this`posts
      ensures View() == Report(old(View()), st, err)
    {
      var post := PrepareEvent(st, err);
      if post { posts := Then(posts, RegEvent(st, Signature(err, attempt, delay), true)); }
    }

    method PostUnprepared(st: RegState, err: RegError)
      modifies this`posts
      ensures View() == ReportRaw(old(View()), st, err)
    {
      posts := Then(posts, RegEvent(st, Signature(err, 0, 0), false));
    }

    method SettleFailState(err: RegError)
      modifies this`reconnecting, this`state, this`error
      ensures View() == FailState(old(View()), err)
    {
      reconnecting := WillRetry(View(), err);
      state := if reconnecting then Reconnecting else RegFailed;
      error := err;
    }

    method ScheduleRetryTimer(cfg: RegConfig, random: nat)
      modifies this
      ensures View() == ScheduleRetry(old(View()), cfg, random)
    {
      hide Report, Backoff, ApplyJitter, RecoveryEnds;
      if retry.Armed? { return; }
      if !BudgetLeft(View()) {
        EndRecovery();
        return;
      }
      var d := BackoffDelay();
      d := ApplyJitter(d, cfg.jitter, random);
      Promise(d);
      PostEvent(Reconnecting, error);
      retry := Armed(d);
    }

    /** The budget is spent: withdraw the promise if one was made. */
    method EndRecovery()
      modifies this
      ensures View() == RecoveryEnds(old(View()))
    {
      hide Report;
      reconnecting := false;
      if !state.Reconnecting? { return; }
      state := RegFailed;
      PostEvent(RegFailed, error);
    }

    /** The fields a RECONNECTING event is read from. */
    method Promise(d: nat)
      modifies this`attempt, this`delay, this`reconnecting, this`state
      ensures attempt == old(attempt) + 1 && delay == d && reconnecting && state == Reconnecting
    {
      attempt := attempt + 1;
      delay := d;
      reconnecting := true;
      state := Reconnecting;
    }

    method ArmKeepalive(cfg: RegConfig)
      modifies this`ka
      ensures View() == KeepaliveArm(old(View()), cfg)
    {
      if destroyed || !wanted { return; }
      if cfg.keepaliveMs == 0 { return; }
      ka := Armed(cfg.keepaliveMs);
    }

    method RegisteringSeen()
      modifies this
      ensures View() == OnRegistering(old(View()))
    {
      if reconnecting {
        state := Reconnecting;
        PostEvent(Reconnecting, error);
      } else {
        state := Registering;
        PostUnprepared(Registering, NoError);
      }
    }

    method RegisterOkSeen(cfg: RegConfig)
      modifies this
      ensures View() == OnRegisterOk(old(View()), cfg)
    {
      hide Report;
      MarkRegistered();
      kaFailed := false;
      error := NoError;
      ArmKeepalive(cfg);
      PostEvent(Registered, NoError);
    }

    method RegisterFailSeen(cfg: RegConfig, err: RegError, random: nat)
      modifies this
      ensures View() == OnRegisterFail(old(View()), cfg, err, random)
    {
      hide Report, ScheduleRetry;
      SettleFailState(err);
      var reported := state;
      ka := Stopped;
      if !err.AuthError? { ScheduleRetryTimer(cfg, random); }
      PostEvent(reported, err);
    }

    method UnregisteringSeen()
      modifies this
      ensures View() == OnUnregistering(old(View()))
    {
      state := Unregistering;
      reconnecting := false;
      PostEvent(Unregistering, NoError);
    }

    method RegisterNow(emits: bool)
      modifies this
      ensures View() == UaRegister(old(View()), emits)
    {
      if emits { RegisteringSeen(); }
    }

    method WatchRegistration()
      modifies this`watchElapsed, this`watch
      ensures View() == Watch(old(View()))
    {
      if destroyed || !ua { return; }
      watchElapsed := 0;
      watch := Armed(WATCH_INTERVAL_MS);
    }

    method MarkRegistered()
      modifies this`state, this`attempt, this`reconnecting
      ensures state == Registered && attempt == 0 && !reconnecting
    {
      state := Registered;
      attempt := 0;
      reconnecting := false;
    }

    /** A transaction that timed out. */
    method GiveUpOnAnswer(cfg: RegConfig, random: nat)
      modifies this
      ensures View() == TimedOut(old(View()), cfg, random)
    {
      hide Report, ScheduleRetry, FailState;
      SettleFailState(TimeoutError);
      PostEvent(state, TimeoutError);
      ScheduleRetryTimer(cfg, random);
    }

    method WatchFired(cfg: RegConfig, e: RegEnv)
      requires watch.Armed?
      modifies this
      ensures View() == WatchFires(old(View()), cfg, e)
    {
      hide Report, TimedOut, KeepaliveArm;
      watch := Stopped;
      if destroyed || !ua || !wanted { return; }
      if state.Registered? || state.RegFailed? { return; }
      if retry.Armed? { return; }
      if e.isRegistered {
        MarkRegistered();
        ArmKeepalive(cfg);
        PostEvent(Registered, NoError);
        return;
      }
      watchElapsed := watchElapsed + WATCH_INTERVAL_MS;
      if cfg.timerFMs != 0 && watchElapsed >= cfg.timerFMs {
        GiveUpOnAnswer(cfg, e.random);
        return;
      }
      watch := Armed(WATCH_INTERVAL_MS);
    }

    method RetryFired(e: RegEnv)
      requires retry.Armed?
      modifies this
      ensures View() == RetryFires(old(View()), e)
    {
      hide UaRegister;
      retry := Stopped;
      if destroyed || !ua { return; }
      RegisterNow(e.emits);
      WatchRegistration();
    }

    method KeepaliveFired(cfg: RegConfig, busy: bool, sendOk: bool)
      modifies this`ka, this`kaInFlight
      ensures View() == KeepaliveFires(old(View()), cfg, busy, sendOk)
    {
      ka := Stopped;
      if destroyed || !ua || !wanted { return; }
      if kaInFlight { return; }
      if busy {
        ArmKeepalive(cfg);
        return;
      }
      if !cfg.hostSet { return; }
      kaInFlight := true;
      if !sendOk {
        kaInFlight := false;
        ArmKeepalive(cfg);
      }
    }

    /** keepalive_resp_handler when the server answered. */
    method ProbeAnswer(cfg: RegConfig, e: RegEnv)
      modifies this
      ensures View() == ProbeAnswered(old(View()), cfg, e)
    {
      hide Report, KeepaliveArm;
      if destroyed { return; }
      var down := ProbeReturned(false);
      if down && state.Reconnecting? && e.isRegistered {
        MarkRegistered();
        error := NoError;
        PostEvent(Registered, NoError);
      }
      ArmKeepalive(cfg);
    }

    method ProbeReturned(lost: bool) returns (down: bool)
      modifies this`kaInFlight, this`kaFailed
      ensures down == old(kaFailed) && !kaInFlight && kaFailed == lost
    {
      down := kaFailed;
      kaInFlight := false;
      kaFailed := lost;
    }

    /** keepalive_resp_handler when it did not. */
    method ProbeTimedOut(cfg: RegConfig, e: RegEnv)
      modifies this
      ensures View() == ProbeLost(old(View()), cfg, e)
    {
      hide LossReported, TimedOut, KeepaliveArm;
      if destroyed { return; }
      var _ := ProbeReturned(true);
      error := TimeoutError;
      if cfg.keepaliveReregister && wanted {
        GiveUpOnAnswer(cfg, e.random);
        return;
      }
      ReportProbeLoss();
      ArmKeepalive(cfg);
    }

    /** A lost probe that does not re-register on its own. */
    method ReportProbeLoss()
      modifies this
      ensures View() == LossReported(old(View()))
    {
      hide Report;
      state := if wanted then Reconnecting else RegFailed;
      reconnecting := wanted;
      PostEvent(state, TimeoutError);
    }

    method RegisterRequested(e: RegEnv)
      modifies this
      ensures View() == Register(old(View()), e)
    {
      hide UaRegister;
      if !ua { return; }
      wanted := true;
      reconnecting := false;
      RegisterNow(e.emits);
      WatchRegistration();
    }

    method UnregisterRequested()
      modifies this
      ensures View() == Unregister(old(View()))
    {
      if !ua { return; }
      wanted := false;
      reconnecting := false;
      kaFailed := false;
      state := Unregistering;
      watch := Stopped;
      ka := Stopped;
    }

    method CancelRequested()
      modifies this
      ensures View() == CancelRetry(old(View()))
    {
      retry := Stopped;
      watch := Stopped;
      attempt := 0;
      if state.Reconnecting? {
        reconnecting := false;
        state := RegFailed;
        PostUnprepared(RegFailed, error);
      }
    }

    method RetryRequested(e: RegEnv)
      modifies this
      ensures View() == RetryNow(old(View()), e)
    {
      hide UaRegister;
      retry := Stopped;
      attempt := 0;
      if !destroyed && ua {
        wanted := true;
        RegisterNow(e.emits);
        WatchRegistration();
      }
    }

    method PathLost()
      modifies this
      ensures View() == MarkLost(old(View()))
    {
      hide Report;
      if destroyed || !wanted { return; }
      if !state.Registered? && !state.Registering? { return; }
      reconnecting := true;
      state := Reconnecting;
      ka := Stopped;
      PostEvent(Reconnecting, NoError);
    }

    method RebindOnNewPath(e: RegEnv)
      modifies this
      ensures View() == Rebind(old(View()), e)
    {
      hide UaRegister;
      if state.RegFailed? && error.AuthError? { return; }
      retry := Stopped;
      attempt := 0;
      reconnecting := true;
      RegisterNow(e.emits);
      WatchRegistration();
    }

    /** set_push_token_fn, once the token is stored. */
    method TokenSet(e: RegEnv)
      modifies this
      ensures View() == PushToken(old(View()), e)
    {
      hide UaRegister;
      if !ua { return; }
      if state.Registering? || state.Unregistering? || state.Reconnecting? { return; }
      if !retry.Armed? { RegisterNow(e.emits); }
    }

    /** The stored signature is the one the posted events spell. */
    ghost predicate Valid()
      reads this
    {
      Remembers(View())
    }

    /** Any input to one account: the signature stays that of the history, the
      recovery flag survives exactly as long as registrations are seen, and a
      kept promise stays kept but for one kind of push token. */
    method Handle(cfg: RegConfig, input: AccountInput, e: RegEnv)
      requires Valid()
      modifies this
      ensures Valid() && View() == AccountStep(old(View()), cfg, input, e)
      ensures Flagged(old(View())) ==> (Flagged(View()) <==> RegisterSeen(old(View()), input, e))
      ensures Probing(cfg) && Kept(old(View())) ==> (Kept(View()) <==> !PushBreaks(old(View()), input, e))
    {
      ghost var was := View();
      AccountStepRemembers(was, cfg, input, e);
      if Flagged(was) { FlagKeptExactly(was, cfg, input, e); }
      if Probing(cfg) && Kept(was) { AccountStepKeepsExactly(was, cfg, input, e); }
      Dispatch(cfg, input, e);
    }

    method Dispatch(cfg: RegConfig, input: AccountInput, e: RegEnv)
      modifies this
      ensures View() == AccountStep(old(View()), cfg, input, e)
    {
      hide Register, Unregister, CancelRetry, RetryNow, PushToken, KeepaliveFires, OnRegisterOk, OnRegisterFail,
           OnUnregistering, RetryFires, WatchFires, ProbeAnswered, ProbeLost;
      match input
      case AppRegister => RegisterRequested(e);
      case AppUnregister => UnregisterRequested();
      case AppCancelRetry => CancelRequested();
      case AppRetryNow => RetryRequested(e);
      case AppPushToken => TokenSet(e);
      case AppSetPolicy(p) => policy := p;
      case AppKeepaliveNow(busy, ok) => if Eligible(View()) { KeepaliveFired(cfg, busy, ok); }
      case AppDestroy => destroyed := true;
      case RegisterOk => RegisterOkSeen(cfg);
      case RegisterFail(err) => RegisterFailSeen(cfg, err, e.random);
      case UnregisteringSeen => UnregisteringSeen();
      case RetryTimer => if retry.Armed? { RetryFired(e); }
      case WatchTimer => if watch.Armed? { WatchFired(cfg, e); }
      case KeepaliveTimer(busy, ok) => if ka.Armed? { KeepaliveFired(cfg, busy, ok); }
      case ProbeOk => if kaInFlight { ProbeAnswer(cfg, e); }
      case ProbeTimeout => if kaInFlight { ProbeTimedOut(cfg, e); }
    }

    method Perform(cfg: RegConfig, act: Action, e: RegEnv)
      modifies this
      ensures View() == AccountAction(old(View()), cfg, act, e)
    {
      hide MarkLost, Rebind, ScheduleRetry;
      match act
      case MarkReconnecting => PathLost();
      case AccountsToRetry => if state.Reconnecting? { ScheduleRetryTimer(cfg, e.random); }
      case Reregister => RebindOnNewPath(e);
      case _ =>
    }
  }

  function ViewsOf(accts: seq<RegAccount>): (v: seq<Account>)
    reads accts
    ensures |v| == |accts|
  {
    seq(|accts|, i requires 0 <= i < |accts| reads accts => accts[i].View())
  }

  /** One of the walks over snapshot_accounts: act on the first 64 accounts that
    are live and wanted. */
  method WalkAccounts(accts: seq<RegAccount>, cfg: RegConfig, act: Action, envs: nat -> RegEnv)
    requires forall i, j :: 0 <= i < j < |accts| ==> accts[i] != accts[j]
    modifies accts
    ensures ViewsOf(accts) == OnSnapshot(old(ViewsOf(accts)), 0, ACCT_SNAP_MAX, cfg, act, envs)
  {
    hide AccountAction, OnSnapshot, Eligible;
    ghost var was := ViewsOf(accts);
    ghost var done: seq<Account> := [];
    var n := 0;
    var i := 0;
    assert was[0..] == was;
    while i < |accts| && n < ACCT_SNAP_MAX
      invariant i == |done| <= |accts| && n <= ACCT_SNAP_MAX
      invariant forall k :: 0 <= k < i ==> accts[k].View() == done[k]
      invariant forall k :: i <= k < |accts| ==> accts[k].View() == was[k]
      invariant OnSnapshot(was, 0, ACCT_SNAP_MAX, cfg, act, envs)
             == done + OnSnapshot(was[i..], i, ACCT_SNAP_MAX - n, cfg, act, envs)
    {
      SnapshotMoves(was, done, i, ACCT_SNAP_MAX - n, cfg, act, envs);
      var e := envs(i);
      done := done + [if Eligible(was[i]) then AccountAction(was[i], cfg, act, e) else was[i]];
      if Eligible(accts[i].View()) {
        accts[i].Perform(cfg, act, e);
        n := n + 1;
      }
      i := i + 1;
    }
    FullSnapshotStops(was[i..], i, ACCT_SNAP_MAX - n, cfg, act, envs);
    assert ViewsOf(accts) == done + was[i..];
  }

  /** The walk has done the accounts before `i` and turns to the next one. */
  lemma SnapshotMoves(
    was: seq<Account>, done: seq<Account>, i: nat, room: nat, cfg: RegConfig, act: Action, envs: nat -> RegEnv)
    requires i < |was| && room > 0
    ensures done + OnSnapshot(was[i..], i, room, cfg, act, envs)
         == (done + [if Eligible(was[i]) then AccountAction(was[i], cfg, act, envs(i)) else was[i]])
            + OnSnapshot(was[i + 1..], i + 1, if Eligible(was[i]) then room - 1 else room, cfg, act, envs)
  {
    hide AccountAction;
    assert was[i..][1..] == was[i + 1..];
  }

  lemma FullSnapshotStops(accts: seq<Account>, from: nat, room: nat, cfg: RegConfig, act: Action, envs: nat -> RegEnv)
    requires accts == [] || room == 0
    ensures OnSnapshot(accts, from, room, cfg, act, envs) == accts
  {
    hide AccountAction;
  }
}
