/** What each registration handler does, field by field and event by event, and
  when the watchdog gives an unanswered REGISTER up. */
module RegistrationTables {
  import opened History
  import opened Handover
  import opened Registration
  import opened RegistrationProofs

  // ---------------------------------------------------------------------
  // Telling the app
  // ---------------------------------------------------------------------

  /** `b` is `a` after the app was told `st`: RECONNECTING carries error, attempt
    and delay and is told once; any other state ends the countdown. */
  predicate Told(a: Account, b: Account, st: RegState, err: RegError) {
    if st.Reconnecting? then
      var sig := Signature(err, a.attempt, a.delay);
      b == if a.sig == Some(sig) then a else a.(sig := Some(sig), posts := Then(a.posts, RegEvent(st, sig, true)))
    else
      b == a.(sig := None, delay := 0, posts := Then(a.posts, RegEvent(st, Signature(err, a.attempt, 0), true)))
  }

  lemma ReportIs(a: Account, st: RegState, err: RegError)
    ensures Told(a, Report(a, st, err), st, err)
  {
  }

  lemma AllTold()
    ensures forall a, st, err {:trigger Report(a, st, err)} :: Told(a, Report(a, st, err), st, err)
  {
    forall a, st, err ensures Told(a, Report(a, st, err), st, err) { ReportIs(a, st, err); }
  }

  /** Another attempt is allowed. */
  predicate MayRetry(a: Account) {
    a.policy.maxAttempts == 0 || a.attempt < a.policy.maxAttempts
  }

  // ---------------------------------------------------------------------
  // A REGISTER goes out
  // ---------------------------------------------------------------------

  /** ua_register with the recovery flag as given: REGISTERING, if it is raised, is
    told as the recovery's RECONNECTING or plainly; and the watchdog is set. */
  ghost predicate Registers(a: Account, b: Account, emits: bool) {
    if !emits then b == a.(watch := Armed(500), watchElapsed := 0)
    else if a.reconnecting then
      exists told :: Told(a.(state := Reconnecting), told, Reconnecting, a.error)
                  && b == told.(watch := Armed(500), watchElapsed := 0)
    else
      b == a.(state := Registering, watch := Armed(500), watchElapsed := 0,
              posts := Then(a.posts, RegEvent(Registering, Signature(NoError, 0, 0), false)))
  }

  lemma RegistersIs(a: Account, emits: bool)
    requires !a.destroyed && a.ua
    ensures Registers(a, Watch(UaRegister(a, emits)), emits)
  {
    hide Report;
    AllTold();
    ReportIs(a.(state := Reconnecting), Reconnecting, a.error);
  }

  /** register(), retry_now(), the retry timer and the re-REGISTER of a handover all
    send a REGISTER and watch it; they differ in what they forget first. */
  lemma {:induction false} RegisterRequestIs(a: Account, cfg: RegConfig, e: RegEnv)
    requires !a.destroyed && a.ua
    ensures Registers(a.(wanted := true, reconnecting := false), AccountStep(a, cfg, AppRegister, e), e.emits)
    ensures Registers(a.(wanted := true, retry := Stopped, attempt := 0), AccountStep(a, cfg, AppRetryNow, e), e.emits)
    ensures if a.retry.Armed? then Registers(a.(retry := Stopped), AccountStep(a, cfg, RetryTimer, e), e.emits)
            else AccountStep(a, cfg, RetryTimer, e) == a
    ensures if a.state.RegFailed? && a.error.AuthError? then AccountAction(a, cfg, Reregister, e) == a
            else Registers(a.(retry := Stopped, attempt := 0, reconnecting := true), AccountAction(a, cfg, Reregister, e), e.emits)
  {
    hide UaRegister, Registers, Watch;
    RegistersIs(a.(wanted := true, reconnecting := false), e.emits);
    RegistersIs(a.(retry := Stopped, attempt := 0, wanted := true), e.emits);
    RegistersIs(a.(retry := Stopped), e.emits);
    RegistersIs(a.(retry := Stopped, attempt := 0, reconnecting := true), e.emits);
  }

  // ---------------------------------------------------------------------
  // Answers
  // ---------------------------------------------------------------------

  /** Probing is re-armed for a live, wanted account when it is configured. */
  function Probed(a: Account, cfg: RegConfig): Account {
    if a.destroyed || !a.wanted || cfg.keepaliveMs == 0 then a else a.(ka := Armed(cfg.keepaliveMs))
  }

  /** REGISTER_OK: everything a recovery left behind is cleared, and told. */
  lemma {:induction false} SuccessIs(a: Account, cfg: RegConfig, e: RegEnv)
    ensures Told(Probed(a.(state := Registered, attempt := 0, reconnecting := false, kaFailed := false, error := NoError), cfg),
                 AccountStep(a, cfg, RegisterOk, e), Registered, NoError)
  {
    hide Report;
    AllTold();
  }

  /** A retry is armed for the next attempt, and promised. */
  ghost predicate Promises(a: Account, b: Account, d: nat) {
    exists told ::
      Told(a.(attempt := a.attempt + 1, delay := d, reconnecting := true, state := Reconnecting), told, Reconnecting, a.error)
      && b == told.(retry := Armed(d))
  }

  lemma ScheduleIs(a: Account, cfg: RegConfig, random: nat)
    ensures var b := ScheduleRetry(a, cfg, random);
            if a.retry.Armed? then b == a
            else if MayRetry(a) then Promises(a, b, RetryDelay(a, cfg, random))
            else if a.state.Reconnecting? then
              Told(a.(reconnecting := false, state := RegFailed), b, RegFailed, a.error)
            else b == a.(reconnecting := false)
  {
    hide Report, RetryDelay;
    AllTold();
    var d := RetryDelay(a, cfg, random);
    ReportIs(a.(attempt := a.attempt + 1, delay := d, reconnecting := true, state := Reconnecting), Reconnecting, a.error);
  }

  /** REGISTER_FAIL on a live, wanted account: a rejected password ends it; so does
    a spent budget; otherwise the retry on its way, or a new one, is promised. */
  lemma {:induction false} FailureIs(a: Account, cfg: RegConfig, err: RegError, e: RegEnv)
    requires Eligible(a)
    ensures var b := AccountStep(a, cfg, RegisterFail(err), e);
            if err.AuthError? || (!a.retry.Armed? && !MayRetry(a)) then
              Told(a.(reconnecting := false, state := RegFailed, error := err, ka := Stopped), b, RegFailed, err)
            else if a.retry.Armed? then
              Told(a.(reconnecting := true, state := Reconnecting, error := err, ka := Stopped), b, Reconnecting, err)
            else
              Promises(a.(reconnecting := true, state := Reconnecting, error := err, ka := Stopped), b,
                       RetryDelay(a, cfg, e.random))
  {
    hide Report, RetryDelay, ScheduleRetry;
    AllTold();
    var f := FailState(a, err).(ka := Stopped);
    ScheduleIs(f, cfg, e.random);
    RetryDelayFrame(a, f, cfg, e.random);
    hide FailState;
    if !err.AuthError? && !a.retry.Armed? && MayRetry(a) {
      SecondTellingIsSilent(f, ScheduleRetry(f, cfg, e.random), RetryDelay(a, cfg, e.random));
    }
  }

  /** What was just promised is not told again. */
  lemma SecondTellingIsSilent(f: Account, b: Account, d: nat)
    requires Promises(f, b, d)
    ensures Report(b, Reconnecting, f.error) == b
  {
  }

  // ---------------------------------------------------------------------
  // The watchdog
  // ---------------------------------------------------------------------

  /** Still waiting for an answer, with no retry on its way. */
  predicate Unanswered(a: Account) {
    Eligible(a) && !a.state.Registered? && !a.state.RegFailed? && !a.retry.Armed?
  }

  /** `n` watch ticks in a row, the k-th with answer `envs(k)`. */
  function Ticked(a: Account, cfg: RegConfig, envs: nat -> RegEnv, n: nat): Account {
    if n == 0 then a else AccountStep(Ticked(a, cfg, envs, n - 1), cfg, WatchTimer, envs(n - 1))
  }

  predicate NeverRegistered(envs: nat -> RegEnv, n: nat) {
    forall k :: 0 <= k < n ==> !envs(k).isRegistered
  }

  /** Timer F has passed after `n` ticks of half a second. */
  predicate TimerFPassed(cfg: RegConfig, n: nat) {
    cfg.timerFMs > 0 && 500 * n >= cfg.timerFMs
  }

  /** The REGISTER is given up: the watchdog is off, and either a retry is armed and
    promised, or the app is told FAILED, for a timeout in both cases. */
  ghost predicate GivenUp(a: Account, b: Account) {
    && b.watch.Stopped? && b.error.TimeoutError? && b.posts.Then? && Length(b.posts) > Length(a.posts)
    && if MayRetry(a) then
         && b.state.Reconnecting? && b.reconnecting && b.attempt == a.attempt + 1 && b.retry == Armed(b.delay)
         && b.posts.last == RegEvent(Reconnecting, Signature(TimeoutError, b.attempt, b.delay), true)
       else
         && b.state.RegFailed? && !b.reconnecting && b.retry.Stopped? && b.attempt == a.attempt
         && b.posts.last == RegEvent(RegFailed, Signature(TimeoutError, b.attempt, 0), true)
  }

  lemma TimeoutGivesUp(a: Account, cfg: RegConfig, random: nat)
    requires Unanswered(a) && a.watch.Stopped?
    ensures GivenUp(a, TimedOut(a, cfg, random))
  {
    hide RetryDelay;
    var f := FailState(a, TimeoutError);
    var told := Report(f, f.state, TimeoutError);
    assert Length(told.posts) >= Length(a.posts);
    if MayRetry(a) {
      var d := RetryDelay(told, cfg, random);
      var next := told.(attempt := told.attempt + 1, delay := d, reconnecting := true, state := Reconnecting);
      assert told.sig != Some(SigOf(next, TimeoutError));
    }
  }

  lemma {:induction false} WatchedTicks(a: Account, cfg: RegConfig, envs: nat -> RegEnv, n: nat)
    requires Unanswered(a) && a.watch.Armed? && a.watchElapsed == 0 && NeverRegistered(envs, n)
    ensures if !TimerFPassed(cfg, n) then
              Ticked(a, cfg, envs, n) == a.(watch := if n == 0 then a.watch else Armed(500), watchElapsed := 500 * n)
            else GivenUp(a, Ticked(a, cfg, envs, n))
  {
    hide TimedOut, GivenUp, Report, KeepaliveArm;
    if n > 0 {
      WatchedTicks(a, cfg, envs, n - 1);
      var b := Ticked(a, cfg, envs, n - 1);
      if !TimerFPassed(cfg, n - 1) {
        var late := b.(watch := Stopped, watchElapsed := 500 * n);
        TimeoutGivesUp(late, cfg, envs(n - 1).random);
        if TimerFPassed(cfg, n) {
          assert Ticked(a, cfg, envs, n) == TimedOut(late, cfg, envs(n - 1).random);
          SameGivingUp(a, late, TimedOut(late, cfg, envs(n - 1).random));
        }
      } else {
        StoodDown(a, b);
      }
    }
  }

  lemma SameGivingUp(a: Account, late: Account, b: Account)
    requires GivenUp(late, b) && late.attempt == a.attempt && late.policy == a.policy && late.posts == a.posts
    ensures GivenUp(a, b)
  {
  }

  lemma StoodDown(a: Account, b: Account)
    requires GivenUp(a, b)
    ensures b.watch.Stopped?
  {
  }

  /** The input sends a REGISTER for the account. */
  predicate SendsRegister(a: Account, input: AccountInput) {
    input.AppRegister? || input.AppRetryNow? || (input.RetryTimer? && a.retry.Armed?)
  }

  /** The inputs of a run: a REGISTER for account `i`, then `n` watch ticks. */
  function WatchedInputs(
    past: Log<RegInput>, i: nat, input: AccountInput, e: RegEnv, envs: nat -> RegEnv, n: nat): Log<RegInput>
  {
    if n == 0 then Then(past, OnAccount(i, input, e))
    else Then(WatchedInputs(past, i, input, e, envs, n - 1), OnAccount(i, WatchTimer, envs(n - 1)))
  }

  lemma {:induction false} WatchedRuns(
    cfg: RegConfig, net: Config, down: bool, past: Log<RegInput>, i: nat, input: AccountInput, e: RegEnv,
    envs: nat -> RegEnv, n: nat)
    requires i < |RegRun(cfg, net, down, past).accts|
    ensures var s := RegRun(cfg, net, down, WatchedInputs(past, i, input, e, envs, n));
            && |s.accts| == |RegRun(cfg, net, down, past).accts|
            && s.accts[i] == Ticked(AccountStep(RegRun(cfg, net, down, past).accts[i], cfg, input, e), cfg, envs, n)
  {
    hide AccountStep, Step, OnActions;
    if n > 0 { WatchedRuns(cfg, net, down, past, i, input, e, envs, n - 1); }
  }

  lemma SentIsWatched(a: Account, cfg: RegConfig, input: AccountInput, e: RegEnv)
    requires !a.destroyed && a.ua && SendsRegister(a, input)
    ensures var b := AccountStep(a, cfg, input, e);
            b.watch == Armed(500) && b.watchElapsed == 0
  {
    hide AccountStep, Registers;
    RegisterRequestIs(a, cfg, e);
    RegistersWatch(match input
                   case AppRegister => a.(wanted := true, reconnecting := false)
                   case AppRetryNow => a.(wanted := true, retry := Stopped, attempt := 0)
                   case _ => a.(retry := Stopped),
                   AccountStep(a, cfg, input, e), e.emits);
  }

  lemma RegistersWatch(a: Account, b: Account, emits: bool)
    requires Registers(a, b, emits)
    ensures b.watch == Armed(500) && b.watchElapsed == 0
  {
    hide Told;
  }

  /** On every run: from the REGISTER of a register(), a retry_now() or a retry on,
    half-second ticks without an answer leave the account watched and the app
    undisturbed exactly until timer F, and then it is given up. */
  lemma {:induction false} WatchdogGivesUpExactly(
    cfg: RegConfig, net: Config, down: bool, past: Log<RegInput>, i: nat, input: AccountInput, e: RegEnv,
    envs: nat -> RegEnv, n: nat)
    requires i < |RegRun(cfg, net, down, past).accts|
    requires var a := RegRun(cfg, net, down, past).accts[i];
             && !a.destroyed && a.ua && SendsRegister(a, input)
             && Unanswered(AccountStep(a, cfg, input, e))
    requires NeverRegistered(envs, n)
    ensures |RegRun(cfg, net, down, WatchedInputs(past, i, input, e, envs, n)).accts| == |RegRun(cfg, net, down, past).accts|
    ensures var sent := AccountStep(RegRun(cfg, net, down, past).accts[i], cfg, input, e);
            var now := RegRun(cfg, net, down, WatchedInputs(past, i, input, e, envs, n)).accts[i];
            && (now.posts != sent.posts <==> TimerFPassed(cfg, n))
            && (if TimerFPassed(cfg, n) then GivenUp(sent, now)
                else now.watch == Armed(500) && now.state == sent.state && now.retry == sent.retry)
  {
    hide AccountStep, GivenUp;
    var a := RegRun(cfg, net, down, past).accts[i];
    WatchedRuns(cfg, net, down, past, i, input, e, envs, n);
    SentIsWatched(a, cfg, input, e);
    var sent := AccountStep(a, cfg, input, e);
    WatchedTicks(sent, cfg, envs, n);
    if TimerFPassed(cfg, n) { GivingUpIsTold(sent, Ticked(sent, cfg, envs, n)); }
  }

  lemma GivingUpIsTold(a: Account, b: Account)
    requires GivenUp(a, b)
    ensures b.posts != a.posts
  {
  }

  /** The same holds for the re-REGISTER of a handover. */
  lemma {:induction false} WatchdogAfterHandover(a: Account, cfg: RegConfig, e: RegEnv, envs: nat -> RegEnv, n: nat)
    requires Eligible(a) && !(a.state.RegFailed? && a.error.AuthError?)
    requires Unanswered(AccountAction(a, cfg, Reregister, e)) && NeverRegistered(envs, n)
    ensures var sent := AccountAction(a, cfg, Reregister, e);
            if TimerFPassed(cfg, n) then GivenUp(sent, Ticked(sent, cfg, envs, n))
            else Ticked(sent, cfg, envs, n).watch == Armed(500) && Ticked(sent, cfg, envs, n).posts == sent.posts
  {
    hide Report, AccountStep, GivenUp;
    AllTold();
    var sent := AccountAction(a, cfg, Reregister, e);
    assert sent.watch == Armed(500) && sent.watchElapsed == 0;
    WatchedTicks(sent, cfg, envs, n);
  }

  /** An answer that was not reported is found by the next tick. */
  lemma {:induction false} WatchdogReconciles(a: Account, cfg: RegConfig, e: RegEnv)
    requires Unanswered(a) && a.watch.Armed? && e.isRegistered
    ensures Told(Probed(a.(watch := Stopped, state := Registered, attempt := 0, reconnecting := false), cfg),
                 AccountStep(a, cfg, WatchTimer, e), Registered, NoError)
  {
    hide Report;
    AllTold();
  }

  // ---------------------------------------------------------------------
  // Probes
  // ---------------------------------------------------------------------

  /** keepalive_handler on a live, wanted account without a probe out: it probes
    when it can, and comes back when the account is busy or the send is refused. */
  lemma {:induction false} KeepaliveIs(a: Account, cfg: RegConfig, busy: bool, sendOk: bool, e: RegEnv)
    requires Eligible(a) && !a.kaInFlight
    ensures a.ka.Armed? ==>
              AccountStep(a, cfg, KeepaliveTimer(busy, sendOk), e) == AccountStep(a, cfg, AppKeepaliveNow(busy, sendOk), e)
    ensures var b := AccountStep(a, cfg, AppKeepaliveNow(busy, sendOk), e);
            if busy || (cfg.hostSet && !sendOk) then b == Probed(a.(ka := Stopped), cfg)
            else if !cfg.hostSet then b == a.(ka := Stopped)
            else b == a.(ka := Stopped, kaInFlight := true)
  {
  }

  /** An answered probe ends a recovery that a lost one began, if the registrar
    still knows the account; and probing goes on. */
  lemma {:induction false} ProbeAnsweredIs(a: Account, cfg: RegConfig, e: RegEnv)
    requires !a.destroyed && a.kaInFlight
    ensures var b := AccountStep(a, cfg, ProbeOk, e);
            if a.kaFailed && a.state.Reconnecting? && e.isRegistered then
              exists told ::
                Told(a.(kaInFlight := false, kaFailed := false, state := Registered, error := NoError, attempt := 0,
                        reconnecting := false), told, Registered, NoError)
                && b == Probed(told, cfg)
            else b == Probed(a.(kaInFlight := false, kaFailed := false), cfg)
  {
    hide Report;
    AllTold();
    ReportIs(a.(kaInFlight := false, kaFailed := false, state := Registered, error := NoError, attempt := 0,
                reconnecting := false), Registered, NoError);
  }

  /** A lost probe of a wanted account: with re-registering on it is a failure like
    any other timeout; without, the app is told RECONNECTING and probing goes on. */
  lemma {:induction false} ProbeLostIs(a: Account, cfg: RegConfig, e: RegEnv)
    requires Eligible(a) && a.kaInFlight
    ensures var b := AccountStep(a, cfg, ProbeTimeout, e);
            var lost := a.(kaInFlight := false, kaFailed := true, error := TimeoutError);
            if !cfg.keepaliveReregister then
              exists told :: Told(lost.(state := Reconnecting, reconnecting := true), told, Reconnecting, TimeoutError)
                          && b == Probed(told, cfg)
            else if !a.retry.Armed? && !MayRetry(a) then
              exists told :: Told(lost.(state := RegFailed, reconnecting := false), told, RegFailed, TimeoutError)
                          && b == told
            else
              exists told :: Told(lost.(state := Reconnecting, reconnecting := true), told, Reconnecting, TimeoutError)
                          && if a.retry.Armed? then b == told else Promises(told, b, RetryDelay(a, cfg, e.random))
  {
    hide Report, RetryDelay, ScheduleRetry, Promises;
    AllTold();
    var lost := a.(kaInFlight := false, kaFailed := true, error := TimeoutError);
    var again := lost.(state := Reconnecting, reconnecting := true);
    var over := lost.(state := RegFailed, reconnecting := false);
    ReportIs(again, Reconnecting, TimeoutError);
    ReportIs(over, RegFailed, TimeoutError);
    ScheduleIs(Report(again, Reconnecting, TimeoutError), cfg, e.random);
    ScheduleIs(Report(over, RegFailed, TimeoutError), cfg, e.random);
    RetryDelayFrame(a, Report(again, Reconnecting, TimeoutError), cfg, e.random);
  }

  // ---------------------------------------------------------------------
  // Giving up on purpose, and losing the path
  // ---------------------------------------------------------------------

  /** unregister() and cancel_retry; the former leaves a retry on its way. */
  lemma {:induction false} StopIs(a: Account, cfg: RegConfig, e: RegEnv)
    ensures AccountStep(a, cfg, AppUnregister, e) ==
            if !a.ua then a
            else a.(wanted := false, reconnecting := false, kaFailed := false, state := Unregistering,
                    watch := Stopped, ka := Stopped)
    ensures var rested := a.(retry := Stopped, watch := Stopped, attempt := 0);
            AccountStep(a, cfg, AppCancelRetry, e) ==
            if !a.state.Reconnecting? then rested
            else rested.(reconnecting := false, state := RegFailed,
                         posts := Then(a.posts, RegEvent(RegFailed, Signature(a.error, 0, 0), false)))
  {
  }

  /** A lost path is told for exactly the wanted accounts that are registered or on
    the way there; probing stops until the handover has re-registered them. */
  lemma {:induction false} LostPathIs(a: Account, cfg: RegConfig, e: RegEnv)
    requires Eligible(a)
    ensures var b := AccountAction(a, cfg, MarkReconnecting, e);
            if a.state.Registered? || a.state.Registering? then
              Told(a.(reconnecting := true, state := Reconnecting, ka := Stopped), b, Reconnecting, NoError)
            else b == a
  {
    hide Report;
    AllTold();
  }

  /** A handover that gives up hands exactly the accounts it left RECONNECTING to
    the retry policy. */
  lemma {:induction false} HandedBackIs(a: Account, cfg: RegConfig, e: RegEnv)
    requires Eligible(a)
    ensures var b := AccountAction(a, cfg, AccountsToRetry, e);
            if !a.state.Reconnecting? || a.retry.Armed? then b == a
            else if MayRetry(a) then Promises(a, b, RetryDelay(a, cfg, e.random))
            else Told(a.(reconnecting := false, state := RegFailed), b, RegFailed, a.error)
  {
    hide ScheduleRetry, RetryDelay, Promises;
    ScheduleIs(a, cfg, e.random);
  }

  /** A push token re-registers, unwatched, exactly outside transitional states and
    with no retry on its way. */
  lemma {:induction false} PushTokenIs(a: Account, cfg: RegConfig, e: RegEnv)
    ensures var b := AccountStep(a, cfg, AppPushToken, e);
            if !a.ua || a.retry.Armed? || a.state.Registering? || a.state.Unregistering? || a.state.Reconnecting? || !e.emits
            then b == a
            else if a.reconnecting then Told(a.(state := Reconnecting), b, Reconnecting, a.error)
            else b == a.(state := Registering,
                         posts := Then(a.posts, RegEvent(Registering, Signature(NoError, 0, 0), false)))
  {
    hide Report;
    AllTold();
  }

  /** What is left: an unregistration seen to start, a new policy, the end. */
  lemma {:induction false} OtherInputsAre(a: Account, cfg: RegConfig, p: RetryPolicy, e: RegEnv)
    ensures Told(a.(state := Unregistering, reconnecting := false), AccountStep(a, cfg, UnregisteringSeen, e),
                 Unregistering, NoError)
    ensures AccountStep(a, cfg, AppSetPolicy(p), e) == a.(policy := p)
    ensures AccountStep(a, cfg, AppDestroy, e) == a.(destroyed := true)
  {
    hide Report;
    AllTold();
  }
}
