/** Runs, from the first account on, in which registration recovery does not do
  what the app was told. */
module RegistrationRuns {
  import opened History
  import opened Handover
  import opened Registration
  import opened RegistrationProofs
  import opened RegistrationPosts

  const LOUD := RegEnv(true, false, 0)
  const QUIET := RegEnv(false, false, 0)

  function Loudly(i: nat): RegEnv { LOUD }
  function Quietly(i: nat): RegEnv { QUIET }

  /** One account and the monitor beside it. */
  predicate Alone(s: RegSystem, mon: Monitor, a: Account) {
    s == RegSystem(mon, [a])
  }

  lemma StepsAlone(s: RegSystem, cfg: RegConfig, net: Config, mon: Monitor, a: Account, input: AccountInput, e: RegEnv)
    requires Alone(s, mon, a)
    ensures Alone(RegStep(s, cfg, net, OnAccount(0, input, e)), mon, AccountStep(a, cfg, input, e))
  {
    hide AccountStep;
  }

  /** A handover step that owes one thing to the accounts. */
  lemma HandoverAlone(
    s: RegSystem, cfg: RegConfig, net: Config, mon: Monitor, a: Account, input: Input, act: Action, envs: nat -> RegEnv)
    requires Alone(s, mon, a) && Eligible(a)
    requires Step(mon, net, input).1 == [act] || Step(mon, net, input).1 == [act, MigrateCalls]
    ensures Alone(RegStep(s, cfg, net, OnNetwork(input, envs)), Step(mon, net, input).0,
                  AccountAction(a, cfg, act, envs(0)))
  {
    hide Step, AccountAction, OnSnapshot, Eligible;
    var after := AccountAction(a, cfg, act, envs(0));
    SnapshotAlone(a, cfg, act, envs);
    SnapshotAlone(after, cfg, MigrateCalls, envs);
    CallsAreNotAccounts(after, cfg, envs(0));
    assert OnActions([after], cfg, [], envs) == [after];
    assert [MigrateCalls][1..] == [];
    assert OnActions([after], cfg, [MigrateCalls], envs) == [after];
    assert [act][1..] == [] && [act, MigrateCalls][1..] == [MigrateCalls];
  }

  lemma CallsAreNotAccounts(a: Account, cfg: RegConfig, e: RegEnv)
    ensures AccountAction(a, cfg, MigrateCalls, e) == a
  {
  }

  lemma SnapshotAlone(a: Account, cfg: RegConfig, act: Action, envs: nat -> RegEnv)
    ensures OnSnapshot([a], 0, ACCT_SNAP_MAX, cfg, act, envs)
         == [if Eligible(a) then AccountAction(a, cfg, act, envs(0)) else a]
  {
    hide AccountAction;
    assert [a][1..] == [];
  }

  /** A first REGISTER that fails on the way: RECONNECTING, retry armed. */
  function FailedRegister(policy: RetryPolicy): Log<RegInput> {
    Then(Then(Then(Empty, AccountCreated(policy)), OnAccount(0, AppRegister, LOUD)),
         OnAccount(0, RegisterFail(TransportError), LOUD))
  }

  lemma RegisterFails(cfg: RegConfig, net: Config, policy: RetryPolicy) returns (a: Account)
    ensures Alone(RegRun(cfg, net, false, FailedRegister(policy)), Init(false), a)
    ensures Eligible(a) && a.state.Reconnecting? && a.retry.Armed? && a.reconnecting
    ensures a.error.TransportError? && a.ka.Stopped? && !a.kaInFlight
    ensures a.policy == policy && a.sig == Some(Signature(TransportError, 1, RetryDelay(NewAccount(policy), cfg, 0)))
  {
    hide RetryDelay;
    var created := NewAccount(policy);
    var inputs := FailedRegister(policy);
    assert Alone(RegRun(cfg, net, false, inputs.past.past), Init(false), created);
    StepsAlone(RegRun(cfg, net, false, inputs.past.past), cfg, net, Init(false), created, AppRegister, LOUD);
    var registering := Register(created, LOUD);
    StepsAlone(RegRun(cfg, net, false, inputs.past), cfg, net, Init(false), registering,
               RegisterFail(TransportError), LOUD);
    a := OnRegisterFail(registering, cfg, TransportError, 0);
    RetryDelayFrame(created, FailState(registering, TransportError).(ka := Stopped), cfg, 0);
  }

  /** A push token breaks a promise on a run of any deployment: the app cancels
    the retry, a handover re-registers without a REGISTERING, the watchdog stands
    down on the FAILED account, and the token's own REGISTER turns it
    RECONNECTING with every timer stopped. */
  lemma {:induction false} PushTokenLeavesPromiseUndriven(cfg: RegConfig, net: Config, policy: RetryPolicy)
      returns (inputs: Log<RegInput>)
    ensures var s := RegRun(cfg, net, false, inputs);
            && |s.accts| == 1 && s.mon.settle.Stopped?
            && Promised(s.accts[0]) && !SelfDriven(s.accts[0])
    ensures !Covered(RegRun(cfg, net, false, inputs))
  {
    hide Step, RegStep, AccountStep, AccountAction;
    ForcedHandover(net, 1);
    var a := RegisterFails(cfg, net, policy);
    var mon := Init(false);
    inputs := FailedRegister(policy);
    StepsAlone(RegRun(cfg, net, false, inputs), cfg, net, mon, a, AppCancelRetry, LOUD);
    inputs := Then(inputs, OnAccount(0, AppCancelRetry, LOUD));
    var b := AccountStep(a, cfg, AppCancelRetry, LOUD);
    Cancelled(a, cfg);
    HandoverAlone(RegRun(cfg, net, false, inputs), cfg, net, mon, b, Triggered(true, false, 1), MarkReconnecting, Quietly);
    inputs := Then(inputs, OnNetwork(Triggered(true, false, 1), Quietly));
    mon := Step(mon, net, Triggered(true, false, 1)).0;
    NotMarked(b, cfg);
    HandoverAlone(RegRun(cfg, net, false, inputs), cfg, net, mon, b, SettleTimer(false, Routable, true), Reregister, Quietly);
    inputs := Then(inputs, OnNetwork(SettleTimer(false, Routable, true), Quietly));
    mon := Step(mon, net, SettleTimer(false, Routable, true)).0;
    var c := AccountAction(b, cfg, Reregister, QUIET);
    StepsAlone(RegRun(cfg, net, false, inputs), cfg, net, mon, c, WatchTimer, QUIET);
    inputs := Then(inputs, OnAccount(0, WatchTimer, QUIET));
    var d := AccountStep(c, cfg, WatchTimer, QUIET);
    StepsAlone(RegRun(cfg, net, false, inputs), cfg, net, mon, d, AppPushToken, LOUD);
    inputs := Then(inputs, OnAccount(0, AppPushToken, LOUD));
    QuietRebindIsPushed(b, cfg);
  }

  /** Wanted, FAILED for a reason other than authentication, and nothing armed. */
  predicate Resting(a: Account) {
    Eligible(a) && a.state.RegFailed? && a.error.TransportError? && !SelfDriven(a)
  }

  lemma Cancelled(a: Account, cfg: RegConfig)
    requires Eligible(a) && a.state.Reconnecting? && a.error.TransportError? && a.ka.Stopped? && !a.kaInFlight
    ensures Resting(AccountStep(a, cfg, AppCancelRetry, LOUD))
  {
  }

  lemma NotMarked(a: Account, cfg: RegConfig)
    requires Resting(a)
    ensures AccountAction(a, cfg, MarkReconnecting, QUIET) == a
  {
  }

  lemma QuietRebindIsPushed(a: Account, cfg: RegConfig)
    requires Resting(a)
    ensures var watched := AccountAction(a, cfg, Reregister, QUIET);
            var stoodDown := AccountStep(watched, cfg, WatchTimer, QUIET);
            var pushed := AccountStep(stoodDown, cfg, AppPushToken, LOUD);
            Promised(pushed) && !SelfDriven(pushed)
  {
    hide Report;
    var watched := AccountAction(a, cfg, Reregister, QUIET);
    assert watched.watch.Armed? && watched.reconnecting && watched.state.RegFailed?;
    var stoodDown := AccountStep(watched, cfg, WatchTimer, QUIET);
    assert stoodDown.reconnecting && stoodDown.state.RegFailed? && !SelfDriven(stoodDown);
    UaRegisterShape(stoodDown, true);
  }

  /** A register() over a running recovery whose REGISTERING is not seen takes the
    flag away, and the retry then leaves RECONNECTING for REGISTERING. */
  lemma {:induction false} QuietRegisterEndsNoRecovery(cfg: RegConfig, net: Config, policy: RetryPolicy)
      returns (inputs: Log<RegInput>, retry: RegInput)
    ensures var s := RegRun(cfg, net, false, inputs);
            |s.accts| == 1 && s.accts[0].state.Reconnecting? && !Flagged(s.accts[0])
    ensures retry == OnAccount(0, RetryTimer, LOUD)
    ensures var s := RegRun(cfg, net, false, Then(inputs, retry));
            |s.accts| == 1 && s.accts[0].state.Registering?
  {
    hide RegStep;
    var a := RegisterFails(cfg, net, policy);
    var mon := Init(false);
    inputs := FailedRegister(policy);
    StepsAlone(RegRun(cfg, net, false, inputs), cfg, net, mon, a, AppRegister, QUIET);
    inputs := Then(inputs, OnAccount(0, AppRegister, QUIET));
    var b := AccountStep(a, cfg, AppRegister, QUIET);
    assert b.state.Reconnecting? && !b.reconnecting && b.retry.Armed?;
    StepsAlone(RegRun(cfg, net, false, inputs), cfg, net, mon, b, RetryTimer, LOUD);
    retry := OnAccount(0, RetryTimer, LOUD);
  }

  /** Registered, and then the path is lost: RECONNECTING was told for it. */
  lemma PathIsLost(cfg: RegConfig, net: Config, policy: RetryPolicy) returns (inputs: Log<RegInput>, a: Account)
    ensures Alone(RegRun(cfg, net, false, inputs), Step(Init(false), net, Triggered(true, false, 1)).0, a)
    ensures Eligible(a) && a.state.Reconnecting? && a.delay == 0 && a.sig == Some(Signature(NoError, 0, 0))
  {
    hide Step;
    ForcedHandover(net, 1);
    var mon := Init(false);
    var created := NewAccount(policy);
    inputs := Then(Empty, AccountCreated(policy));
    assert Alone(RegRun(cfg, net, false, inputs), mon, created);
    StepsAlone(RegRun(cfg, net, false, inputs), cfg, net, mon, created, AppRegister, LOUD);
    inputs := Then(inputs, OnAccount(0, AppRegister, LOUD));
    var registering := Register(created, LOUD);
    StepsAlone(RegRun(cfg, net, false, inputs), cfg, net, mon, registering, RegisterOk, LOUD);
    inputs := Then(inputs, OnAccount(0, RegisterOk, LOUD));
    var registered := OnRegisterOk(registering, cfg);
    HandoverAlone(RegRun(cfg, net, false, inputs), cfg, net, mon, registered, Triggered(true, false, 1),
                  MarkReconnecting, Loudly);
    inputs := Then(inputs, OnNetwork(Triggered(true, false, 1), Loudly));
    a := MarkLost(registered);
  }

  /** The app was last told REGISTERING while the account is RECONNECTING. */
  predicate Misled(s: RegSystem) {
    && |s.accts| == 1 && s.accts[0].state.Reconnecting? && s.accts[0].posts.Then?
    && s.accts[0].posts.last == RegEvent(Registering, Signature(NoError, 0, 0), false)
  }

  /** cancel_retry, then register(), on the one account there is. */
  lemma CancelAndRegister(cfg: RegConfig, net: Config, past: Log<RegInput>, mon: Monitor, a: Account)
      returns (inputs: Log<RegInput>)
    requires Alone(RegRun(cfg, net, false, past), mon, a)
    ensures Alone(RegRun(cfg, net, false, inputs), mon, Again(a, LOUD))
  {
    hide RegStep, Register, CancelRetry;
    StepsAlone(RegRun(cfg, net, false, past), cfg, net, mon, a, AppCancelRetry, LOUD);
    inputs := Then(past, OnAccount(0, AppCancelRetry, LOUD));
    StepsAlone(RegRun(cfg, net, false, inputs), cfg, net, mon, CancelRetry(a), AppRegister, LOUD);
    inputs := Then(inputs, OnAccount(0, AppRegister, LOUD));
  }

  /** A run in which a lost path is swallowed after cancel_retry. */
  lemma {:induction false} CancelSwallowsLostPath(cfg: RegConfig, net: Config, policy: RetryPolicy)
      returns (inputs: Log<RegInput>)
    ensures Misled(RegRun(cfg, net, false, inputs))
  {
    hide Step, RegStep, MarkLost, Again, OnRegisterFail, ProbeLost;
    ForcedHandover(net, 1);
    var mon := Step(Init(false), net, Triggered(true, false, 1)).0;
    var a;
    inputs, a := PathIsLost(cfg, net, policy);
    inputs := CancelAndRegister(cfg, net, inputs, mon, a);
    AgainShape(a, LOUD);
    CancelSwallowsExactly(a, cfg, LOUD, TransportError, 0);
    HandoverAlone(RegRun(cfg, net, false, inputs), cfg, net, mon, Again(a, LOUD), SettleTimer(false, NoAddress, true),
                  MarkReconnecting, Loudly);
    inputs := Then(inputs, OnNetwork(SettleTimer(false, NoAddress, true), Loudly));
  }

  /** A run in which a REGISTER that fails the same way again is swallowed: no
    handover is needed. */
  lemma {:induction false} CancelSwallowsFailure(cfg: RegConfig, net: Config, policy: RetryPolicy)
      returns (inputs: Log<RegInput>)
    ensures Misled(RegRun(cfg, net, false, inputs))
  {
    hide RegStep, MarkLost, Again, OnRegisterFail, ProbeLost, RetryDelay;
    var a := RegisterFails(cfg, net, policy);
    inputs := CancelAndRegister(cfg, net, FailedRegister(policy), Init(false), a);
    AgainShape(a, LOUD);
    RetryDelayFrame(NewAccount(policy), a.(attempt := 0), cfg, 0);
    CancelSwallowsExactly(a, cfg, LOUD, TransportError, 0);
    StepsAlone(RegRun(cfg, net, false, inputs), cfg, net, Init(false), Again(a, LOUD), RegisterFail(TransportError), LOUD);
    inputs := Then(inputs, OnAccount(0, RegisterFail(TransportError), LOUD));
  }

  /** The same without cancel_retry: register() takes the recovery flag, retry_now
    starts the count again, and the failure that follows is swallowed. */
  lemma {:induction false} RetryNowSwallowsFailure(cfg: RegConfig, net: Config, policy: RetryPolicy)
      returns (inputs: Log<RegInput>)
    ensures Misled(RegRun(cfg, net, false, inputs))
  {
    hide RegStep, RetryDelay, OnRegisterFail;
    var a := RegisterFails(cfg, net, policy);
    var mon := Init(false);
    inputs := FailedRegister(policy);
    StepsAlone(RegRun(cfg, net, false, inputs), cfg, net, mon, a, AppRegister, LOUD);
    inputs := Then(inputs, OnAccount(0, AppRegister, LOUD));
    var b := Register(a, LOUD);
    StepsAlone(RegRun(cfg, net, false, inputs), cfg, net, mon, b, AppRetryNow, LOUD);
    inputs := Then(inputs, OnAccount(0, AppRetryNow, LOUD));
    var c := RetryNow(b, LOUD);
    assert Retriable(c, TransportError) && c.sig == a.sig && c.attempt == 0 && c.policy == policy;
    assert c.posts.Then? && c.posts.last == RegEvent(Registering, Signature(NoError, 0, 0), false);
    StepsAlone(RegRun(cfg, net, false, inputs), cfg, net, mon, c, RegisterFail(TransportError), LOUD);
    inputs := Then(inputs, OnAccount(0, RegisterFail(TransportError), LOUD));
    RetryDelayFrame(NewAccount(policy), c, cfg, 0);
    FailurePosts(c, cfg, TransportError, 0);
  }

  // ---------------------------------------------------------------------
  // One account too many
  // ---------------------------------------------------------------------

  /** An account that is registered, its watchdog at rest. */
  function Settled(cfg: RegConfig, policy: RetryPolicy): Account {
    WatchFires(OnRegisterOk(Register(NewAccount(policy), LOUD), cfg), cfg, LOUD)
  }

  lemma SettledShape(cfg: RegConfig, policy: RetryPolicy)
    ensures var a := Settled(cfg, policy);
            Eligible(a) && a.state.Registered? && a.retry.Stopped? && a.watch.Stopped? && !a.kaInFlight
    ensures !Eligible(NewAccount(policy)) && Eligible(Register(NewAccount(policy), LOUD))
  {
  }

  /** The first account only created, the next `k` settled, the rest created. */
  function Crowd(cfg: RegConfig, policy: RetryPolicy, n: nat, k: nat): seq<Account> {
    seq(n, i => if 1 <= i <= k then Settled(cfg, policy) else NewAccount(policy))
  }

  lemma {:induction false} CrowdIsCreated(cfg: RegConfig, net: Config, policy: RetryPolicy, n: nat) returns (inputs: Log<RegInput>)
    ensures RegRun(cfg, net, false, inputs) == RegSystem(Init(false), Crowd(cfg, policy, n, 0))
  {
    hide Settled;
    if n == 0 {
      inputs := Empty;
      assert Crowd(cfg, policy, 0, 0) == [];
    } else {
      var past := CrowdIsCreated(cfg, net, policy, n - 1);
      inputs := Then(past, AccountCreated(policy));
      assert Crowd(cfg, policy, n, 0) == Crowd(cfg, policy, n - 1, 0) + [NewAccount(policy)];
    }
  }

  lemma {:induction false} CrowdIsSettled(cfg: RegConfig, net: Config, policy: RetryPolicy, n: nat, k: nat)
      returns (inputs: Log<RegInput>)
    requires k < n
    ensures RegRun(cfg, net, false, inputs) == RegSystem(Init(false), Crowd(cfg, policy, n, k))
    decreases k
  {
    hide AccountStep;
    if k == 0 {
      inputs := CrowdIsCreated(cfg, net, policy, n);
    } else {
      var past := CrowdIsSettled(cfg, net, policy, n, k - 1);
      var crowd := Crowd(cfg, policy, n, k - 1);
      assert crowd[k] == NewAccount(policy);
      inputs := SettlesAt(cfg, net, policy, past, crowd, k);
      CrowdGrows(cfg, policy, n, k);
    }
  }

  lemma CrowdGrows(cfg: RegConfig, policy: RetryPolicy, n: nat, k: nat)
    requires 0 < k < n
    ensures Crowd(cfg, policy, n, k) == Crowd(cfg, policy, n, k - 1)[k := Settled(cfg, policy)]
  {
    hide Settled;
  }

  lemma SettlesAt(cfg: RegConfig, net: Config, policy: RetryPolicy, past: Log<RegInput>, crowd: seq<Account>, k: nat)
      returns (inputs: Log<RegInput>)
    requires RegRun(cfg, net, false, past) == RegSystem(Init(false), crowd)
    requires k < |crowd| && crowd[k] == NewAccount(policy)
    ensures RegRun(cfg, net, false, inputs) == RegSystem(Init(false), crowd[k := Settled(cfg, policy)])
  {
    hide AccountStep, Settled;
    OneSettles(cfg, policy);
    var a := AccountStep(crowd[k], cfg, AppRegister, LOUD);
    inputs := Then(past, OnAccount(k, AppRegister, LOUD));
    assert RegRun(cfg, net, false, inputs) == RegSystem(Init(false), crowd[k := a]);
    var b := AccountStep(a, cfg, RegisterOk, LOUD);
    inputs := Then(inputs, OnAccount(k, RegisterOk, LOUD));
    assert crowd[k := a][k := b] == crowd[k := b];
    assert RegRun(cfg, net, false, inputs) == RegSystem(Init(false), crowd[k := b]);
    inputs := Then(inputs, OnAccount(k, WatchTimer, LOUD));
    assert crowd[k := b][k := Settled(cfg, policy)] == crowd[k := Settled(cfg, policy)];
  }

  lemma OneSettles(cfg: RegConfig, policy: RetryPolicy)
    ensures AccountStep(AccountStep(AccountStep(NewAccount(policy), cfg, AppRegister, LOUD), cfg, RegisterOk, LOUD),
                        cfg, WatchTimer, LOUD)
         == Settled(cfg, policy)
  {
  }

  lemma {:induction false} CrowdCounts(accts: seq<Account>, eligible: bool)
    requires forall i :: 0 <= i < |accts| ==> Eligible(accts[i]) == (i > 0 || eligible)
    ensures accts != [] ==> EligibleCount(accts) == |accts| - if eligible then 0 else 1
  {
    hide Eligible;
    if accts != [] { CrowdCounts(accts[1..], true); }
  }

  lemma MarkingIsOne(a: Account, cfg: RegConfig, e: RegEnv)
    ensures ActAll(a, cfg, [MarkReconnecting], e) == MarkLost(a)
    ensures Eligible(MarkLost(a)) == Eligible(a)
    ensures Eligible(a) && a.state.Registered? && a.retry.Stopped? && a.watch.Stopped? && !a.kaInFlight ==>
              Promised(MarkLost(a)) && !SelfDriven(MarkLost(a))
  {
    hide Report;
    assert [MarkReconnecting][1..] == [];
    ReportShape(a.(reconnecting := true, state := Reconnecting, ka := Stopped), Reconnecting, NoError);
  }

  /** The announcement marks the last of the crowd, and changes nobody's standing. */
  lemma CrowdIsMarked(cfg: RegConfig, policy: RetryPolicy, marked: seq<Account>)
    requires marked == OnActions(Crowd(cfg, policy, 65, 64), cfg, [MarkReconnecting], Loudly)
    ensures marked[64] == MarkLost(Settled(cfg, policy))
    ensures forall i :: 0 <= i < 65 ==> Eligible(marked[i]) == (i > 0)
  {
    hide OnActions, Settled, ActAll, EligibleCount, Eligible, MarkLost;
    var crowd := Crowd(cfg, policy, 65, 64);
    SettledShape(cfg, policy);
    forall i | 0 <= i < 65 ensures Eligible(marked[i]) == (i > 0) {
      ActionsAre(crowd, cfg, [MarkReconnecting], Loudly, i);
      MarkingIsOne(crowd[i], cfg, Loudly(i));
    }
    CrowdCounts(crowd[..64], false);
    ActionsAre(crowd, cfg, [MarkReconnecting], Loudly, 64);
    MarkingIsOne(crowd[64], cfg, Loudly(64));
  }

  /** Once the first account is wanted too, the last is out of reach. */
  lemma LastIsOutOfReach(late: seq<Account>, cfg: RegConfig, acts: seq<Action>)
    requires |late| == 65 && forall i :: 0 <= i < 65 ==> Eligible(late[i])
    ensures OnActions(late, cfg, acts, Loudly)[64] == late[64]
  {
    hide OnActions, Eligible, ActAll, EligibleCount;
    CrowdCounts(late[..64], true);
    ActionsAre(late, cfg, acts, Loudly, 64);
  }

  /** A handover leaves a promise undriven on a run with 65 accounts: the last one
    is told RECONNECTING while 64 are registered, the app then registers one that
    comes before it, and the re-REGISTER no longer gets that far. */
  lemma {:induction false} HandoverForgetsOneTooMany(cfg: RegConfig, net: Config, policy: RetryPolicy)
      returns (inputs: Log<RegInput>)
    ensures var s := RegRun(cfg, net, false, inputs);
            && |s.accts| == 65 && s.mon.settle.Stopped?
            && Promised(s.accts[64]) && !SelfDriven(s.accts[64])
    ensures !Covered(RegRun(cfg, net, false, inputs))
  {
    hide Step, OnActions, Settled, Crowd, Register, MarkLost;
    ForcedHandover(net, 1);
    SettledShape(cfg, policy);
    var settled := CrowdIsSettled(cfg, net, policy, 65, 64);
    var announced := Then(settled, OnNetwork(Triggered(true, false, 1), Loudly));
    var marked := RegRun(cfg, net, false, announced).accts;
    CrowdIsMarked(cfg, policy, marked);
    FirstIsUntouched(cfg, policy);
    MarkingIsOne(Settled(cfg, policy), cfg, LOUD);
    var wanted := Then(announced, OnAccount(0, AppRegister, LOUD));
    var late := RegRun(cfg, net, false, wanted).accts;
    assert late == marked[0 := Register(NewAccount(policy), LOUD)];
    inputs := Then(wanted, OnNetwork(SettleTimer(false, Routable, true), Loudly));
    LastIsOutOfReach(late, cfg, Step(RegRun(cfg, net, false, wanted).mon, net, SettleTimer(false, Routable, true)).1);
  }

  /** The first account, not yet wanted, is not marked. */
  lemma FirstIsUntouched(cfg: RegConfig, policy: RetryPolicy)
    ensures |Crowd(cfg, policy, 65, 64)| == 65
    ensures OnActions(Crowd(cfg, policy, 65, 64), cfg, [MarkReconnecting], Loudly)[0] == NewAccount(policy)
  {
    hide OnActions, Settled, ActAll;
    SettledShape(cfg, policy);
    ActionsAre(Crowd(cfg, policy, 65, 64), cfg, [MarkReconnecting], Loudly, 0);
  }
}
