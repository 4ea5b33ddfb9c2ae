/** A RECONNECTING promise always has a driver, and the app hears about every
  change of it exactly once: theorems about the registration machine. */
module RegistrationProofs {
  import opened History
  import opened Handover
  import opened Registration

  // ---------------------------------------------------------------------
  // The three per-account invariants
  // ---------------------------------------------------------------------

  /** Something will act on this account without the app's help. */
  predicate SelfDriven(a: Account) {
    a.retry.Armed? || a.watch.Armed? || a.ka.Armed? || a.kaInFlight
  }

  /** The app was promised a recovery. */
  predicate Promised(a: Account) {
    Eligible(a) && a.state.Reconnecting?
  }

  predicate Kept(a: Account) {
    Promised(a) ==> SelfDriven(a)
  }

  /** What the app was last told while reconnecting: the last prepared
    RECONNECTING event since the last prepared event of another state. */
  function LastTold(posts: Log<RegEvent>): Option<Signature> {
    match posts
    case Empty => None
    case Then(past, ev) =>
      if !ev.prepared then LastTold(past)
      else if ev.state.Reconnecting? then Some(ev.sig)
      else None
  }

  predicate Remembers(a: Account) {
    a.sig == LastTold(a.posts)
  }

  /** The account reports its recovery under the recovery flag. */
  predicate Flagged(a: Account) {
    a.state.Reconnecting? ==> a.reconnecting
  }

  // ---------------------------------------------------------------------
  // What the shared building blocks do
  // ---------------------------------------------------------------------

  /** A report touches the signature, the countdown and the queue only. */
  predicate Reports(a: Account, b: Account) {
    && b == a.(sig := b.sig, delay := b.delay, posts := b.posts)
    && (Remembers(a) ==> Remembers(b))
  }

  /** Scheduling a retry arms it, finds it armed, or ends the recovery. */
  predicate Schedules(a: Account, b: Account) {
    && b == a.(reconnecting := b.reconnecting, state := b.state, attempt := b.attempt,
               sig := b.sig, delay := b.delay, posts := b.posts, retry := b.retry)
    && (b.state.Reconnecting? ==> b.retry.Armed?)
    && (a.state.Reconnecting? || a.state.RegFailed? ==> b.state.Reconnecting? || b.state.RegFailed?)
    && (Remembers(a) ==> Remembers(b))
    && (Flagged(a) ==> Flagged(b))
  }

  /** ua_register moves the state to the one the recovery flag asks for. */
  predicate Announces(a: Account, b: Account, emits: bool) {
    && b == a.(state := b.state, sig := b.sig, delay := b.delay, posts := b.posts)
    && (b.state == if !emits then a.state else if a.reconnecting then Reconnecting else Registering)
    && (Remembers(a) ==> Remembers(b))
  }

  lemma PrepareShape(a: Account, st: RegState, err: RegError)
    ensures var (b, post) := Prepare(a, st, err);
            && b == a.(sig := b.sig, delay := b.delay)
            && (if !post then b == a
                else b.sig == if st.Reconnecting? then Some(SigOf(b, err)) else None)
  {
  }

  lemma ReportShape(a: Account, st: RegState, err: RegError)
    ensures Reports(a, Report(a, st, err))
  {
    PrepareShape(a, st, err);
    hide Prepare;
  }

  lemma AllReports()
    ensures forall a, st, err {:trigger Report(a, st, err)} :: Reports(a, Report(a, st, err))
  {
    forall a, st, err ensures Reports(a, Report(a, st, err)) { ReportShape(a, st, err); }
  }

  lemma EndShape(a: Account)
    ensures Reports(a.(reconnecting := false, state := RecoveryEnds(a).state), RecoveryEnds(a))
    ensures RecoveryEnds(a).state == if a.state.Reconnecting? then RegFailed else a.state
  {
    hide Report;
    AllReports();
  }

  lemma ScheduleShape(a: Account, cfg: RegConfig, random: nat)
    ensures Schedules(a, ScheduleRetry(a, cfg, random))
  {
    hide Schedules, RecoveryEnds, Report, RetryDelay, BudgetLeft;
    if a.retry.Armed? {
      SchedulesNothing(a);
    } else if BudgetLeft(a) {
      ScheduleArms(a, a.error, RetryDelay(a, cfg, random));
    } else {
      ScheduleEnds(a);
    }
  }

  lemma SchedulesNothing(a: Account)
    requires a.retry.Armed?
    ensures Schedules(a, a)
  {
  }

  lemma ScheduleEnds(a: Account)
    requires !a.retry.Armed?
    ensures Schedules(a, RecoveryEnds(a))
  {
    hide RecoveryEnds;
    EndShape(a);
  }

  lemma ScheduleArms(a: Account, error: RegError, d: nat)
    ensures var c := a.(attempt := a.attempt + 1, delay := d, reconnecting := true, state := Reconnecting);
            Schedules(a, Report(c, Reconnecting, error).(retry := Armed(d)))
  {
    hide Report;
    ReportShape(a.(attempt := a.attempt + 1, delay := d, reconnecting := true, state := Reconnecting), Reconnecting, error);
  }

  lemma AllSchedules()
    ensures forall a, cfg, random {:trigger ScheduleRetry(a, cfg, random)} :: Schedules(a, ScheduleRetry(a, cfg, random))
  {
    forall a, cfg, random ensures Schedules(a, ScheduleRetry(a, cfg, random)) { ScheduleShape(a, cfg, random); }
  }

  lemma UaRegisterShape(a: Account, emits: bool)
    ensures Announces(a, UaRegister(a, emits), emits)
  {
    hide Report;
    AllReports();
  }

  lemma AllAnnounce()
    ensures forall a, emits {:trigger UaRegister(a, emits)} :: Announces(a, UaRegister(a, emits), emits)
  {
    forall a, emits ensures Announces(a, UaRegister(a, emits), emits) { UaRegisterShape(a, emits); }
  }

  // ---------------------------------------------------------------------
  // A promise is never left undriven
  // ---------------------------------------------------------------------

  /** The deployment the promise is made for: probing on, a server to probe. */
  predicate Probing(cfg: RegConfig) {
    cfg.keepaliveMs > 0 && cfg.hostSet
  }

  /** A push token re-registers without arming the watchdog. That leaves a
    promise undriven exactly when the account is flagged as recovering, is not
    in a transitional state, and nothing else drives it. */
  predicate PushBreaks(a: Account, input: AccountInput, e: RegEnv) {
    && input.AppPushToken?
    && Eligible(a) && !SelfDriven(a)
    && a.reconnecting && e.emits
    && !(a.state.Registering? || a.state.Unregistering? || a.state.Reconnecting?)
  }

  /** Every handler of one account keeps the promise, with that one exception. */
  lemma {:induction false} AccountStepKeepsExactly(a: Account, cfg: RegConfig, input: AccountInput, e: RegEnv)
    requires Probing(cfg) && Kept(a)
    ensures Kept(AccountStep(a, cfg, input, e)) <==> !PushBreaks(a, input, e)
  {
    if input.AppPushToken? {
      PushTokenExactly(a, e);
    } else {
      OtherStepKeeps(a, cfg, input, e);
    }
  }

  lemma OtherStepKeeps(a: Account, cfg: RegConfig, input: AccountInput, e: RegEnv)
    requires Probing(cfg) && Kept(a) && !input.AppPushToken?
    ensures Kept(AccountStep(a, cfg, input, e))
  {
    hide Report, ScheduleRetry, UaRegister, Remembers, Flagged;
    AllReports();
    AllSchedules();
    AllAnnounce();
  }

  /** A handover that lets go of its accounts leaves each one driven. */
  lemma ActionKeeps(a: Account, cfg: RegConfig, act: Action, e: RegEnv)
    requires Eligible(a)
    ensures Eligible(AccountAction(a, cfg, act, e))
    ensures act.AccountsToRetry? || act.Reregister? ==> Kept(AccountAction(a, cfg, act, e))
    ensures Kept(a) && !act.MarkReconnecting? ==> Kept(AccountAction(a, cfg, act, e))
  {
    hide Report, ScheduleRetry, UaRegister, Remembers, Flagged;
    AllReports();
    AllSchedules();
    AllAnnounce();
  }

  function EligibleCount(accts: seq<Account>): nat {
    if accts == [] then 0 else (if Eligible(accts[0]) then 1 else 0) + EligibleCount(accts[1..])
  }

  /** Account `i` is among the first `room` eligible ones. */
  predicate Within(accts: seq<Account>, room: nat, i: nat)
    requires i < |accts|
  {
    Eligible(accts[i]) && EligibleCount(accts[..i]) < room
  }

  /** A handover's walks get to account `i`. */
  predicate Reached(accts: seq<Account>, i: nat)
    requires i < |accts|
  {
    Within(accts, ACCT_SNAP_MAX, i)
  }

  /** The snapshot acts on the first eligible accounts and on nobody else. */
  lemma {:induction false} SnapshotIs(
    accts: seq<Account>, from: nat, room: nat, cfg: RegConfig, act: Action, envs: nat -> RegEnv, i: nat)
    requires i < |accts|
    ensures OnSnapshot(accts, from, room, cfg, act, envs)[i]
         == if Within(accts, room, i) then AccountAction(accts[i], cfg, act, envs(from + i)) else accts[i]
  {
    hide AccountAction, Eligible;
    if i > 0 {
      assert accts[..i][1..] == accts[1..][..i - 1];
      var room' := if Eligible(accts[0]) && room > 0 then room - 1 else room;
      SnapshotIs(accts[1..], from + 1, room', cfg, act, envs, i - 1);
    } else {
      assert accts[..0] == [];
    }
  }

  lemma {:induction false} SameEligible(a: seq<Account>, b: seq<Account>)
    requires |a| == |b| && forall i :: 0 <= i < |a| ==> Eligible(a[i]) == Eligible(b[i])
    ensures EligibleCount(a) == EligibleCount(b)
  {
    hide Eligible;
    if a != [] { SameEligible(a[1..], b[1..]); }
  }

  /** All of a step's actions on one account. */
  function ActAll(a: Account, cfg: RegConfig, acts: seq<Action>, e: RegEnv): Account
    decreases |acts|
  {
    if acts == [] then a else ActAll(AccountAction(a, cfg, acts[0], e), cfg, acts[1..], e)
  }

  /** A handover step is its actions on each account it reaches. */
  lemma {:induction false} ActionsAre(
    accts: seq<Account>, cfg: RegConfig, acts: seq<Action>, envs: nat -> RegEnv, i: nat)
    requires i < |accts|
    ensures OnActions(accts, cfg, acts, envs)[i]
         == if Reached(accts, i) then ActAll(accts[i], cfg, acts, envs(i)) else accts[i]
    decreases |acts|
  {
    hide AccountAction, OnSnapshot, Eligible;
    if acts != [] {
      var r := OnSnapshot(accts, 0, ACCT_SNAP_MAX, cfg, acts[0], envs);
      forall k | 0 <= k < |accts|
        ensures r[k] == (if Reached(accts, k) then AccountAction(accts[k], cfg, acts[0], envs(k)) else accts[k])
        ensures Eligible(r[k]) == Eligible(accts[k])
      {
        SnapshotIs(accts, 0, ACCT_SNAP_MAX, cfg, acts[0], envs, k);
        if Eligible(accts[k]) { ActionKeeps(accts[k], cfg, acts[0], envs(k)); }
      }
      SameEligible(r[..i], accts[..i]);
      ActionsAre(r, cfg, acts[1..], envs, i);
    }
  }

  predicate AllKept(accts: seq<Account>) {
    forall i :: 0 <= i < |accts| ==> Kept(accts[i])
  }

  /** Actions that end by letting go: the last word on accounts is a retry or a
    re-REGISTER. */
  predicate LetsGo(acts: seq<Action>) {
    exists k :: 0 <= k < |acts| && (acts[k].AccountsToRetry? || acts[k].Reregister?)
             && forall j :: k <= j < |acts| ==> !acts[j].MarkReconnecting?
  }

  lemma {:induction false} ActAllKeeps(a: Account, cfg: RegConfig, acts: seq<Action>, e: RegEnv)
    requires Eligible(a)
    requires LetsGo(acts) || (Kept(a) && forall j :: 0 <= j < |acts| ==> !acts[j].MarkReconnecting?)
    ensures Kept(ActAll(a, cfg, acts, e))
    decreases |acts|
  {
    hide AccountAction, Kept, Eligible;
    if acts != [] {
      ActionKeeps(a, cfg, acts[0], e);
      var rest := acts[1..];
      if LetsGo(acts) {
        var k :| 0 <= k < |acts| && (acts[k].AccountsToRetry? || acts[k].Reregister?)
              && forall j :: k <= j < |acts| ==> !acts[j].MarkReconnecting?;
        if k > 0 {
          assert rest[k - 1] == acts[k];
          assert LetsGo(rest);
        }
      }
      ActAllKeeps(AccountAction(a, cfg, acts[0], e), cfg, rest, e);
    }
  }

  /** The settle timer stops only in a step that lets go of every account. */
  lemma SettleLetsGo(m: Monitor, net: Config, down: bool, i: Input)
    requires ValidConfig(net) && Good(m, net, down)
    requires !Step(m, net, i).0.settle.Armed?
    ensures LetsGo(Step(m, net, i).1) || (!m.settle.Armed? && Step(m, net, i).1 == [])
  {
    var acts := Step(m, net, i).1;
    if i.SettleTimer? && m.settle.Armed? {
      assert |acts| >= 1;
      if acts[0].MarkReconnecting? { assert acts[1].AccountsToRetry? || acts[1].Reregister?; }
    }
  }

  /** The whole system: an undriven account is at least covered by a handover in
    progress. */
  predicate Covered(s: RegSystem) {
    s.mon.settle.Armed? || AllKept(s.accts)
  }

  /** The step breaks a promise: a push token of that kind with no handover in
    progress to cover for it, or a handover that lets go while it has not driven
    some account beyond the walks' reach. */
  predicate Breaks(s: RegSystem, net: Config, input: RegInput) {
    match input
    case AccountCreated(_) => false
    case OnAccount(i, ai, e) => !s.mon.settle.Armed? && i < |s.accts| && PushBreaks(s.accts[i], ai, e)
    case OnNetwork(ni, _) =>
      !Step(s.mon, net, ni).0.settle.Armed? && exists i :: 0 <= i < |s.accts| && !Reached(s.accts, i) && !Kept(s.accts[i])
  }

  /** With at most as many eligible accounts as a snapshot holds, however many
    others there are or were, every one of them is reached, so no handover step
    breaks a promise. */
  lemma {:induction false} FewAreReached(s: RegSystem, net: Config, ni: Input, envs: nat -> RegEnv)
    requires EligibleCount(s.accts) <= ACCT_SNAP_MAX
    ensures !Breaks(s, net, OnNetwork(ni, envs))
  {
    hide Step;
    forall i | 0 <= i < |s.accts| && !Reached(s.accts, i) ensures Kept(s.accts[i]) {
      if Eligible(s.accts[i]) { CountsItself(s.accts, i); }
    }
  }

  lemma {:induction false} CountsItself(accts: seq<Account>, i: nat)
    requires i < |accts|
    ensures EligibleCount(accts) >= EligibleCount(accts[..i]) + if Eligible(accts[i]) then 1 else 0
  {
    hide Eligible;
    if i > 0 {
      CountsItself(accts[1..], i - 1);
      assert accts[..i][1..] == accts[1..][..i - 1];
    } else {
      assert accts[..0] == [];
    }
  }

  /** No step of the run breaks a promise. */
  predicate Unbroken(cfg: RegConfig, net: Config, down: bool, inputs: Log<RegInput>) {
    inputs.Then? ==>
      && Unbroken(cfg, net, down, inputs.past)
      && !Breaks(RegRun(cfg, net, down, inputs.past), net, inputs.last)
  }

  /** At no time more eligible accounts than a snapshot holds, and no push token
    of that kind. */
  predicate FewAndPushedSafely(cfg: RegConfig, net: Config, down: bool, inputs: Log<RegInput>) {
    inputs.Then? ==>
      && FewAndPushedSafely(cfg, net, down, inputs.past)
      && (var s := RegRun(cfg, net, down, inputs.past);
          && EligibleCount(s.accts) <= ACCT_SNAP_MAX
          && (inputs.last.OnAccount? ==> !Breaks(s, net, inputs.last)))
  }

  lemma {:induction false} FewIsUnbroken(cfg: RegConfig, net: Config, down: bool, inputs: Log<RegInput>)
    requires FewAndPushedSafely(cfg, net, down, inputs)
    ensures Unbroken(cfg, net, down, inputs)
  {
    hide Breaks, RegStep;
    if inputs.Then? {
      FewIsUnbroken(cfg, net, down, inputs.past);
      var s := RegRun(cfg, net, down, inputs.past);
      match inputs.last
      case AccountCreated(policy) => CreatingBreaksNothing(s, net, policy);
      case OnAccount(_, _, _) =>
      case OnNetwork(ni, envs) => FewAreReached(s, net, ni, envs);
    }
  }

  lemma CreatingBreaksNothing(s: RegSystem, net: Config, policy: RetryPolicy)
    ensures !Breaks(s, net, AccountCreated(policy))
  {
  }

  /** One step of the system, with any number of accounts, keeps every promise if
    and only if it is not of those two kinds. */
  lemma {:induction false} CoveredExactly(s: RegSystem, cfg: RegConfig, net: Config, down: bool, input: RegInput)
    requires Probing(cfg) && ValidConfig(net) && Good(s.mon, net, down) && Covered(s)
    ensures Covered(RegStep(s, cfg, net, input)) <==> !Breaks(s, net, input)
  {
    hide Step, Good, OnActions, AccountStep, PushBreaks, Kept, Reached;
    match input
    case AccountCreated(policy) => NewIsKept(policy);
    case OnAccount(i, ai, e) =>
      if i < |s.accts| && !s.mon.settle.Armed? {
        AccountStepKeepsExactly(s.accts[i], cfg, ai, e);
        assert RegStep(s, cfg, net, input).accts[i] == AccountStep(s.accts[i], cfg, ai, e);
      }
    case OnNetwork(ni, envs) => HandoverCoversExactly(s, cfg, net, down, ni, envs);
  }

  lemma HandoverCoversExactly(
    s: RegSystem, cfg: RegConfig, net: Config, down: bool, ni: Input, envs: nat -> RegEnv)
    requires ValidConfig(net) && Good(s.mon, net, down) && Covered(s)
    ensures Covered(RegStep(s, cfg, net, OnNetwork(ni, envs))) <==> !Breaks(s, net, OnNetwork(ni, envs))
  {
    hide Step, Good, OnActions, Kept, Within, ActAll;
    var (mon, owed) := Step(s.mon, net, ni);
    if !mon.settle.Armed? {
      SettleLetsGo(s.mon, net, down, ni);
      var after := OnActions(s.accts, cfg, owed, envs);
      forall i | 0 <= i < |s.accts| ensures Kept(after[i]) <==> Reached(s.accts, i) || Kept(s.accts[i]) {
        ActionsAre(s.accts, cfg, owed, envs, i);
        if Reached(s.accts, i) {
          ReachedIsEligible(s.accts, i);
          ActAllKeeps(s.accts[i], cfg, owed, envs(i));
        }
      }
    }
  }

  lemma ReachedIsEligible(accts: seq<Account>, i: nat)
    requires i < |accts| && Reached(accts, i)
    ensures Eligible(accts[i])
  {
  }

  lemma NewIsKept(policy: RetryPolicy)
    ensures Kept(NewAccount(policy))
  {
  }

  /** Over every run, a live account that the app wants registered and that it
    was told is RECONNECTING has its retry timer, watchdog or keepalive timer
    armed, a probe in flight, or the handover's settle timer armed. */
  lemma {:induction false} PromiseNeverUndriven(cfg: RegConfig, net: Config, down: bool, inputs: Log<RegInput>)
    requires Probing(cfg) && ValidConfig(net) && Unbroken(cfg, net, down, inputs)
    ensures Covered(RegRun(cfg, net, down, inputs))
    ensures Good(RegRun(cfg, net, down, inputs).mon, net, down)
  {
    hide Step, OnActions, AccountStep, Breaks, Covered;
    match inputs
    case Empty => StartsCovered(down);
    case Then(past, input) =>
      PromiseNeverUndriven(cfg, net, down, past);
      var s := RegRun(cfg, net, down, past);
      if input.OnNetwork? { StepKeepsGood(s.mon, net, down, input.net); }
      CoveredExactly(s, cfg, net, down, input);
  }

  lemma StartsCovered(down: bool)
    ensures Covered(RegSystem(Init(down), []))
  {
  }

  /** For one push token the condition is exact: it leaves a kept promise
    undriven if and only if it re-registers a recovering account that nothing
    else drives. */
  lemma PushTokenExactly(a: Account, e: RegEnv)
    requires Kept(a)
    ensures !Kept(PushToken(a, e)) <==> PushBreaks(a, AppPushToken, e)
  {
    hide UaRegister;
    UaRegisterShape(a, e.emits);
  }

  // ---------------------------------------------------------------------
  // Exactly de-stuttered
  // ---------------------------------------------------------------------

  lemma ProbesRemember(a: Account, cfg: RegConfig, e: RegEnv)
    requires Remembers(a)
    ensures Remembers(ProbeAnswered(a, cfg, e)) && Remembers(ProbeLost(a, cfg, e)) && Remembers(WatchFires(a, cfg, e))
  {
    hide Report, ScheduleRetry, Flagged;
    AllReports();
    AllSchedules();
  }

  lemma FailRemembers(a: Account, cfg: RegConfig, error: RegError, random: nat)
    requires Remembers(a)
    ensures Remembers(OnRegisterFail(a, cfg, error, random))
  {
    hide Report, ScheduleRetry, Flagged;
    var f := FailState(a, error).(ka := Stopped);
    assert Remembers(f);
    ScheduleShape(f, cfg, random);
    ReportShape(f, f.state, error);
    ReportShape(ScheduleRetry(f, cfg, random), f.state, error);
  }

  lemma AccountStepRemembers(a: Account, cfg: RegConfig, input: AccountInput, e: RegEnv)
    requires Remembers(a)
    ensures Remembers(AccountStep(a, cfg, input, e))
  {
    hide Report, UaRegister, Flagged, ProbeAnswered, ProbeLost, WatchFires, OnRegisterFail, Remembers;
    match input
    case ProbeOk => ProbesRemember(a, cfg, e);
    case ProbeTimeout => ProbesRemember(a, cfg, e);
    case WatchTimer => ProbesRemember(a, cfg, e);
    case RegisterFail(error) => FailRemembers(a, cfg, error, e.random);
    case _ => RequestRemembers(a, cfg, input, e);
  }

  lemma RequestRemembers(a: Account, cfg: RegConfig, input: AccountInput, e: RegEnv)
    requires Remembers(a)
    requires !input.ProbeOk? && !input.ProbeTimeout? && !input.WatchTimer? && !input.RegisterFail?
    ensures Remembers(AccountStep(a, cfg, input, e))
  {
    hide Report, UaRegister, ProbeAnswered, ProbeLost, WatchFires, OnRegisterFail;
    AllReports();
    AllAnnounce();
  }

  lemma ActionRemembers(a: Account, cfg: RegConfig, act: Action, e: RegEnv)
    requires Remembers(a)
    ensures Remembers(AccountAction(a, cfg, act, e))
  {
    hide Report, ScheduleRetry, UaRegister, Flagged;
    AllReports();
    AllSchedules();
    AllAnnounce();
  }

  predicate AllRemember(accts: seq<Account>) {
    forall i :: 0 <= i < |accts| ==> Remembers(accts[i])
  }

  lemma {:induction false} ActAllRemembers(a: Account, cfg: RegConfig, acts: seq<Action>, e: RegEnv)
    requires Remembers(a)
    ensures Remembers(ActAll(a, cfg, acts, e))
    decreases |acts|
  {
    hide AccountAction, Remembers;
    if acts != [] {
      ActionRemembers(a, cfg, acts[0], e);
      ActAllRemembers(AccountAction(a, cfg, acts[0], e), cfg, acts[1..], e);
    }
  }

  lemma ActionsRemember(accts: seq<Account>, cfg: RegConfig, acts: seq<Action>, envs: nat -> RegEnv)
    requires AllRemember(accts)
    ensures AllRemember(OnActions(accts, cfg, acts, envs))
  {
    hide OnActions, Remembers, Reached, ActAll;
    forall i | 0 <= i < |accts| ensures Remembers(OnActions(accts, cfg, acts, envs)[i]) {
      ActionsAre(accts, cfg, acts, envs, i);
      ActAllRemembers(accts[i], cfg, acts, envs(i));
    }
  }

  /** The stored signature is always the one the event history spells. */
  lemma {:induction false} SignatureIsHistory(cfg: RegConfig, net: Config, down: bool, inputs: Log<RegInput>)
    ensures AllRemember(RegRun(cfg, net, down, inputs).accts)
  {
    hide Step, OnActions, AccountStep;
    match inputs
    case Empty =>
    case Then(past, input) =>
      SignatureIsHistory(cfg, net, down, past);
      var s := RegRun(cfg, net, down, past);
      match input
      case AccountCreated(policy) =>
      case OnAccount(i, ai, e) => if i < |s.accts| { AccountStepRemembers(s.accts[i], cfg, ai, e); }
      case OnNetwork(ni, e) => ActionsRemember(s.accts, cfg, Step(s.mon, net, ni).1, e);
  }

  lemma ReportDrops(a: Account, st: RegState, err: RegError)
    requires Remembers(a)
    ensures Report(a, st, err).posts == a.posts <==>
              st.Reconnecting? && LastTold(a.posts) == Some(Signature(err, a.attempt, a.delay))
  {
    PrepareShape(a, st, err);
    var (b, post) := Prepare(a, st, err);
    assert post <==> !(st.Reconnecting? && a.sig == Some(SigOf(a, err)));
    hide Prepare;
    if post {
      assert Length(Report(a, st, err).posts) == Length(a.posts) + 1;
    }
  }

  /** In every reachable state, a report is dropped if and only if it is a
    RECONNECTING with the error, attempt and delay the app was last told since
    a prepared event of another state. */
  lemma {:induction false} DroppedExactlyOnStutter(
    cfg: RegConfig, net: Config, down: bool, inputs: Log<RegInput>, i: nat, st: RegState, err: RegError)
    requires i < |RegRun(cfg, net, down, inputs).accts|
    ensures var a := RegRun(cfg, net, down, inputs).accts[i];
            Report(a, st, err).posts == a.posts <==>
              st.Reconnecting? && LastTold(a.posts) == Some(Signature(err, a.attempt, a.delay))
  {
    hide Report, Remembers;
    SignatureIsHistory(cfg, net, down, inputs);
    ReportDrops(RegRun(cfg, net, down, inputs).accts[i], st, err);
  }

  /** A dropped report repeats the very last event the app received exactly when
    that event was a prepared one: an unprepared FAILED (cancel_retry) or plain
    REGISTERING in between is what a dropped report can contradict. */
  lemma DropRepeatsLastPost(a: Account, err: RegError)
    requires Remembers(a) && a.posts.Then?
    requires Report(a, Reconnecting, err).posts == a.posts
    ensures a.posts.last == RegEvent(Reconnecting, Signature(err, a.attempt, a.delay), true) <==> a.posts.last.prepared
  {
    ReportDrops(a, Reconnecting, err);
  }

  /** A RECONNECTING report adds one event, unless the signature is the stored
    one. */
  lemma ReportAddsOne(a: Account, err: RegError)
    ensures Report(a, Reconnecting, err).posts == a.posts <==> a.sig == Some(SigOf(a, err))
    ensures Report(a, Reconnecting, err).state == a.state
  {
    if a.sig != Some(SigOf(a, err)) {
      assert Length(Report(a, Reconnecting, err).posts) == Length(a.posts) + 1;
    }
  }

  /** One failed REGISTER, its armed retry and the retry's own REGISTERING tell
    the app exactly one thing, unless that is what it was last told already. */
  lemma {:induction false} FailureCyclePostsOnce(a: Account, cfg: RegConfig, err: RegError, random: nat, e: RegEnv)
    requires Remembers(a) && Eligible(a) && !a.retry.Armed? && BudgetLeft(a) && !err.AuthError? && e.emits
    ensures RetryFires(OnRegisterFail(a, cfg, err, random), e).posts
         == (var sig := Signature(err, a.attempt + 1, RetryDelay(a, cfg, random));
             if LastTold(a.posts) == Some(sig) then a.posts
             else Then(a.posts, RegEvent(Reconnecting, sig, true)))
  {
    hide RetryDelay;
    var f := FailState(a, err).(ka := Stopped);
    var d := RetryDelay(a, cfg, random);
    assert RetryDelay(f, cfg, random) == d by { RetryDelayFrame(a, f, cfg, random); }
    var sig := Signature(err, a.attempt + 1, d);
    var armed := ScheduleRetry(f, cfg, random);
    assert armed.sig == Some(sig) && armed.reconnecting && armed.retry == Armed(d) && armed.error == err;
    assert Report(armed, Reconnecting, err) == armed;
    assert OnRegisterFail(a, cfg, err, random) == armed;
    var fired := armed.(retry := Stopped);
    assert Report(fired.(state := Reconnecting), Reconnecting, err) == fired.(state := Reconnecting);
  }

  lemma RetryDelayFrame(a: Account, b: Account, cfg: RegConfig, random: nat)
    requires a.policy == b.policy && a.attempt == b.attempt
    ensures RetryDelay(a, cfg, random) == RetryDelay(b, cfg, random)
  {
  }

  // ---------------------------------------------------------------------
  // RECONNECTING ends in success or failure
  // ---------------------------------------------------------------------

  /** The app asked for something else than the running recovery. */
  predicate AppInput(input: AccountInput) {
    input.AppRegister? || input.AppUnregister? || input.UnregisteringSeen?
  }

  /** A register() over a running recovery must be seen to start. */
  predicate RegisterSeen(a: Account, input: AccountInput, e: RegEnv) {
    input.AppRegister? && a.ua && a.state.Reconnecting? ==> e.emits
  }

  /** How a recovery goes on: still flagged, or over with a verdict. */
  predicate GoesOn(a: Account, b: Account) {
    && Flagged(b)
    && (a.state.Reconnecting? ==> b.state.Reconnecting? || b.state.Registered? || b.state.RegFailed?)
  }

  lemma ProbesGoOn(a: Account, cfg: RegConfig, e: RegEnv)
    requires Flagged(a)
    ensures GoesOn(a, ProbeAnswered(a, cfg, e)) && GoesOn(a, ProbeLost(a, cfg, e))
  {
    hide Report, ScheduleRetry, Remembers;
    AllReports();
    AllSchedules();
  }

  lemma WatchGoesOn(a: Account, cfg: RegConfig, e: RegEnv)
    requires Flagged(a)
    ensures GoesOn(a, WatchFires(a, cfg, e))
  {
    hide Report, ScheduleRetry, Remembers;
    AllReports();
    AllSchedules();
  }

  lemma FailGoesOn(a: Account, cfg: RegConfig, error: RegError, random: nat)
    requires Flagged(a)
    ensures GoesOn(a, OnRegisterFail(a, cfg, error, random))
  {
    hide Report, ScheduleRetry, Remembers;
    var f := FailState(a, error).(ka := Stopped);
    ScheduleShape(f, cfg, random);
    ReportShape(f, f.state, error);
    ReportShape(ScheduleRetry(f, cfg, random), f.state, error);
  }

  /** Without the app registering or unregistering, RECONNECTING is left only
    for REGISTERED or FAILED. */
  lemma {:induction false} ReconnectingEndsInAVerdict(a: Account, cfg: RegConfig, input: AccountInput, e: RegEnv)
    requires Flagged(a) && RegisterSeen(a, input, e)
    ensures Flagged(AccountStep(a, cfg, input, e))
    ensures a.state.Reconnecting? && !AppInput(input) ==>
              var s := AccountStep(a, cfg, input, e).state;
              s.Reconnecting? || s.Registered? || s.RegFailed?
  {
    hide Report, UaRegister, Remembers, ProbeAnswered, ProbeLost, WatchFires, OnRegisterFail;
    match input
    case ProbeOk => ProbesGoOn(a, cfg, e);
    case ProbeTimeout => ProbesGoOn(a, cfg, e);
    case WatchTimer => WatchGoesOn(a, cfg, e);
    case RegisterFail(error) => FailGoesOn(a, cfg, error, e.random);
    case _ =>
      AllReports();
      AllAnnounce();
  }

  /** The one way to lose the flag is a register() over a running recovery whose
    REGISTERING is not seen. */
  lemma {:induction false} FlagKeptExactly(a: Account, cfg: RegConfig, input: AccountInput, e: RegEnv)
    requires Flagged(a)
    ensures Flagged(AccountStep(a, cfg, input, e)) <==> RegisterSeen(a, input, e)
  {
    if RegisterSeen(a, input, e) {
      ReconnectingEndsInAVerdict(a, cfg, input, e);
    } else {
      assert AccountStep(a, cfg, input, e) == Watch(a.(wanted := true, reconnecting := false));
    }
  }

  /** A handover never ends a recovery without a verdict either. */
  lemma HandoverKeepsRecovery(a: Account, cfg: RegConfig, act: Action, e: RegEnv)
    requires Flagged(a)
    ensures Flagged(AccountAction(a, cfg, act, e))
    ensures a.state.Reconnecting? ==>
              AccountAction(a, cfg, act, e).state.Reconnecting? || AccountAction(a, cfg, act, e).state.RegFailed?
  {
    hide Report, ScheduleRetry, UaRegister, Remembers;
    AllReports();
    AllSchedules();
    AllAnnounce();
  }

  predicate AllFlagged(accts: seq<Account>) {
    forall i :: 0 <= i < |accts| ==> Flagged(accts[i])
  }

  lemma {:induction false} ActAllFlagged(a: Account, cfg: RegConfig, acts: seq<Action>, e: RegEnv)
    requires Flagged(a)
    ensures Flagged(ActAll(a, cfg, acts, e))
    decreases |acts|
  {
    hide AccountAction, Flagged;
    if acts != [] {
      HandoverKeepsRecovery(a, cfg, acts[0], e);
      ActAllFlagged(AccountAction(a, cfg, acts[0], e), cfg, acts[1..], e);
    }
  }

  lemma ActionsFlagged(accts: seq<Account>, cfg: RegConfig, acts: seq<Action>, envs: nat -> RegEnv)
    requires AllFlagged(accts)
    ensures AllFlagged(OnActions(accts, cfg, acts, envs))
  {
    hide OnActions, Flagged, Reached, ActAll;
    forall i | 0 <= i < |accts| ensures Flagged(OnActions(accts, cfg, acts, envs)[i]) {
      ActionsAre(accts, cfg, acts, envs, i);
      ActAllFlagged(accts[i], cfg, acts, envs(i));
    }
  }

  predicate RegistersSeen(cfg: RegConfig, net: Config, down: bool, inputs: Log<RegInput>) {
    inputs.Then? ==>
      && RegistersSeen(cfg, net, down, inputs.past)
      && (var s := RegRun(cfg, net, down, inputs.past);
          inputs.last.OnAccount? && inputs.last.i < |s.accts| ==>
            RegisterSeen(s.accts[inputs.last.i], inputs.last.input, inputs.last.env))
  }

  /** Over every run, an account that reports RECONNECTING carries the recovery
    flag, which is what `ReconnectingEndsInAVerdict` starts from. */
  lemma {:induction false} RecoveryIsFlagged(cfg: RegConfig, net: Config, down: bool, inputs: Log<RegInput>)
    requires RegistersSeen(cfg, net, down, inputs)
    ensures AllFlagged(RegRun(cfg, net, down, inputs).accts)
  {
    hide Step, OnActions, AccountStep, RegisterSeen;
    match inputs
    case Empty =>
    case Then(past, input) =>
      RecoveryIsFlagged(cfg, net, down, past);
      var s := RegRun(cfg, net, down, past);
      match input
      case AccountCreated(policy) =>
      case OnAccount(i, ai, e) => if i < |s.accts| { ReconnectingEndsInAVerdict(s.accts[i], cfg, ai, e); }
      case OnNetwork(ni, e) => ActionsFlagged(s.accts, cfg, Step(s.mon, net, ni).1, e);
  }
}
