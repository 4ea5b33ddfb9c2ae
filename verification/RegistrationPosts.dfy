/** What the app hears of a failed REGISTER: one event per failure, and exactly
  when none. */
module RegistrationPosts {
  import opened History
  import opened Handover
  import opened Registration
  import opened RegistrationProofs

  // ---------------------------------------------------------------------
  // The stored signature never runs ahead of the attempts
  // ---------------------------------------------------------------------

  /** The signature counts no attempt that the account does not. */
  predicate Behind(a: Account) {
    a.sig.Some? ==> a.sig.value.attempt <= a.attempt
  }

  /** It counts some. */
  predicate CountsAttempts(a: Account) {
    a.sig.Some? && a.sig.value.attempt > 0
  }

  /** A request that starts the count again and leaves the signature as it is:
    cancel_retry, and retry_now unless its REGISTERING is reported under the
    recovery flag. */
  predicate Forgets(a: Account, input: AccountInput, e: RegEnv) {
    && CountsAttempts(a)
    && (input.AppCancelRetry? || (input.AppRetryNow? && !(a.ua && !a.destroyed && a.reconnecting && e.emits)))
  }

  /** The same for a handover: a re-REGISTER that is not seen. */
  predicate ActionForgets(a: Account, act: Action, e: RegEnv) {
    CountsAttempts(a) && act.Reregister? && !e.emits && !(a.state.RegFailed? && a.error.AuthError?)
  }

  lemma ReportsAreCurrent()
    ensures forall a, st, err {:trigger Report(a, st, err)} ::
              var b := Report(a, st, err);
              && Behind(b) && b == a.(sig := b.sig, delay := b.delay, posts := b.posts)
  {
    forall a, st, err
      ensures var b := Report(a, st, err);
              && Behind(b) && b == a.(sig := b.sig, delay := b.delay, posts := b.posts)
    {
      ReportShape(a, st, err);
    }
  }

  /** Scheduling reports, or leaves signature and count alone. */
  lemma SchedulesStayBehind()
    ensures forall a, cfg, random {:trigger ScheduleRetry(a, cfg, random)} ::
              Behind(a) ==> Behind(ScheduleRetry(a, cfg, random))
  {
    hide Report, RetryDelay, BudgetLeft;
    ReportsAreCurrent();
  }

  /** A REGISTERING under the flag is reported; otherwise nothing changes. */
  lemma AnnouncesStayBehind()
    ensures forall a, emits {:trigger UaRegister(a, emits)} ::
              var b := UaRegister(a, emits);
              && (if a.reconnecting && emits then Behind(b) else b.sig == a.sig)
              && b.attempt == a.attempt
  {
    hide Report;
    ReportsAreCurrent();
  }

  lemma TimersStayBehind(a: Account, cfg: RegConfig, e: RegEnv)
    requires Behind(a)
    ensures Behind(WatchFires(a, cfg, e)) && Behind(ProbeAnswered(a, cfg, e)) && Behind(ProbeLost(a, cfg, e))
  {
    hide Report, ScheduleRetry;
    ReportsAreCurrent();
    SchedulesStayBehind();
  }

  lemma FailStaysBehind(a: Account, cfg: RegConfig, err: RegError, random: nat)
    requires Behind(a)
    ensures Behind(OnRegisterFail(a, cfg, err, random))
  {
    hide Report, ScheduleRetry;
    ReportsAreCurrent();
  }

  lemma RequestsStayBehindExactly(a: Account, cfg: RegConfig, input: AccountInput, e: RegEnv)
    requires Behind(a)
    requires !input.ProbeOk? && !input.ProbeTimeout? && !input.WatchTimer? && !input.RegisterFail?
    ensures Behind(AccountStep(a, cfg, input, e)) <==> !Forgets(a, input, e)
  {
    hide Report, UaRegister, ProbeAnswered, ProbeLost, WatchFires, OnRegisterFail;
    ReportsAreCurrent();
    AnnouncesStayBehind();
  }

  /** A step on an account lets the signature run ahead if and only if it is one
    of those requests. */
  lemma {:induction false} BehindExactly(a: Account, cfg: RegConfig, input: AccountInput, e: RegEnv)
    requires Behind(a)
    ensures Behind(AccountStep(a, cfg, input, e)) <==> !Forgets(a, input, e)
  {
    hide Behind, ProbeAnswered, ProbeLost, WatchFires, OnRegisterFail;
    match input
    case ProbeOk => TimersStayBehind(a, cfg, e);
    case ProbeTimeout => TimersStayBehind(a, cfg, e);
    case WatchTimer => TimersStayBehind(a, cfg, e);
    case RegisterFail(err) => FailStaysBehind(a, cfg, err, e.random);
    case _ => RequestsStayBehindExactly(a, cfg, input, e);
  }

  lemma {:induction false} ActionBehindExactly(a: Account, cfg: RegConfig, act: Action, e: RegEnv)
    requires Behind(a)
    ensures Behind(AccountAction(a, cfg, act, e)) <==> !ActionForgets(a, act, e)
  {
    hide Report, UaRegister, ScheduleRetry;
    ReportsAreCurrent();
    AnnouncesStayBehind();
    SchedulesStayBehind();
  }

  // ---------------------------------------------------------------------
  // Over every run
  // ---------------------------------------------------------------------

  /** One of a step's actions on the account forgets. */
  predicate ActAllForgets(a: Account, cfg: RegConfig, acts: seq<Action>, e: RegEnv)
    decreases |acts|
  {
    acts != [] &&
    (ActionForgets(a, acts[0], e) || ActAllForgets(AccountAction(a, cfg, acts[0], e), cfg, acts[1..], e))
  }

  lemma {:induction false} ActAllStaysBehind(a: Account, cfg: RegConfig, acts: seq<Action>, e: RegEnv)
    requires Behind(a) && !ActAllForgets(a, cfg, acts, e)
    ensures Behind(ActAll(a, cfg, acts, e))
    decreases |acts|
  {
    hide AccountAction, Behind, ActionForgets;
    if acts != [] {
      ActionBehindExactly(a, cfg, acts[0], e);
      ActAllStaysBehind(AccountAction(a, cfg, acts[0], e), cfg, acts[1..], e);
    }
  }

  predicate StepForgets(s: RegSystem, cfg: RegConfig, net: Config, input: RegInput) {
    match input
    case AccountCreated(_) => false
    case OnAccount(i, ai, e) => i < |s.accts| && Forgets(s.accts[i], ai, e)
    case OnNetwork(ni, envs) =>
      exists i :: 0 <= i < |s.accts| && Reached(s.accts, i)
               && ActAllForgets(s.accts[i], cfg, Step(s.mon, net, ni).1, envs(i))
  }

  /** No cancel_retry, retry_now or unseen re-REGISTER has started the count of an
    account again behind its signature. */
  predicate Orderly(cfg: RegConfig, net: Config, down: bool, inputs: Log<RegInput>) {
    inputs.Then? ==>
      && Orderly(cfg, net, down, inputs.past)
      && !StepForgets(RegRun(cfg, net, down, inputs.past), cfg, net, inputs.last)
  }

  predicate AllBehind(accts: seq<Account>) {
    forall i :: 0 <= i < |accts| ==> Behind(accts[i])
  }

  lemma ActionsStayBehind(s: RegSystem, cfg: RegConfig, net: Config, ni: Input, envs: nat -> RegEnv)
    requires AllBehind(s.accts) && !StepForgets(s, cfg, net, OnNetwork(ni, envs))
    ensures AllBehind(RegStep(s, cfg, net, OnNetwork(ni, envs)).accts)
  {
    hide Step, OnActions, Behind, Reached, ActAll, ActAllForgets;
    var owed := Step(s.mon, net, ni).1;
    forall i | 0 <= i < |s.accts| ensures Behind(OnActions(s.accts, cfg, owed, envs)[i]) {
      ActionsAre(s.accts, cfg, owed, envs, i);
      if Reached(s.accts, i) { ActAllStaysBehind(s.accts[i], cfg, owed, envs(i)); }
    }
  }

  lemma {:induction false} OrderlyIsBehind(cfg: RegConfig, net: Config, down: bool, inputs: Log<RegInput>)
    requires Orderly(cfg, net, down, inputs)
    ensures AllBehind(RegRun(cfg, net, down, inputs).accts)
  {
    hide Step, OnActions, AccountStep, Forgets, ActAllForgets, Reached;
    match inputs
    case Empty =>
    case Then(past, input) =>
      OrderlyIsBehind(cfg, net, down, past);
      var s := RegRun(cfg, net, down, past);
      match input
      case AccountCreated(policy) =>
      case OnAccount(i, ai, e) => if i < |s.accts| { BehindExactly(s.accts[i], cfg, ai, e); }
      case OnNetwork(ni, envs) => ActionsStayBehind(s, cfg, net, ni, envs);
  }

  /** The account after one failed REGISTER and the retry it armed. */
  function Cycle(a: Account, cfg: RegConfig, err: RegError, random: nat, e: RegEnv): Account {
    RetryFires(OnRegisterFail(a, cfg, err, random), e)
  }

  /** The event a failure calls for. */
  function Promise(a: Account, cfg: RegConfig, err: RegError, random: nat): RegEvent {
    RegEvent(Reconnecting, Signature(err, a.attempt + 1, RetryDelay(a, cfg, random)), true)
  }

  function CycleInputs(inputs: Log<RegInput>, i: nat, err: RegError, failed: RegEnv, retried: RegEnv): Log<RegInput> {
    Then(Then(inputs, OnAccount(i, RegisterFail(err), failed)), OnAccount(i, RetryTimer, retried))
  }

  /** The failure of a live account whose policy allows another attempt, and whose
    retry is not already on its way. */
  predicate Retriable(a: Account, err: RegError) {
    Eligible(a) && !a.retry.Armed? && BudgetLeft(a) && !err.AuthError?
  }

  lemma CycleRuns(
    cfg: RegConfig, net: Config, down: bool, inputs: Log<RegInput>, i: nat, err: RegError, failed: RegEnv, retried: RegEnv)
    requires i < |RegRun(cfg, net, down, inputs).accts| && Retriable(RegRun(cfg, net, down, inputs).accts[i], err)
    ensures |RegRun(cfg, net, down, CycleInputs(inputs, i, err, failed, retried)).accts|
         == |RegRun(cfg, net, down, inputs).accts|
    ensures RegRun(cfg, net, down, CycleInputs(inputs, i, err, failed, retried)).accts[i]
         == Cycle(RegRun(cfg, net, down, inputs).accts[i], cfg, err, failed.random, retried)
  {
    hide Report, RetryDelay, RetryFires;
    var a := RegRun(cfg, net, down, inputs).accts[i];
    FailArms(a, cfg, err, failed.random);
    hide OnRegisterFail;
    var once := Then(inputs, OnAccount(i, RegisterFail(err), failed));
    assert RegRun(cfg, net, down, once).accts[i] == OnRegisterFail(a, cfg, err, failed.random);
  }

  lemma FailArms(a: Account, cfg: RegConfig, err: RegError, random: nat)
    requires Retriable(a, err)
    ensures OnRegisterFail(a, cfg, err, random).retry.Armed?
  {
    hide Report, RetryDelay;
    ReportsAreCurrent();
  }

  /** On every orderly run, one failed REGISTER, the retry it arms and the retry's
    own REGISTERING put exactly one event on the queue: RECONNECTING with the
    error, the attempt and the delay. */
  lemma {:induction false} OneFailureOnePost(
    cfg: RegConfig, net: Config, down: bool, inputs: Log<RegInput>, i: nat, err: RegError, failed: RegEnv, retried: RegEnv)
    requires Orderly(cfg, net, down, inputs) && retried.emits
    requires i < |RegRun(cfg, net, down, inputs).accts| && Retriable(RegRun(cfg, net, down, inputs).accts[i], err)
    ensures |RegRun(cfg, net, down, CycleInputs(inputs, i, err, failed, retried)).accts|
         == |RegRun(cfg, net, down, inputs).accts|
    ensures RegRun(cfg, net, down, CycleInputs(inputs, i, err, failed, retried)).accts[i].posts
         == Then(RegRun(cfg, net, down, inputs).accts[i].posts,
                 Promise(RegRun(cfg, net, down, inputs).accts[i], cfg, err, failed.random))
  {
    hide RegRun, RetryDelay, Cycle, LastTold;
    OrderlyIsBehind(cfg, net, down, inputs);
    SignatureIsHistory(cfg, net, down, inputs);
    CycleRuns(cfg, net, down, inputs, i, err, failed, retried);
    var a := RegRun(cfg, net, down, inputs).accts[i];
    CyclePosts(a, cfg, err, failed.random, retried);
    assert Behind(a);
  }

  /** In any state, orderly or not, a cycle posts one event, or none if and only if
    the stored signature is the one to come. */
  lemma {:induction false} CyclePosts(a: Account, cfg: RegConfig, err: RegError, random: nat, e: RegEnv)
    requires Retriable(a, err) && Remembers(a) && e.emits
    ensures Cycle(a, cfg, err, random, e).posts
         == if a.sig == Some(Promise(a, cfg, err, random).sig) then a.posts
            else Then(a.posts, Promise(a, cfg, err, random))
  {
    FailureCyclePostsOnce(a, cfg, err, random, e);
  }

  // ---------------------------------------------------------------------
  // After cancel_retry
  // ---------------------------------------------------------------------

  /** Told RECONNECTING, the app cancels the retry (told FAILED) and registers
    again (told REGISTERING). */
  function Again(a: Account, e: RegEnv): Account {
    Register(CancelRetry(a), e)
  }

  /** The account is on its third state, and its signature and delay are the old
    ones. */
  lemma AgainShape(a: Account, e: RegEnv)
    requires Eligible(a) && a.state.Reconnecting? && e.emits
    ensures var b := Again(a, e);
            && Eligible(b) && b.state.Registering? && !b.reconnecting && !b.retry.Armed? && b.attempt == 0
            && b.sig == a.sig && b.delay == a.delay && b.policy == a.policy
            && b.posts.Then? && b.posts.last == RegEvent(Registering, Signature(NoError, 0, 0), false)
  {
  }

  /** What then turns the account RECONNECTING is kept from the app if and only if
    the signature left behind is the very one to come: of a path lost to a
    handover; of a REGISTER that fails again; or of a lost probe that does not
    re-register. */
  lemma {:induction false} CancelSwallowsExactly(a: Account, cfg: RegConfig, e: RegEnv, err: RegError, random: nat)
    requires Eligible(a) && a.state.Reconnecting? && e.emits && !err.AuthError?
    ensures MarkLost(Again(a, e)).posts == Again(a, e).posts
            <==> a.sig == Some(Signature(NoError, 0, a.delay))
    ensures OnRegisterFail(Again(a, e), cfg, err, random).posts == Again(a, e).posts
            <==> a.sig == Some(Signature(err, 1, RetryDelay(a.(attempt := 0), cfg, random)))
    ensures ProbeLost(Again(a, e), cfg, e).posts == Again(a, e).posts
            <==> !cfg.keepaliveReregister && a.sig == Some(Signature(TimeoutError, 0, a.delay))
    ensures MarkLost(Again(a, e)).state.Reconnecting? && ProbeLost(Again(a, e), cfg, e).state.Reconnecting?
    ensures OnRegisterFail(Again(a, e), cfg, err, random).state.Reconnecting?
  {
    hide Again, RetryDelay;
    AgainShape(a, e);
    var b := Again(a, e);
    LostPathPosts(b);
    FailurePosts(b, cfg, err, random);
    LostProbePosts(b, cfg, e);
    RetryDelayFrame(a.(attempt := 0), b, cfg, random);
  }

  lemma LostPathPosts(b: Account)
    requires Eligible(b) && b.state.Registering?
    ensures MarkLost(b).state.Reconnecting?
    ensures MarkLost(b).posts == b.posts <==> b.sig == Some(Signature(NoError, b.attempt, b.delay))
  {
    hide Report;
    ReportAddsOne(b.(reconnecting := true, state := Reconnecting, ka := Stopped), NoError);
  }

  lemma FailurePosts(b: Account, cfg: RegConfig, err: RegError, random: nat)
    requires Retriable(b, err)
    ensures OnRegisterFail(b, cfg, err, random).state.Reconnecting?
    ensures OnRegisterFail(b, cfg, err, random).posts == b.posts
            <==> b.sig == Some(Signature(err, b.attempt + 1, RetryDelay(b, cfg, random)))
  {
    hide RetryDelay, Report;
    var f := FailState(b, err).(ka := Stopped);
    RetryDelayFrame(b, f, cfg, random);
    var d := RetryDelay(b, cfg, random);
    var armed := f.(attempt := f.attempt + 1, delay := d, reconnecting := true, state := Reconnecting);
    ReportAddsOne(armed, err);
    ReportIsStored(armed, err);
    var told := Report(armed, Reconnecting, err).(retry := Armed(d));
    assert ScheduleRetry(f, cfg, random) == told;
    ReportAddsOne(told, err);
  }

  lemma ReportIsStored(a: Account, err: RegError)
    ensures var b := Report(a, Reconnecting, err);
            b.sig == Some(SigOf(a, err)) && SigOf(b, err) == SigOf(a, err) && b.error == a.error
  {
  }

  lemma LostProbePosts(b: Account, cfg: RegConfig, e: RegEnv)
    requires Eligible(b) && !b.retry.Armed? && b.attempt == 0
    ensures ProbeLost(b, cfg, e).state.Reconnecting?
    ensures ProbeLost(b, cfg, e).posts == b.posts
            <==> !cfg.keepaliveReregister && b.sig == Some(Signature(TimeoutError, 0, b.delay))
  {
    hide RetryDelay, Report;
    var lost := b.(kaInFlight := false, kaFailed := true, error := TimeoutError, reconnecting := true, state := Reconnecting);
    ReportAddsOne(lost, TimeoutError);
    ReportIsStored(lost, TimeoutError);
    var told := Report(lost, Reconnecting, TimeoutError);
    ReportShape(lost, Reconnecting, TimeoutError);
    if cfg.keepaliveReregister {
      var d := RetryDelay(told, cfg, e.random);
      var armed := told.(attempt := told.attempt + 1, delay := d, reconnecting := true, state := Reconnecting);
      PostsGrow(lost, TimeoutError);
      PostsGrow(armed, TimeoutError);
      ReportAddsOne(armed, TimeoutError);
      ReportShape(armed, Reconnecting, TimeoutError);
      assert ProbeLost(b, cfg, e) == Report(armed, Reconnecting, TimeoutError).(retry := Armed(d));
    }
  }

  lemma PostsGrow(a: Account, err: RegError)
    ensures Length(Report(a, Reconnecting, err).posts)
         == Length(a.posts) + if a.sig == Some(SigOf(a, err)) then 0 else 1
  {
  }
}
