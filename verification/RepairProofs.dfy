/** Every repair round is bounded, ends with at most one verdict, and no call is
  stranded: the safety theorems about src/netmon.c's per-call machine. */
module RepairProofs {
  import opened History
  import opened Handover
  import opened Migration

  // ---------------------------------------------------------------------
  // What a reader of one call's events can count
  // ---------------------------------------------------------------------

  /** `verdicts` and `offers` count since the last claim; `claims` and the stall
    fields count over the whole life of the call.  `spaced` says that every stall round
    started at least the cooldown after the previous one. */
  datatype Ledger = Ledger(
    claims: nat, verdicts: nat, offers: nat, stall: bool,
    stallRounds: nat, stallOffers: nat, lastStall: nat, spaced: bool)

  function Book(l: Ledger, e: CallEvent): Ledger {
    match e
    case Claimed(stall, at) =>
      if stall then
        Ledger(l.claims + 1, 0, 0, true, l.stallRounds + 1, l.stallOffers, at,
               l.spaced && (l.lastStall == 0 || at < l.lastStall || at - l.lastStall >= STALL_COOLDOWN_MS))
      else
        l.(claims := l.claims + 1, verdicts := 0, offers := 0, stall := false)
    case Migrating(_) =>
      l.(offers := l.offers + 1, stallOffers := l.stallOffers + if l.stall then 1 else 0)
    case Migrated => l.(verdicts := l.verdicts + 1)
    case MigrationFailed => l.(verdicts := l.verdicts + 1)
    case _ => l
  }

  function Books(trace: Log<CallEvent>): Ledger {
    match trace
    case Empty => Ledger(0, 0, 0, false, 0, 0, 0, true)
    case Then(past, e) => Book(Books(past), e)
  }

  /** `rounds` full stall budgets. */
  function Quota(budget: nat, rounds: nat): nat {
    if rounds == 0 then 0 else budget + Quota(budget, rounds - 1)
  }

  // ---------------------------------------------------------------------
  // What the handlers do, as far as budgets and verdicts are concerned
  // ---------------------------------------------------------------------

  datatype Core = Core(
    live: bool, gen: nat, state: MigState, tries: nat, stall: bool, stallAt: nat, stallRounds: nat, books: Ledger)

  function Abs(c: Call): Core {
    Core(c.live, c.gen, c.state, c.tries, c.stall, c.stallAt, c.stallRounds, Books(c.trace))
  }

  function Verdict(a: Core, s: MigState): Core {
    a.(state := s, books := a.books.(verdicts := a.books.verdicts + 1))
  }

  function Offered(a: Core): Core {
    a.(state := Sent, books := a.books.(offers := a.books.offers + 1,
                                             stallOffers := a.books.stallOffers + if a.books.stall then 1 else 0))
  }

  function Spent(a: Core): Core {
    a.(tries := a.tries + 1)
  }

  /** The outcomes of send_migration. */
  predicate Sends(a: Core, b: Core, cfg: RepairConfig, refreshable: bool) {
    if !refreshable then b == a.(state := Deferred)
    else
      || b == Offered(Spent(a))
      || b == Verdict(Offered(Spent(a)), Done)
      || b == Verdict(Spent(a), Failed)
      || (b == Spent(a).(state := Deferred) && b.tries < cfg.net.maxAttempts)
  }

  /** The outcomes of start_migration on a claimed call. */
  predicate Starts(a: Core, b: Core, cfg: RepairConfig, refreshable: bool) {
    || b == a.(state := WaitAddr)
    || b == a.(state := Idle)
    || Sends(a, b, cfg, refreshable)
  }

  lemma FailShape(c: Call, cfg: RepairConfig)
    ensures Abs(FailCall(c, cfg)) == Verdict(Abs(c), Failed)
  {
    var f := Tell(c.(state := Failed), MigrationFailed);
    assert Abs(f) == Verdict(Abs(c), Failed);
    assert Abs(Tell(f, HungUp)) == Abs(f);
  }

  lemma ReofferShape(c: Call, cfg: RepairConfig, e: Env)
    requires ValidRepairConfig(cfg)
    ensures var (a, b) := (Abs(c), Abs(Reoffer(c, cfg, e)));
            || b == Offered(a)
            || b == Verdict(Offered(a), Done)
            || b == Verdict(a, Failed)
            || (b == a.(state := Deferred) && a.tries < cfg.net.maxAttempts)
  {
    hide FailCall;
    FailShape(c, cfg);
    assert MaxAttemptsFor(c, cfg, e) <= cfg.net.maxAttempts;
    var s := Tell(c.(state := Sent, due := e.now + VerifyTickFor(c.stall, cfg)),
                  Migrating(OfferSeen(c.tries, e.rx, e.now, false, c.laddr)));
    assert Abs(s) == Offered(Abs(c));
    assert Abs(Tell(s.(state := Done), Migrated)) == Verdict(Abs(s), Done);
  }

  lemma RememberFrame(c: Call)
    ensures Remember(c) == c.(tried := Remember(c).tried)
  {
  }

  lemma RotateFrame(c: Call, e: Env)
    ensures Rotate(c, e) == c.(tried := Rotate(c, e).tried, laddr := Rotate(c, e).laddr)
    ensures c.laddr.Some? ==> Rotate(c, e).laddr.Some?
  {
    hide NextLaddr, Remember, Rotates;
    RememberFrame(c);
    var r := Remember(c);
    if Rotates(r) && r.laddr.Some? {
      var (tried, next) := NextLaddr(r.tried, r.laddr.value.af, e.locals);
      assert Rotate(c, e) == r.(tried := tried, laddr := Rotate(c, e).laddr);
    }
  }

  lemma RememberShape(c: Call)
    ensures Abs(Remember(c)) == Abs(c)
  {
  }

  lemma SendShape(c: Call, cfg: RepairConfig, e: Env)
    requires ValidRepairConfig(cfg) && c.live
    ensures Sends(Abs(c), Abs(Send(c, cfg, e)), cfg, e.refreshable)
  {
    hide Reoffer, Remember;
    RememberShape(c.(rxAtMig := e.rx, tries := c.tries + 1));
    var d := Remember(c.(rxAtMig := e.rx, tries := c.tries + 1));
    assert Abs(d) == Spent(Abs(c));
    ReofferShape(d, cfg, e);
    var stale := Tell(d.(staleSent := true), IceStale);
    assert Abs(stale) == Abs(d);
    ReofferShape(stale, cfg, e);
  }

  lemma RotateShape(c: Call, e: Env)
    ensures Abs(Rotate(c, e)) == Abs(c)
  {
    hide NextLaddr, Remember, Rotates;
    RememberShape(c);
  }

  lemma OfferShape(c: Call, cfg: RepairConfig, laddr: Addr, e: Env)
    requires ValidRepairConfig(cfg) && c.live
    ensures Starts(Abs(c), Abs(Offer(c, cfg, laddr, e)), cfg, e.refreshable)
  {
    hide Send;
    var samePath := e.current == Some(laddr);
    var d := c.(pathMoved := c.pathMoved || c.stall || !samePath, laddr := Some(laddr));
    assert Abs(d) == Abs(c);
    SendShape(d, cfg, e);
  }

  lemma StartShape(c: Call, cfg: RepairConfig, gen: nat, hs: nat, e: Env)
    requires ValidRepairConfig(cfg) && c.live
    ensures var a := if c.gen == gen then Abs(c) else Claims(Abs(c), gen, false, e.now);
            Starts(a, Abs(Start(c, cfg, gen, hs, e)), cfg, e.refreshable)
  {
    hide Locate, Claim;
    var start := if hs != 0 then hs else e.now;
    var d := if c.gen == gen then c else Claim(c, gen, false, start, e.now);
    ClaimShape(c, gen, false, start, e.now);
    LocateShape(d, cfg, e);
  }

  lemma ClaimShape(c: Call, gen: nat, stall: bool, start: nat, now: nat)
    ensures Abs(Claim(c, gen, stall, start, now)) == Claims(Abs(c), gen, stall, now)
    ensures Claim(c, gen, stall, start, now).live == c.live
  {
  }

  lemma WaitShape(c: Call)
    ensures Abs(WaitForAddr(c)) == Abs(c).(state := WaitAddr)
  {
  }

  lemma LocateShape(d: Call, cfg: RepairConfig, e: Env)
    requires ValidRepairConfig(cfg) && d.live
    ensures Starts(Abs(d), Abs(Locate(d, cfg, e)), cfg, e.refreshable)
  {
    hide Offer, NextLaddr, WaitForAddr, Sends;
    WaitShape(d);
    if e.stream && e.peerKnown && e.route.Some? {
      var route := e.route.value;
      var (tried, next) :=
        if Rotates(d) && route in d.tried then NextLaddr(d.tried, route.af, e.locals) else (d.tried, None);
      assert Abs(d.(tried := tried)) == Abs(d);
      OfferShape(d.(tried := tried), cfg, if next.Some? then next.value else route, e);
    }
  }

  function Claims(a: Core, gen: nat, stall: bool, now: nat): Core {
    a.(gen := gen, tries := 0, stall := stall, books := Book(a.books, Claimed(stall, now)))
  }

  /** The outcomes of one call's turn in verify_handler, for a live call of the
    current generation that is judged. */
  predicate Turns(a: Core, b: Core, cfg: RepairConfig, refreshable: bool) {
    match a.state
    case Stalled => Starts(a, b, cfg, refreshable)
    case WaitAddr =>
      if a.tries + 1 >= cfg.net.maxAttempts then b == Verdict(Spent(a), Failed)
      else Starts(Spent(a), b, cfg, refreshable)
    case Deferred =>
      if refreshable then Sends(a, b, cfg, true)
      else if a.tries + 1 >= cfg.net.maxAttempts then b == Verdict(Spent(a), Failed)
      else b == Spent(a)
    case Sent =>
      || b == Verdict(a, Done)
      || b == Verdict(a, Failed)
      || (a.tries < (if a.stall then StallBudget(cfg) else cfg.net.maxAttempts) && Sends(a, b, cfg, refreshable))
    case _ => b == a
  }

  lemma JudgeShape(c: Call, cfg: RepairConfig, e: Env)
    requires ValidRepairConfig(cfg) && c.live && c.state.Sent?
    ensures Turns(Abs(c), Abs(Judge(c, cfg, e)), cfg, e.refreshable)
  {
    hide Send, Rotate, FailCall;
    FailShape(c, cfg);
    RotateShape(c, e);
    SendShape(Rotate(c, e), cfg, e);
  }

  lemma TickShape(c: Call, cfg: RepairConfig, gen: nat, hs: nat, e: Env)
    requires ValidRepairConfig(cfg) && c.live && c.gen == gen && !TooEarly(c, e)
    ensures Turns(Abs(c), Abs(Tick(c, cfg, gen, hs, e)), cfg, e.refreshable)
  {
    hide Send, Start, FailCall, Judge;
    var spent := c.(tries := c.tries + 1);
    assert Abs(spent) == Spent(Abs(c));
    match c.state
    case Stalled => StartShape(c, cfg, gen, hs, e);
    case WaitAddr => FailShape(spent, cfg); StartShape(spent, cfg, gen, hs, e);
    case Deferred => FailShape(spent, cfg); SendShape(c, cfg, e);
    case Sent => JudgeShape(c, cfg, e);
    case _ =>
  }

  // ---------------------------------------------------------------------
  // The invariant of one call, and that every outcome keeps it
  // ---------------------------------------------------------------------

  /** The attempt counter stays within the budget, and strictly within it while
    the call still waits to offer. */
  predicate BudgetOk(a: Core, cfg: RepairConfig) {
    && a.tries <= cfg.net.maxAttempts
    && (Waiting(a.state) ==> a.tries < cfg.net.maxAttempts)
  }

  /** At most one verdict per claim, and none while one is still owed. */
  predicate VerdictOk(a: Core) {
    && a.books.verdicts <= 1
    && (a.live && !Terminal(a.state) ==> a.books.verdicts == 0)
  }

  predicate StallOk(a: Core, cfg: RepairConfig) {
    var l := a.books;
    var budget := StallBudget(cfg);
    && l.stall == a.stall
    && l.offers <= a.tries
    && l.stallRounds == a.stallRounds <= STALL_ROUNDS
    && l.lastStall == a.stallAt
    && l.spaced
    && (a.stall ==>
          && 0 < l.stallRounds
          && l.offers <= budget
          && (Waiting(a.state) ==> l.offers < budget)
          && l.stallOffers <= Quota(budget, l.stallRounds - 1) + l.offers)
    && (!a.stall ==> l.stallOffers <= Quota(budget, l.stallRounds))
  }

  predicate CoreOk(a: Core, cfg: RepairConfig) {
    BudgetOk(a, cfg) && VerdictOk(a) && StallOk(a, cfg)
  }

  predicate CallOk(c: Call, cfg: RepairConfig) {
    CoreOk(Abs(c), cfg)
  }

  /** What send_migration may be entered with. */
  predicate MaySend(a: Core, cfg: RepairConfig) {
    && a.live && a.books.verdicts == 0
    && a.tries < cfg.net.maxAttempts
    && (a.stall ==> a.books.offers < StallBudget(cfg))
  }

  lemma SendsKeepsOk(a: Core, b: Core, cfg: RepairConfig, refreshable: bool)
    requires ValidRepairConfig(cfg) && CoreOk(a, cfg) && MaySend(a, cfg) && Sends(a, b, cfg, refreshable)
    ensures CoreOk(b, cfg)
  {
  }

  lemma TurnsKeepsOk(a: Core, b: Core, cfg: RepairConfig, refreshable: bool)
    requires ValidRepairConfig(cfg) && CoreOk(a, cfg) && a.live && Turns(a, b, cfg, refreshable)
    ensures CoreOk(b, cfg)
  {
    hide Sends, CoreOk, MaySend;
    match a.state
    case Stalled => StartsKeepsOk(a, b, cfg, refreshable);
    case WaitAddr =>
      SpentKeepsOk(a, cfg);
      if a.tries + 1 < cfg.net.maxAttempts { StartsKeepsOk(Spent(a), b, cfg, refreshable); }
    case Deferred =>
      SpentKeepsOk(a, cfg);
      if refreshable { SendsFromWaiting(a, b, cfg, refreshable); }
    case Sent =>
      VerdictKeepsOk(a, cfg);
      if b != Verdict(a, Done) && b != Verdict(a, Failed) { RetryKeepsOk(a, b, cfg, refreshable); }
    case _ =>
  }

  lemma RetryKeepsOk(a: Core, b: Core, cfg: RepairConfig, refreshable: bool)
    requires ValidRepairConfig(cfg) && CoreOk(a, cfg) && a.live && a.state.Sent? && Sends(a, b, cfg, refreshable)
    requires a.tries < if a.stall then StallBudget(cfg) else cfg.net.maxAttempts
    ensures CoreOk(b, cfg)
  {
    hide Sends;
    SendsKeepsOk(a, b, cfg, refreshable);
  }

  lemma SendsFromWaiting(a: Core, b: Core, cfg: RepairConfig, refreshable: bool)
    requires ValidRepairConfig(cfg) && CoreOk(a, cfg) && a.live && Waiting(a.state) && Sends(a, b, cfg, refreshable)
    ensures CoreOk(b, cfg)
  {
    hide Sends;
    SendsKeepsOk(a, b, cfg, refreshable);
  }

  lemma StartsKeepsOk(a: Core, b: Core, cfg: RepairConfig, refreshable: bool)
    requires ValidRepairConfig(cfg) && CoreOk(a, cfg) && a.live && Waiting(a.state) && Starts(a, b, cfg, refreshable)
    ensures CoreOk(b, cfg)
  {
    hide Sends;
    if Sends(a, b, cfg, refreshable) { SendsKeepsOk(a, b, cfg, refreshable); }
  }

  /** A waiting call that has spent an attempt may go on, or be failed. */
  lemma SpentKeepsOk(a: Core, cfg: RepairConfig)
    requires CoreOk(a, cfg) && a.live && Waiting(a.state)
    ensures a.tries + 1 < cfg.net.maxAttempts ==> CoreOk(Spent(a), cfg)
    ensures CoreOk(Verdict(Spent(a), Failed), cfg)
  {
  }

  lemma VerdictKeepsOk(a: Core, cfg: RepairConfig)
    requires CoreOk(a, cfg) && a.live && !Terminal(a.state)
    ensures CoreOk(Verdict(a, Done), cfg) && CoreOk(Verdict(a, Failed), cfg)
  {
  }

  lemma QuotaStep(budget: nat, rounds: nat)
    requires rounds > 0
    ensures Quota(budget, rounds - 1) + budget == Quota(budget, rounds)
  {
  }

  lemma ClaimsKeepsOk(a: Core, cfg: RepairConfig, gen: nat, now: nat)
    requires ValidRepairConfig(cfg) && CoreOk(a, cfg) && a.live
    ensures CoreOk(Claims(a, gen, false, now), cfg) && MaySend(Claims(a, gen, false, now), cfg)
  {
    if a.stall { QuotaStep(StallBudget(cfg), a.stallRounds); }
  }

  lemma StartKeepsOk(c: Call, cfg: RepairConfig, gen: nat, hs: nat, e: Env)
    requires ValidRepairConfig(cfg) && CallOk(c, cfg) && c.gen != gen
    ensures CallOk(Start(c, cfg, gen, hs, e), cfg)
  {
    if c.live {
      hide Start, Sends, Claims;
      StartShape(c, cfg, gen, hs, e);
      ClaimsKeepsOk(Abs(c), cfg, gen, e.now);
      var (a, b) := (Claims(Abs(c), gen, false, e.now), Abs(Start(c, cfg, gen, hs, e)));
      if Sends(a, b, cfg, e.refreshable) { SendsKeepsOk(a, b, cfg, e.refreshable); }
    }
  }

  lemma TickKeepsOk(c: Call, cfg: RepairConfig, gen: nat, hs: nat, e: Env)
    requires ValidRepairConfig(cfg) && CallOk(c, cfg)
    ensures CallOk(Tick(c, cfg, gen, hs, e), cfg)
  {
    hide Turns, Judge, Start, Send, FailCall;
    if c.gen == gen && c.live && !TooEarly(c, e) {
      TickShape(c, cfg, gen, hs, e);
      TurnsKeepsOk(Abs(c), Abs(Tick(c, cfg, gen, hs, e)), cfg, e.refreshable);
    }
  }

  lemma StallKeepsOk(c: Call, cfg: RepairConfig, gen: nat, e: Env)
    requires ValidRepairConfig(cfg) && CallOk(c, cfg)
    ensures CallOk(StallReport(c, gen, e), cfg)
  {
    if StallAdmitted(c, gen, e) {
      if c.stall { QuotaStep(StallBudget(cfg), c.stallRounds); }
      assert Abs(StallReport(c, gen, e))
          == Claims(Abs(c).(stallAt := e.now, stallRounds := c.stallRounds + 1, state := Stalled), gen, true, e.now);
    }
  }

  lemma FailIfOwedKeepsOk(c: Call, cfg: RepairConfig, hs: nat)
    requires ValidRepairConfig(cfg) && CallOk(c, cfg)
    ensures CallOk(FailIfOwed(c, cfg, hs), cfg)
  {
    hide FailCall;
    if c.live && !Terminal(c.state) {
      FailShape(if c.start == 0 then c.(start := hs) else c, cfg);
    }
  }

  // ---------------------------------------------------------------------
  // A round ends
  // ---------------------------------------------------------------------

  function Rank(s: MigState): nat {
    match s
    case Stalled => 3
    case Sent => 3
    case WaitAddr => 2
    case Deferred => 1
    case _ => 0
  }

  /** The lexicographic pair (attempts left, rank) as one number. */
  function Measure(a: Core, cfg: RepairConfig): nat
    requires BudgetOk(a, cfg)
  {
    (cfg.net.maxAttempts - a.tries) * 4 + Rank(a.state)
  }

  /** The verify tick decides something about this call. */
  predicate Judged(c: Call, gen: nat, e: Env) {
    c.gen == gen && Pending(c.state) && !TooEarly(c, e)
  }

  lemma TurnsDecreases(a: Core, b: Core, cfg: RepairConfig, refreshable: bool)
    requires ValidRepairConfig(cfg) && CoreOk(a, cfg) && CoreOk(b, cfg) && Pending(a.state)
    requires Turns(a, b, cfg, refreshable)
    ensures Measure(b, cfg) < Measure(a, cfg)
  {
    hide StallOk, VerdictOk, Book;
  }

  /** Every verify tick that judges the call makes the measure smaller. */
  lemma {:induction false} JudgedTickDecreases(c: Call, cfg: RepairConfig, gen: nat, hs: nat, e: Env)
    requires ValidRepairConfig(cfg) && CallOk(c, cfg) && Judged(c, gen, e)
    ensures CallOk(Tick(c, cfg, gen, hs, e), cfg)
    ensures Measure(Abs(Tick(c, cfg, gen, hs, e)), cfg) < Measure(Abs(c), cfg)
  {
    hide Judge, Start, Send, FailCall, Turns, Tell, StallOk, VerdictOk;
    TickKeepsOk(c, cfg, gen, hs, e);
    if c.live {
      TickShape(c, cfg, gen, hs, e);
      TurnsDecreases(Abs(c), Abs(Tick(c, cfg, gen, hs, e)), cfg, e.refreshable);
    }
  }

  // ---------------------------------------------------------------------
  // Over every run
  // ---------------------------------------------------------------------

  predicate AllOk(n: Netmon, cfg: RepairConfig) {
    forall i :: 0 <= i < |n.calls| ==> CallOk(n.calls[i], cfg) && n.calls[i].gen <= n.mon.gen
  }

  lemma GenNeverFalls(m: Monitor, cfg: Config, i: Input)
    ensures m.gen <= Step(m, cfg, i).0.gen
    ensures MigrateCalls in Step(m, cfg, i).1 ==> Step(m, cfg, i).0.gen == m.gen + 1
    ensures Step(m, cfg, i).0.gen == m.gen || MigrateCalls in Step(m, cfg, i).1 || !cfg.reinviteCalls
    ensures FailPendingCalls in Step(m, cfg, i).1 ==>
              Step(m, cfg, i).0.gen == m.gen && MigrateCalls !in Step(m, cfg, i).1
  {
    hide ResetAnswered, BackoffMs;
    if i.SettleTimer? {
      ResetGen(ReportLink(m.(settle := Stopped), i.use).0.(waitTicks := 0), cfg, i.resetOk);
    }
  }

  lemma ResetGen(m: Monitor, cfg: Config, ok: bool)
    ensures var (after, owed) := ResetAnswered(m, cfg, ok);
            && after.gen == m.gen + (if ok then 1 else 0)
            && (MigrateCalls in owed <==> ok && cfg.reinviteCalls)
            && (FailPendingCalls in owed ==> !ok)
            && MarkReconnecting !in owed
  {
  }

  lemma MigratesWhenReset(m: Monitor, cfg: Config, i: Input)
    requires Step(m, cfg, i).0.gen == m.gen + 1
    ensures MigrateCalls in Step(m, cfg, i).1 <==> cfg.reinviteCalls
    ensures FailPendingCalls !in Step(m, cfg, i).1
  {
    hide ResetAnswered, BackoffMs;
    if i.SettleTimer? {
      ResetGen(ReportLink(m.(settle := Stopped), i.use).0.(waitTicks := 0), cfg, i.resetOk);
    }
  }

  lemma DeadStart(c: Call, cfg: RepairConfig, gen: nat, hs: nat, e: Env)
    ensures !c.live ==> Start(c, cfg, gen, hs, e) == c.(state := Idle)
  {
    hide Locate, Claim;
  }

  lemma GensKept(c: Call, cfg: RepairConfig, gen: nat, hs: nat, e: Env)
    requires ValidRepairConfig(cfg)
    ensures Tick(c, cfg, gen, hs, e).gen == c.gen
    ensures FailIfOwed(c, cfg, hs).gen == c.gen
    ensures c.live ==> Start(c, cfg, gen, hs, e).gen == gen
    ensures !c.live ==> Start(c, cfg, gen, hs, e) == c.(state := Idle)
    ensures c.gen != gen ==> Tick(c, cfg, gen, hs, e) == c
  {
    hide Judge, Start, Send, FailCall, Starts, Turns, Books;
    DeadStart(c, cfg, gen, hs, e);
    FailShape(if c.start == 0 then c.(start := hs) else c, cfg);
    if c.live {
      StartShape(c, cfg, gen, hs, e);
      StartsKeepsGen(if c.gen == gen then Abs(c) else Claims(Abs(c), gen, false, e.now),
                     Abs(Start(c, cfg, gen, hs, e)), cfg, e.refreshable);
      if c.gen == gen && !TooEarly(c, e) {
        TickShape(c, cfg, gen, hs, e);
        TurnsKeepsGen(Abs(c), Abs(Tick(c, cfg, gen, hs, e)), cfg, e.refreshable);
      }
    }
  }

  lemma StartsKeepsGen(a: Core, b: Core, cfg: RepairConfig, refreshable: bool)
    requires Starts(a, b, cfg, refreshable)
    ensures b.gen == a.gen
  {
  }

  lemma TurnsKeepsGen(a: Core, b: Core, cfg: RepairConfig, refreshable: bool)
    requires Turns(a, b, cfg, refreshable)
    ensures b.gen == a.gen
  {
  }

  lemma NetworkKeepsOk(n: Netmon, cfg: RepairConfig, input: RepairInput)
    requires ValidRepairConfig(cfg) && AllOk(n, cfg) && input.Network?
    ensures AllOk(RepairStep(n, cfg, input), cfg)
  {
    hide Step, CallOk, Start, FailIfOwed, ArmVerify;
    var mon := Step(n.mon, cfg.net, input.net).0;
    var hs := n.mon.handoverStart;
    GenNeverFalls(n.mon, cfg.net, input.net);
    var n' := RepairStep(n, cfg, input);
    forall i | 0 <= i < |n'.calls| ensures CallOk(n'.calls[i], cfg) && n'.calls[i].gen <= n'.mon.gen {
      var c := n.calls[i];
      GensKept(c, cfg, mon.gen, hs, input.envs(i));
      FailIfOwedKeepsOk(c, cfg, hs);
      if c.gen != mon.gen { StartKeepsOk(c, cfg, mon.gen, hs, input.envs(i)); }
    }
  }

  lemma VerifyKeepsOk(n: Netmon, cfg: RepairConfig, input: RepairInput)
    requires ValidRepairConfig(cfg) && AllOk(n, cfg) && input.VerifyTimer?
    ensures AllOk(RepairStep(n, cfg, input), cfg)
  {
    hide CallOk, Tick, ArmVerify;
    if n.verify.Armed? {
      var n' := RepairStep(n, cfg, input);
      forall i | 0 <= i < |n'.calls| ensures CallOk(n'.calls[i], cfg) && n'.calls[i].gen <= n'.mon.gen {
        TickKeepsOk(n.calls[i], cfg, n.mon.gen, n.mon.handoverStart, input.envs(i));
        GensKept(n.calls[i], cfg, n.mon.gen, n.mon.handoverStart, input.envs(i));
      }
    }
  }

  lemma StepKeepsOk(n: Netmon, cfg: RepairConfig, input: RepairInput)
    requires ValidRepairConfig(cfg) && AllOk(n, cfg)
    ensures AllOk(RepairStep(n, cfg, input), cfg)
  {
    match input
    case Network(_, _) => NetworkKeepsOk(n, cfg, input);
    case VerifyTimer(_) => VerifyKeepsOk(n, cfg, input);
    case _ => OneCallKeepsOk(n, cfg, input);
  }

  lemma OneCallKeepsOk(n: Netmon, cfg: RepairConfig, input: RepairInput)
    requires ValidRepairConfig(cfg) && AllOk(n, cfg) && !input.Network? && !input.VerifyTimer?
    ensures AllOk(RepairStep(n, cfg, input), cfg)
  {
    hide Step, Perform, TickAll, ArmVerify, Quota;
    match input
    case StallReported(i, e) => if i < |n.calls| { StallKeepsOk(n.calls[i], cfg, n.mon.gen, e); }
    case _ =>
  }

  lemma {:induction false} RunsKeepOk(cfg: RepairConfig, down: bool, inputs: Log<RepairInput>)
    requires ValidRepairConfig(cfg)
    ensures AllOk(RepairRun(cfg, down, inputs), cfg)
  {
    match inputs
    case Empty =>
    case Then(past, i) =>
      RunsKeepOk(cfg, down, past);
      StepKeepsOk(RepairRun(cfg, down, past), cfg, i);
  }

  /** Over every interleaving of handovers, stalls, bounces and ticks: attempts
    never exceed the budget, no claim gets a second verdict, and over its whole
    life a call has at most three stall rounds, started at least ten seconds
    apart, with at most 3 * min(max_attempts, 3) offers between them. */
  lemma {:induction false} RepairIsBounded(cfg: RepairConfig, down: bool, inputs: Log<RepairInput>, i: nat)
    requires ValidRepairConfig(cfg) && i < |RepairRun(cfg, down, inputs).calls|
    ensures var c := RepairRun(cfg, down, inputs).calls[i];
            && c.tries <= cfg.net.maxAttempts
            && (Waiting(c.state) ==> c.tries < cfg.net.maxAttempts)
    ensures var l := Books(RepairRun(cfg, down, inputs).calls[i].trace);
            && l.verdicts <= 1
            && l.stallRounds <= 3
            && l.spaced
            && l.stallOffers <= 3 * StallBudget(cfg)
  {
    RunsKeepOk(cfg, down, inputs);
    var c := RepairRun(cfg, down, inputs).calls[i];
    assert CallOk(c, cfg);
    var b := StallBudget(cfg);
    var l := Books(c.trace);
    assert Quota(b, 3) == b + Quota(b, 2) && Quota(b, 2) == b + Quota(b, 1) && Quota(b, 1) == b + Quota(b, 0);
    if c.stall { QuotaStep(b, l.stallRounds); }
    assert l.stallOffers <= Quota(b, l.stallRounds);
    assert l.stallRounds == 0 || l.stallRounds == 1 || l.stallRounds == 2 || l.stallRounds == 3;
  }

  // ---------------------------------------------------------------------
  // Nothing is stranded
  // ---------------------------------------------------------------------

  /** Every call still owed a verdict carries the current generation, and the
    timer that will look at it is running. */
  predicate NotStranded(n: Netmon) {
    forall i :: 0 <= i < |n.calls| && Pending(n.calls[i].state) ==> n.calls[i].gen == n.mon.gen && n.verify.Armed?
  }

  lemma PendingIsSeen(calls: seq<Call>, gen: nat, cfg: RepairConfig, i: nat)
    requires i < |calls| && calls[i].gen == gen && Pending(calls[i].state)
    ensures PendingTick(calls, gen, cfg).Some?
  {
    var n := |calls| - 1;
    if i < n { PendingIsSeen(calls[..n], gen, cfg, i); }
  }

  lemma ArmSeesPending(calls: seq<Call>, gen: nat, cfg: RepairConfig, verify: Timer, i: nat)
    requires i < |calls| && i < SNAP_MAX && calls[i].gen == gen && Pending(calls[i].state)
    ensures ArmVerify(calls, gen, cfg, verify).Armed?
  {
    assert Snapshot(calls)[i] == calls[i];
    PendingIsSeen(Snapshot(calls), gen, cfg, i);
  }

  lemma ArmSeesOnlyPending(calls: seq<Call>, gen: nat, cfg: RepairConfig)
    requires forall i :: 0 <= i < |calls| && i < SNAP_MAX ==> !Pending(calls[i].state)
    ensures ArmVerify(calls, gen, cfg, Stopped) == Stopped
  {
    VerifyTickIsTheSoonest(Snapshot(calls), gen, cfg);
  }

  /** The step strands a call: a handover completes and someone still pending is
    not re-INVITEd, because that is off or because the snapshot does not reach so
    far; or the verify timer fires and, with a call pending beyond the snapshot,
    finds none pending within it. */
  predicate Strands(n: Netmon, cfg: RepairConfig, input: RepairInput) {
    match input
    case Network(ni, _) =>
      && Step(n.mon, cfg.net, ni).0.gen != n.mon.gen
      && exists i :: 0 <= i < |n.calls| && Pending(n.calls[i].state) && (!cfg.net.reinviteCalls || i >= SNAP_MAX)
    case VerifyTimer(envs) =>
      && n.verify.Armed?
      && (exists i :: SNAP_MAX <= i < |n.calls| && Pending(n.calls[i].state))
      && forall i :: 0 <= i < |n.calls| && i < SNAP_MAX ==>
           !Pending(Tick(n.calls[i], cfg, n.mon.gen, n.mon.handoverStart, envs(i)).state)
    case _ => false
  }

  lemma ResetStrandsExactly(n: Netmon, cfg: RepairConfig, input: RepairInput)
    requires ValidRepairConfig(cfg) && NotStranded(n) && input.Network?
    requires Step(n.mon, cfg.net, input.net).0.gen != n.mon.gen
    ensures NotStranded(RepairStep(n, cfg, input)) <==> !Strands(n, cfg, input)
  {
    hide Step, Start, FailAll, ArmVerify;
    GenNeverFalls(n.mon, cfg.net, input.net);
    ResetIsByOne(n.mon, cfg.net, input.net);
    MigratesWhenReset(n.mon, cfg.net, input.net);
    var mon := Step(n.mon, cfg.net, input.net).0;
    var n' := RepairStep(n, cfg, input);
    if cfg.net.reinviteCalls {
      forall i | 0 <= i < |n.calls| && i < SNAP_MAX && Pending(n'.calls[i].state)
        ensures n'.calls[i].gen == n'.mon.gen && n'.verify.Armed?
      {
        GensKept(n.calls[i], cfg, mon.gen, n.mon.handoverStart, input.envs(i));
        ArmSeesPending(n'.calls, mon.gen, cfg, n.verify, i);
      }
    }
    if Strands(n, cfg, input) {
      var i :| 0 <= i < |n.calls| && Pending(n.calls[i].state) && (!cfg.net.reinviteCalls || i >= SNAP_MAX);
      assert n'.calls[i] == n.calls[i];
    }
  }

  lemma ResetIsByOne(m: Monitor, cfg: Config, i: Input)
    ensures Step(m, cfg, i).0.gen != m.gen ==> Step(m, cfg, i).0.gen == m.gen + 1
  {
    hide ResetAnswered, BackoffMs;
    if i.SettleTimer? {
      ResetGen(ReportLink(m.(settle := Stopped), i.use).0.(waitTicks := 0), cfg, i.resetOk);
    }
  }

  lemma OtherNetworkStrandsNothing(n: Netmon, cfg: RepairConfig, input: RepairInput)
    requires ValidRepairConfig(cfg) && NotStranded(n) && input.Network?
    requires Step(n.mon, cfg.net, input.net).0.gen == n.mon.gen
    ensures NotStranded(RepairStep(n, cfg, input))
  {
    hide Step, StartAll, FailCall, ArmVerify;
    GenNeverFalls(n.mon, cfg.net, input.net);
    var n' := RepairStep(n, cfg, input);
    forall i | 0 <= i < |n'.calls| && Pending(n'.calls[i].state)
      ensures n'.calls[i].gen == n'.mon.gen && n'.verify.Armed?
    {
      FailShape(if n.calls[i].start == 0 then n.calls[i].(start := n.mon.handoverStart) else n.calls[i], cfg);
      assert n'.calls[i] == n.calls[i];
    }
  }

  lemma TickStrandsExactly(n: Netmon, cfg: RepairConfig, input: RepairInput)
    requires ValidRepairConfig(cfg) && NotStranded(n) && input.VerifyTimer? && n.verify.Armed?
    ensures NotStranded(RepairStep(n, cfg, input)) <==> !Strands(n, cfg, input)
  {
    hide Tick, ArmVerify;
    var n' := RepairStep(n, cfg, input);
    forall i | 0 <= i < |n'.calls| && Pending(n'.calls[i].state) ensures n'.calls[i].gen == n'.mon.gen {
      GensKept(n.calls[i], cfg, n.mon.gen, n.mon.handoverStart, input.envs(i));
      if i < SNAP_MAX { TickClaimsNothing(n.calls[i], cfg, n.mon.gen, n.mon.handoverStart, input.envs(i)); }
    }
    assert forall i :: 0 <= i < |n.calls| ==>
             n'.calls[i] == if i < SNAP_MAX then Tick(n.calls[i], cfg, n.mon.gen, n.mon.handoverStart, input.envs(i))
                            else n.calls[i];
    if i :| 0 <= i < |n'.calls| && i < SNAP_MAX && Pending(n'.calls[i].state) {
      ArmSeesPending(n'.calls, n.mon.gen, cfg, Stopped, i);
    } else {
      ArmSeesOnlyPending(n'.calls, n.mon.gen, cfg);
      if i :| SNAP_MAX <= i < |n.calls| && Pending(n.calls[i].state) {
        assert Pending(n'.calls[i].state) && !n'.verify.Armed?;
      }
    }
  }

  /** A tick leaves pending only what was. */
  lemma TickClaimsNothing(c: Call, cfg: RepairConfig, gen: nat, hs: nat, e: Env)
    requires Pending(Tick(c, cfg, gen, hs, e).state)
    ensures Pending(c.state)
  {
    hide Start, Send, Judge, FailCall;
  }

  lemma OneCallStrandsNothing(n: Netmon, cfg: RepairConfig, input: RepairInput)
    requires NotStranded(n) && !input.Network? && !input.VerifyTimer?
    ensures NotStranded(RepairStep(n, cfg, input))
  {
    hide Step, Perform, TickAll, ArmVerify;
    if input.CallRemoved? && input.i < |n.calls| {
      var n' := RepairStep(n, cfg, input);
      forall k | 0 <= k < |n'.calls| && Pending(n'.calls[k].state)
        ensures n'.calls[k].gen == n'.mon.gen && n'.verify.Armed?
      {
        assert n'.calls[k] == n.calls[if k < input.i then k else k + 1];
      }
    }
  }

  /** A step strands a call if and only if it is of those two kinds. */
  lemma {:induction false} StrandsExactly(n: Netmon, cfg: RepairConfig, input: RepairInput)
    requires ValidRepairConfig(cfg) && NotStranded(n)
    ensures NotStranded(RepairStep(n, cfg, input)) <==> !Strands(n, cfg, input)
  {
    hide NotStranded, Tick, Step, Perform;
    match input
    case Network(ni, _) =>
      if Step(n.mon, cfg.net, ni).0.gen == n.mon.gen { OtherNetworkStrandsNothing(n, cfg, input); }
      else { ResetStrandsExactly(n, cfg, input); }
    case VerifyTimer(_) => if n.verify.Armed? { TickStrandsExactly(n, cfg, input); }
    case _ => OneCallStrandsNothing(n, cfg, input);
  }

  /** No prefix of the run has more calls than a snapshot holds. */
  predicate WithinSnapshot(cfg: RepairConfig, down: bool, inputs: Log<RepairInput>) {
    && |RepairRun(cfg, down, inputs).calls| <= SNAP_MAX
    && (inputs.Then? ==> WithinSnapshot(cfg, down, inputs.past))
  }

  /** With re-INVITEs on and never more than 64 calls, no run strands a call. */
  lemma {:induction false} NoCallIsStranded(cfg: RepairConfig, down: bool, inputs: Log<RepairInput>)
    requires ValidRepairConfig(cfg) && cfg.net.reinviteCalls && WithinSnapshot(cfg, down, inputs)
    ensures NotStranded(RepairRun(cfg, down, inputs))
  {
    hide RepairStep, Step, Tick;
    match inputs
    case Empty =>
    case Then(past, input) =>
      NoCallIsStranded(cfg, down, past);
      StrandsExactly(RepairRun(cfg, down, past), cfg, input);
  }

  // ---------------------------------------------------------------------
  // Address rotation
  // ---------------------------------------------------------------------

  lemma PickFinds(locals: seq<Addr>, af: nat, tried: seq<Addr>)
    ensures match Pick(locals, af, tried)
            case Some(a) => a in locals && a.af == af && a !in tried
            case None => forall a :: a in locals && a.af == af ==> a in tried
  {
  }

  /** `k` is the first address of the family that is not in `tried`, or past the
    end when there is none. */
  predicate FirstUntried(locals: seq<Addr>, af: nat, tried: seq<Addr>, k: nat) {
    && k <= |locals| && (k < |locals| ==> locals[k].af == af && locals[k] !in tried)
    && forall j :: 0 <= j < k ==> locals[j].af != af || locals[j] in tried
  }

  lemma PickIsFirst(locals: seq<Addr>, af: nat, tried: seq<Addr>, k: nat)
    requires FirstUntried(locals, af, tried, k)
    ensures Pick(locals, af, tried) == if k < |locals| then Some(locals[k]) else None
  {
    if k > 0 { PickIsFirst(locals[1..], af, tried, k - 1); }
  }

  /** A rotating retry stays on the address in hand if and only if that is the
    first one the record does not hold, or the record holds them all and it is
    the first of its family (`k`, `f`).  The record holds the one in hand, unless
    it was full of others: so there are two ways to stay, `RepeatedOffer` and
    `FifthAddressSticks`.  Whenever the record misses one,
    the first such is offered next. */
  lemma {:induction false} RetryMovesExactly(c: Call, e: Env, k: nat, f: nat)
    requires c.laddr.Some? && Rotates(c)
    requires FirstUntried(e.locals, c.laddr.value.af, Remember(c).tried, k)
    requires FirstUntried(e.locals, c.laddr.value.af, [], f)
    ensures Rotate(c, e).laddr == c.laddr <==>
              if k < |e.locals| then e.locals[k] == c.laddr.value
              else f < |e.locals| ==> e.locals[f] == c.laddr.value
    ensures k < |e.locals| ==> Rotate(c, e).laddr == Some(e.locals[k])
    ensures c.laddr.value in Remember(c).tried <==> c.laddr.value in c.tried || |c.tried| < MAX_CAND
  {
    hide Pick;
    PickIsFirst(e.locals, c.laddr.value.af, Remember(c).tried, k);
    PickIsFirst(e.locals, c.laddr.value.af, [], f);
  }

  /** The record is full, and holds every local address of the family but the one
    in hand. */
  predicate FifthInHand(c: Call, locals: seq<Addr>) {
    && c.laddr.Some? && |c.tried| == MAX_CAND && c.laddr.value !in c.tried && c.laddr.value in locals
    && forall a :: a in locals && a.af == c.laddr.value.af && a != c.laddr.value ==> a in c.tried
  }

  /** Rotation is fair for at most four addresses: with a fifth in hand the record
    cannot take it, every retry finds it untried, and it is offered again on
    every attempt that is left. */
  lemma {:induction false} FifthAddressSticks(c: Call, cfg: RepairConfig, e: Env)
    requires FifthInHand(c, e.locals) && Rotates(c)
    ensures Rotate(c, e) == c
    ensures Retry(c, cfg, e).laddr == c.laddr && Retry(c, cfg, e).tried == c.tried
    ensures FifthInHand(Retry(c, cfg, e), e.locals)
  {
    hide Pick;
    PickFinds(e.locals, c.laddr.value.af, c.tried);
    assert Rotate(c, e) == c;
    SendKeepsAddress(c, cfg, e);
    hide Send, Rotate;
  }

  lemma SendKeepsAddress(c: Call, cfg: RepairConfig, e: Env)
    requires |c.tried| == MAX_CAND
    ensures Send(c, cfg, e).laddr == c.laddr && Send(c, cfg, e).tried == c.tried
  {
    hide Reoffer;
    if c.live && e.refreshable {
      var d := Remember(c.(rxAtMig := e.rx, tries := c.tries + 1));
      ReofferKeepsAddress(d, cfg, e);
      ReofferKeepsAddress(Tell(d.(staleSent := true), IceStale), cfg, e);
    }
  }

  lemma ReofferKeepsAddress(c: Call, cfg: RepairConfig, e: Env)
    ensures Reoffer(c, cfg, e).laddr == c.laddr && Reoffer(c, cfg, e).tried == c.tried
  {
    hide MaxAttemptsFor, VerifyTickFor, FailCall;
    FailKeepsAddress(c, cfg);
  }

  lemma FailKeepsAddress(c: Call, cfg: RepairConfig)
    ensures FailCall(c, cfg).laddr == c.laddr && FailCall(c, cfg).tried == c.tried
  {
  }

  // ---------------------------------------------------------------------
  // The shared clock
  // ---------------------------------------------------------------------

  /** The shared verify timer is set for the most impatient pending call: no
    later than any call's own clock, and exactly one of them. */
  lemma {:induction false} VerifyTickIsTheSoonest(calls: seq<Call>, gen: nat, cfg: RepairConfig)
    ensures var t := PendingTick(calls, gen, cfg);
            if t.None? then forall i :: 0 <= i < |calls| && calls[i].gen == gen ==> !Pending(calls[i].state)
            else
              && (forall i :: 0 <= i < |calls| && calls[i].gen == gen && Pending(calls[i].state) ==>
                    t.value <= VerifyTickFor(calls[i].stall, cfg))
              && (exists i :: 0 <= i < |calls| && calls[i].gen == gen && Pending(calls[i].state)
                    && t.value == VerifyTickFor(calls[i].stall, cfg))
  {
    if calls != [] {
      var n := |calls| - 1;
      var rest := calls[..n];
      VerifyTickIsTheSoonest(rest, gen, cfg);
      var t := PendingTick(calls, gen, cfg);
      var r := PendingTick(rest, gen, cfg);
      assert forall i :: 0 <= i < n ==> rest[i] == calls[i];
      if t.Some? {
        if t == r {
          var i :| 0 <= i < n && rest[i].gen == gen && Pending(rest[i].state)
                    && r.value == VerifyTickFor(rest[i].stall, cfg);
          assert calls[i].gen == gen && Pending(calls[i].state) && t.value == VerifyTickFor(calls[i].stall, cfg);
        } else {
          assert calls[n].gen == gen && Pending(calls[n].state) && t.value == VerifyTickFor(calls[n].stall, cfg);
        }
      }
    }
  }
}
