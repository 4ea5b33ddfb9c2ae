/** The NAPTR to SRV lookup chain of src/dns.c (section 4 of RFC 3263).

  The resolver answers asynchronously and in any order, and any query may fail
  to launch; the lookup completes exactly once with an ordered target list. */
module DnsLookup {
  import opened History
  import opened CStrings

  const MAX_TARGETS: nat := 16
  const MAX_SRV: nat := 8
  const HOST_MAX: nat := 255

  datatype Transport = Udp | Tcp | Tls | Ws | Wss

  datatype Target = Target(transport: Transport, host: string, port: nat, priority: nat, weight: nat)

  function DefaultPort(t: Transport): nat {
    match t
    case Tls => 5061
    case Ws => 80
    case Wss => 443
    case _ => 5060
  }

  function SrvPrefix(t: Transport): string {
    match t
    case Tls => "_sips._tcp."
    case Tcp => "_sip._tcp."
    case Ws => "_sip._tcp."
    case Wss => "_sips._tcp."
    case Udp => "_sip._udp."
  }

  /** str_ncpy into a 256-byte buffer. */
  function Ncpy(s: string): string {
    Take(s, HOST_MAX + 1)
  }

  // ---------------------------------------------------------------------
  // The order in which a client must try the targets
  // ---------------------------------------------------------------------

  /** `a` belongs strictly after `b`: higher priority value, or equal priority
    and lighter weight. */
  predicate Follows(a: Target, b: Target) {
    a.priority > b.priority || (a.priority == b.priority && a.weight < b.weight)
  }

  /** `a` may be tried before `b`: a lower priority value, or the same and no less
    weight. */
  predicate Precedes(a: Target, b: Target) {
    a.priority < b.priority || (a.priority == b.priority && a.weight >= b.weight)
  }

  predicate Ordered(s: seq<Target>) {
    forall i, j :: 0 <= i < j < |s| ==> Precedes(s[i], s[j])
  }

  predicate SameRank(a: Target, b: Target) {
    a.priority == b.priority && a.weight == b.weight
  }

  /** The targets that rank like `k`, in their order. */
  function Ranked(s: seq<Target>, k: Target): seq<Target> {
    if s == [] then []
    else
      var n := |s| - 1;
      Ranked(s[..n], k) + if SameRank(s[n], k) then [s[n]] else []
  }

  /** One pass of the insertion sort: walk left past everything that follows. */
  function Insert(s: seq<Target>, x: Target): (r: seq<Target>)
    ensures |r| == |s| + 1
  {
    if s == [] || !Follows(s[|s| - 1], x) then s + [x]
    else Insert(s[..|s| - 1], x) + [s[|s| - 1]]
  }

  function Sort(s: seq<Target>): (r: seq<Target>)
    ensures |r| == |s|
  {
    if s == [] then [] else Insert(Sort(s[..|s| - 1]), s[|s| - 1])
  }

  lemma {:induction false} InsertMembers(s: seq<Target>, x: Target, y: Target)
    ensures y in Insert(s, x) <==> y in s || y == x
  {
    if s != [] && Follows(s[|s| - 1], x) {
      InsertMembers(s[..|s| - 1], x, y);
      assert s == s[..|s| - 1] + [s[|s| - 1]];
    }
  }

  lemma {:induction false} InsertOrdered(s: seq<Target>, x: Target)
    requires Ordered(s)
    ensures Ordered(Insert(s, x))
  {
    if s == [] {
    } else if !Follows(s[|s| - 1], x) {
      var r := s + [x];
      forall i, j | 0 <= i < j < |r| ensures Precedes(r[i], r[j]) {
        if j == |s| && i < |s| - 1 { assert Precedes(s[i], s[|s| - 1]); }
      }
    } else {
      var n := |s| - 1;
      var r := Insert(s[..n], x);
      InsertOrdered(s[..n], x);
      forall i | 0 <= i < |r| ensures Precedes(r[i], s[n]) {
        InsertMembers(s[..n], x, r[i]);
        if r[i] != x {
          var k :| 0 <= k < n && s[k] == r[i];
          assert Precedes(s[k], s[n]);
        }
      }
      var whole := r + [s[n]];
      forall i, j | 0 <= i < j < |whole| ensures Precedes(whole[i], whole[j]) {
        if j < |r| { assert Precedes(r[i], r[j]); }
      }
    }
  }

  lemma RankedStep(s: seq<Target>, y: Target, k: Target)
    ensures Ranked(s + [y], k) == Ranked(s, k) + if SameRank(y, k) then [y] else []
  {
    assert (s + [y])[..|s|] == s;
  }

  lemma {:induction false} InsertStable(s: seq<Target>, x: Target, k: Target)
    ensures Ranked(Insert(s, x), k) == Ranked(s, k) + if SameRank(x, k) then [x] else []
  {
    if s == [] || !Follows(s[|s| - 1], x) {
      RankedStep(s, x, k);
    } else {
      var n := |s| - 1;
      InsertStable(s[..n], x, k);
      RankedStep(Insert(s[..n], x), s[n], k);
      assert !SameRank(x, k) || !SameRank(s[n], k);
    }
  }

  /** sort_targets puts the targets in the required order and keeps, for every
    priority and weight, the targets of that rank exactly as they were: a stable
    permutation. */
  lemma {:induction false} SortOrdersStably(s: seq<Target>, k: Target)
    ensures Ordered(Sort(s))
    ensures Ranked(Sort(s), k) == Ranked(s, k)
  {
    if s != [] {
      var n := |s| - 1;
      SortOrdersStably(s[..n], k);
      InsertOrdered(Sort(s[..n]), s[n]);
      InsertStable(Sort(s[..n]), s[n], k);
    }
  }

  lemma {:induction false} RankedKeepsMembers(s: seq<Target>, k: Target)
    ensures forall y :: y in Ranked(s, k) <==> y in s && SameRank(y, k)
  {
    if s != [] {
      var n := |s| - 1;
      RankedKeepsMembers(s[..n], k);
      assert s == s[..n] + [s[n]];
    }
  }

  /** The last of one list is somewhere in the other. */
  lemma LastIsShared(a: seq<Target>, b: seq<Target>)
    requires a != [] && forall k :: Ranked(a, k) == Ranked(b, k)
    ensures a[|a| - 1] in b
  {
    hide Ranked;
    var x := a[|a| - 1];
    RankedKeepsMembers(a, x);
    RankedKeepsMembers(b, x);
    assert x in Ranked(a, x);
  }

  /** Nothing in an ordered list belongs after its last target. */
  lemma LastIsLast(s: seq<Target>, x: Target)
    requires Ordered(s) && x in s
    ensures x == s[|s| - 1] || Precedes(x, s[|s| - 1])
  {
  }

  lemma RankedLast(s: seq<Target>, k: Target)
    requires s != []
    ensures Ranked(s, k) ==
            Ranked(s[..|s| - 1], k) + if SameRank(s[|s| - 1], k) then [s[|s| - 1]] else []
  {
  }

  lemma LastIsSame(a: seq<Target>, b: seq<Target>)
    requires Ordered(a) && Ordered(b) && a != []
    requires forall k :: Ranked(a, k) == Ranked(b, k)
    ensures b != [] && a[|a| - 1] == b[|b| - 1]
  {
    hide Ranked, Ordered;
    LastIsShared(a, b);
    LastIsShared(b, a);
    var x, y := a[|a| - 1], b[|b| - 1];
    LastIsLast(b, x);
    LastIsLast(a, y);
    assert SameRank(x, y);
    RankedLast(a, x);
    RankedLast(b, x);
    assert Ranked(a, x) == Ranked(b, x);
    var ra := Ranked(a, x);
    assert ra[|ra| - 1] == x && ra[|ra| - 1] == y;
  }

  /** The result is the only one: an ordered list with the same targets in the
    same order within each rank is the sorted list. */
  lemma {:induction false} OrderIsUnique(a: seq<Target>, b: seq<Target>)
    requires Ordered(a) && Ordered(b) && forall k :: Ranked(a, k) == Ranked(b, k)
    ensures a == b
    decreases |a|
  {
    hide Ranked;
    if a == [] {
      if b != [] { LastIsSame(b, a); }
    } else {
      LastIsSame(a, b);
      var m, n := |a| - 1, |b| - 1;
      forall k ensures Ranked(a[..m], k) == Ranked(b[..n], k) {
        assert Ranked(a, k) == Ranked(b, k);
        RankedLast(a, k);
        RankedLast(b, k);
        if SameRank(a[m], k) {
          assert Ranked(a[..m], k) == Ranked(a, k)[..|Ranked(a, k)| - 1];
          assert Ranked(b[..n], k) == Ranked(b, k)[..|Ranked(b, k)| - 1];
        } else {
          assert Ranked(a[..m], k) == Ranked(a, k);
          assert Ranked(b[..n], k) == Ranked(b, k);
        }
      }
      OrderIsUnique(a[..m], b[..n]);
      assert a == a[..m] + [a[m]] && b == b[..n] + [b[n]];
    }
  }

  // ---------------------------------------------------------------------
  // The lookup
  // ---------------------------------------------------------------------

  datatype Slot = Slot(name: string, transport: Transport)

  /** An answer record as far as the handlers look at it. */
  datatype NaptrRecord = NaptrRecord(isNaptr: bool, flagS: bool, service: Option<Transport>, replace: string)
  datatype SrvRecord = SrvRecord(isSrv: bool, target: string, port: nat, priority: nat, weight: nat)

  /** Whether the query for one slot was allocated and accepted. */
  type Launches = nat -> bool

  /** One call of done_h. */
  datatype Done = Done(targets: seq<Target>, pending: nat)

  datatype Lookup = Lookup(
    domain: string, hint: Transport, portHint: nat,
    pending: nat,
    finished: bool,
    targets: seq<Target>,
    slots: seq<Slot>,
    naptrOut: bool,
    srvOut: seq<Slot>,
    calls: Log<Done>)

  /** vox_dns_resolve without an explicit port, its NAPTR query launched. */
  function Resolve(domain: string, hint: Transport): Lookup {
    Lookup(Ncpy(domain), hint, 0, 1, false, [], [], true, [], Empty)
  }

  /** vox_dns_resolve: an explicit port is answered at once (section 4 of
    RFC 3263), otherwise the NAPTR query goes out or the call fails. */
  datatype Begun = Refused | Answered(done: Done) | Waiting(lookup: Lookup)

  function Begin(domain: string, hint: Transport, port: nat, launched: bool): Begun {
    if port > 0 then Answered(Done([Target(hint, Ncpy(domain), port, 0, 0)], 0))
    else if launched then Waiting(Resolve(domain, hint))
    else Refused
  }

  function AddResult(lk: Lookup, t: Target): Lookup {
    if |lk.targets| >= MAX_TARGETS then lk else lk.(targets := lk.targets + [t.(host := Ncpy(t.host))])
  }

  function Finish(lk: Lookup): Lookup {
    if lk.finished then lk
    else lk.(finished := true, calls := Then(lk.calls, Done(Sort(lk.targets), lk.pending)))
  }

  predicate UsableNaptr(r: NaptrRecord) {
    r.isNaptr && r.flagS && r.service.Some?
  }

  /** The SRV names taken from the NAPTR answer, up to the table size. */
  function CollectSlots(slots: seq<Slot>, rs: seq<NaptrRecord>): seq<Slot>
    decreases |rs|
  {
    if rs == [] then slots
    else if !UsableNaptr(rs[0]) then CollectSlots(slots, rs[1..])
    else if |slots| >= MAX_SRV then slots
    else CollectSlots(slots + [Slot(Ncpy(rs[0].replace), rs[0].service.value)], rs[1..])
  }

  function FallbackSlot(lk: Lookup): Slot {
    Slot(Ncpy(SrvPrefix(lk.hint) + lk.domain), lk.hint)
  }

  function FallbackTarget(lk: Lookup): Target {
    Target(lk.hint, lk.domain, if lk.portHint != 0 then lk.portHint else DefaultPort(lk.hint), 0, 0)
  }

  /** The queries that went out for the first `n` slots. */
  function Launched(slots: seq<Slot>, n: nat, launches: Launches): seq<Slot>
    requires n <= |slots|
  {
    if n == 0 then []
    else Launched(slots, n - 1, launches) + if launches(n - 1) then [slots[n - 1]] else []
  }

  function StartSrv(lk: Lookup, launches: Launches): Lookup {
    var out := Launched(lk.slots, |lk.slots|, launches);
    var lk := lk.(srvOut := lk.srvOut + out, pending := lk.pending + |out|);
    if out != [] then lk
    else
      var lk := AddResult(lk, FallbackTarget(lk));
      if lk.pending == 0 then Finish(lk) else lk
  }

  function NaptrAnswer(lk: Lookup, answer: Option<seq<NaptrRecord>>, launches: Launches): Lookup
    requires lk.pending > 0
  {
    var slots := if answer.Some? then CollectSlots(lk.slots, answer.value) else lk.slots;
    var slots := if |slots| > |lk.slots| || |lk.slots| >= MAX_SRV then slots else slots + [FallbackSlot(lk)];
    StartSrv(lk.(slots := slots, naptrOut := false, pending := lk.pending - 1), launches)
  }

  predicate UsableSrv(r: SrvRecord) {
    r.isSrv && r.target != "."
  }

  function AddAll(lk: Lookup, t: Transport, rs: seq<SrvRecord>): Lookup
    decreases |rs|
  {
    if rs == [] then lk
    else if !UsableSrv(rs[0]) then AddAll(lk, t, rs[1..])
    else AddAll(AddResult(lk, Target(t, rs[0].target, rs[0].port, rs[0].priority, rs[0].weight)), t, rs[1..])
  }

  predicate AnyUsable(rs: seq<SrvRecord>) {
    exists i :: 0 <= i < |rs| && UsableSrv(rs[i])
  }

  function SrvAnswer(lk: Lookup, k: nat, answer: Option<seq<SrvRecord>>): Lookup
    requires k < |lk.srvOut| && lk.pending > 0
  {
    var t := lk.srvOut[k].transport;
    var got :=
      if answer.Some? && AnyUsable(answer.value) then AddAll(lk, t, answer.value)
      else AddResult(lk, Target(t, lk.domain, DefaultPort(t), 0, 0));
    var got := got.(srvOut := lk.srvOut[..k] + lk.srvOut[k + 1..], pending := lk.pending - 1);
    if got.pending == 0 then Finish(got) else got
  }

  // ---------------------------------------------------------------------
  // Every order of answers
  // ---------------------------------------------------------------------

  datatype Reply =
    | Naptr(records: Option<seq<NaptrRecord>>, launches: Launches)
    | Srv(query: nat, answers: Option<seq<SrvRecord>>)

  predicate Expected(lk: Lookup, r: Reply) {
    match r
    case Naptr(_, _) => lk.naptrOut && lk.pending > 0
    case Srv(k, _) => k < |lk.srvOut| && lk.pending > 0
  }

  function Step(lk: Lookup, r: Reply): Lookup
    requires Expected(lk, r)
  {
    match r
    case Naptr(answer, launches) => NaptrAnswer(lk, answer, launches)
    case Srv(k, answer) => SrvAnswer(lk, k, answer)
  }

  function Run(domain: string, hint: Transport, replies: Log<Reply>): Lookup {
    match replies
    case Empty => Resolve(domain, hint)
    case Then(past, r) =>
      var lk := Run(domain, hint, past);
      if Expected(lk, r) then Step(lk, r) else lk
  }

  /** Queries still on their way. */
  function Outstanding(lk: Lookup): nat {
    |lk.srvOut| + if lk.naptrOut then 1 else 0
  }

  /** The counter counts the outstanding queries, and completion is exactly their
    exhaustion: one call, made with nothing pending, of 1 to 16 targets. */
  predicate Consistent(lk: Lookup) {
    && lk.pending == Outstanding(lk)
    && (lk.naptrOut ==> lk.srvOut == [] && lk.slots == [])
    && |lk.targets| <= MAX_TARGETS
    && (lk.finished <==> Outstanding(lk) == 0)
    && (if lk.finished then
          lk.calls == Then(Empty, Done(Sort(lk.targets), 0)) && 1 <= |lk.targets|
        else lk.calls == Empty)
  }

  lemma {:induction false} AddAllGrows(lk: Lookup, t: Transport, rs: seq<SrvRecord>)
    requires |lk.targets| <= MAX_TARGETS
    ensures var r := AddAll(lk, t, rs);
            && r == lk.(targets := r.targets)
            && |lk.targets| <= |r.targets| <= MAX_TARGETS
            && (if AnyUsable(rs) then 1 <= |r.targets| else r == lk)
    decreases |rs|
  {
    if rs != [] {
      if !UsableSrv(rs[0]) {
        AddAllGrows(lk, t, rs[1..]);
        if AnyUsable(rs) {
          var i :| 0 <= i < |rs| && UsableSrv(rs[i]);
          assert rs[1..][i - 1] == rs[i];
        }
        assert AnyUsable(rs[1..]) ==> AnyUsable(rs);
      } else {
        AddAllGrows(AddResult(lk, Target(t, rs[0].target, rs[0].port, rs[0].priority, rs[0].weight)), t, rs[1..]);
      }
    }
  }

  lemma StepKeepsConsistent(lk: Lookup, r: Reply)
    requires Consistent(lk) && Expected(lk, r)
    ensures Consistent(Step(lk, r))
  {
    match r
    case Naptr(answer, launches) =>
    case Srv(k, answer) =>
      if answer.Some? { AddAllGrows(lk, lk.srvOut[k].transport, answer.value); }
  }

  /** Under every order of answers and launch failures the completion handler
    fires exactly when nothing is outstanding, exactly once, with the sorted
    targets. */
  lemma {:induction false} CompletesExactlyOnce(domain: string, hint: Transport, replies: Log<Reply>)
    ensures Consistent(Run(domain, hint, replies))
  {
    hide Step, Consistent;
    match replies
    case Empty => StartsConsistent(domain, hint);
    case Then(past, r) =>
      CompletesExactlyOnce(domain, hint, past);
      if Expected(Run(domain, hint, past), r) { StepKeepsConsistent(Run(domain, hint, past), r); }
  }

  /** The completions of one call of vox_dns_resolve, after any replies. */
  function Completions(domain: string, hint: Transport, port: nat, launched: bool, replies: Log<Reply>): Log<Done> {
    match Begin(domain, hint, port, launched)
    case Refused => Empty
    case Answered(done) => Then(Empty, done)
    case Waiting(_) => Run(domain, hint, replies).calls
  }

  /** A call that returns success completes once and only once: at once for an
    explicit port, else when the last outstanding query is answered. A call that
    returns an error never completes. The list given is 1 to 16 targets in the
    required order. */
  lemma {:induction false} EveryResolveCompletesOnce(domain: string, hint: Transport, port: nat, launched: bool, replies: Log<Reply>)
    ensures var calls := Completions(domain, hint, port, launched, replies);
            match Begin(domain, hint, port, launched)
            case Refused => calls == Empty
            case Answered(_) => Length(calls) == 1
            case Waiting(_) => Length(calls) == if Outstanding(Run(domain, hint, replies)) == 0 then 1 else 0
    ensures var calls := Completions(domain, hint, port, launched, replies);
            calls.Then? ==> 1 <= |calls.last.targets| <= MAX_TARGETS && Ordered(calls.last.targets) && calls.last.pending == 0
  {
    hide Step, Sort;
    var lk := Run(domain, hint, replies);
    CompletesExactlyOnce(domain, hint, replies);
    if lk.targets != [] { SortOrdersStably(lk.targets, lk.targets[0]); }
  }

  lemma StartsConsistent(domain: string, hint: Transport)
    ensures Consistent(Resolve(domain, hint))
  {
  }

  /** Each expected reply brings completion nearer: at most one NAPTR and eight
    SRV answers are needed. */
  function Distance(lk: Lookup): nat {
    |lk.srvOut| + if lk.naptrOut then MAX_SRV + 1 else 0
  }

  lemma {:induction false} CollectBounded(slots: seq<Slot>, rs: seq<NaptrRecord>)
    requires |slots| <= MAX_SRV
    ensures |slots| <= |CollectSlots(slots, rs)| <= MAX_SRV
    decreases |rs|
  {
    if rs != [] {
      if !UsableNaptr(rs[0]) { CollectBounded(slots, rs[1..]); }
      else if |slots| < MAX_SRV { CollectBounded(slots + [Slot(Ncpy(rs[0].replace), rs[0].service.value)], rs[1..]); }
    }
  }

  lemma {:induction false} LaunchedBounded(slots: seq<Slot>, n: nat, launches: Launches)
    requires n <= |slots|
    ensures |Launched(slots, n, launches)| <= n
  {
    if n > 0 { LaunchedBounded(slots, n - 1, launches); }
  }

  lemma {:induction false} RepliesConverge(lk: Lookup, r: Reply)
    requires Consistent(lk) && Expected(lk, r)
    ensures Distance(Step(lk, r)) < Distance(lk)
  {
    hide Sort;
    match r
    case Naptr(answer, launches) =>
      NamesAreFew(lk, answer);
      var slots := if answer.Some? then CollectSlots(lk.slots, answer.value) else lk.slots;
      var all := if |slots| > 0 then slots else slots + [FallbackSlot(lk)];
      hide CollectSlots, FallbackSlot;
      LaunchedBounded(all, |all|, launches);
      var started := lk.(slots := all, naptrOut := false, pending := lk.pending - 1);
      assert Step(lk, r) == StartSrv(started, launches);
      StartKeepsQueries(started, launches);
      hide StartSrv, Step;
    case Srv(k, answer) =>
      if answer.Some? { AddAllGrows(lk, lk.srvOut[k].transport, answer.value); }
  }

  lemma NamesAreFew(lk: Lookup, answer: Option<seq<NaptrRecord>>)
    requires lk.slots == []
    ensures var slots := if answer.Some? then CollectSlots(lk.slots, answer.value) else lk.slots;
            |if |slots| > 0 then slots else slots + [FallbackSlot(lk)]| <= MAX_SRV
  {
    if answer.Some? { CollectBounded([], answer.value); }
  }

  lemma StartKeepsQueries(lk: Lookup, launches: Launches)
    ensures StartSrv(lk, launches).srvOut == lk.srvOut + Launched(lk.slots, |lk.slots|, launches)
    ensures StartSrv(lk, launches).naptrOut == lk.naptrOut
  {
    hide Launched, Sort;
  }

  // ---------------------------------------------------------------------
  // The handlers as they run
  // ---------------------------------------------------------------------

  /** sort_targets on the first `n` entries of the result buffer. */
  method SortTargets(a: array<Target>, n: nat)
    requires n <= a.Length
    modifies a
    ensures a[..n] == Sort(old(a[..n]))
    ensures a[n..] == old(a[n..])
  {
    ghost var was := a[..];
    for i := 0 to n
      invariant a[..i] == Sort(was[..i])
      invariant a[i..] == was[i..]
    {
      var tmp := a[i];
      ghost var prefix := a[..i];
      InsertInto(a, i, tmp);
      assert was[..i + 1][..i] == was[..i];
    }
  }

  /** One pass: shift right what follows `tmp`, then drop it in. */
  method InsertInto(a: array<Target>, i: nat, tmp: Target)
    requires i < a.Length && a[i] == tmp
    modifies a
    ensures a[..i + 1] == Insert(old(a[..i]), tmp)
    ensures a[i + 1..] == old(a[i + 1..])
  {
    ghost var prefix := a[..i];
    var j := i;
    while j > 0 && Follows(a[j - 1], tmp)
      invariant j <= i
      invariant a[..j] == prefix[..j]
      invariant a[j + 1..i + 1] == prefix[j..]
      invariant a[i + 1..] == old(a[i + 1..])
      invariant Insert(prefix, tmp) == Insert(prefix[..j], tmp) + prefix[j..]
    {
      assert prefix[..j][..j - 1] == prefix[..j - 1];
      assert prefix[..j][j - 1] == a[j - 1] == prefix[j - 1];
      assert [prefix[j - 1]] + prefix[j..] == prefix[j - 1..];
      a[j] := a[j - 1];
      assert a[j..i + 1] == [a[j]] + a[j + 1..i + 1];
      j := j - 1;
    }
    assert j > 0 ==> prefix[..j][j - 1] == a[j - 1];
    a[j] := tmp;
    assert a[..i + 1] == a[..j] + [tmp] + a[j + 1..i + 1];
  }

  class DnsQuery {
    const domain: string
    const hint: Transport
    const buffer: array<Target>
    var count: nat
    var pending: nat
    var finished: bool
    var slots: seq<Slot>
    var naptrOut: bool
    var srvOut: seq<Slot>
    var calls: Log<Done>

    /** The result buffer is private to the lookup and full to `count`. */
    ghost predicate Valid()
      reads this, buffer
    {
      buffer.Length == MAX_TARGETS && count <= MAX_TARGETS
    }

    ghost function View(): Lookup
      reads this, buffer
      requires Valid()
    {
      Lookup(domain, hint, 0, pending, finished, buffer[..count], slots, naptrOut, srvOut, calls)
    }

    /** The object holds `lk`, whose targets completion has put in order. */
    ghost predicate Reached(lk: Lookup)
      reads this, buffer
      requires Valid()
    {
      View() == if lk.finished then lk.(targets := Sort(lk.targets)) else lk
    }

    constructor (domain: string, hint: Transport)
      ensures Valid() && fresh(buffer) && View() == Resolve(domain, hint)
    {
      this.domain, this.hint := Ncpy(domain), hint;
      buffer := new Target[MAX_TARGETS](_ => Target(Udp, "", 0, 0, 0));
      count, pending, finished := 0, 1, false;
      slots, naptrOut, srvOut, calls := [], true, [], Empty;
    }

    method AddTarget(t: Target)
      requires Valid() && !finished
      modifies this`count, buffer
      ensures Valid() && View() == AddResult(old(View()), t)
    {
      if count >= MAX_TARGETS { return; }
      buffer[count] := t.(host := Ncpy(t.host));
      count := count + 1;
      assert buffer[..count] == old(buffer[..count]) + [t.(host := Ncpy(t.host))];
    }

    /** lookup_finish: sort in place and complete. */
    method Complete() returns (done: seq<Target>)
      requires Valid() && !finished
      modifies this`finished, this`calls, buffer
      ensures Valid() && finished && done == Sort(old(View()).targets)
      ensures calls == Finish(old(View())).calls && buffer[..count] == done
    {
      SortTargets(buffer, count);
      finished := true;
      done := buffer[..count];
      calls := Then(calls, Done(done, pending));
    }

    /** The NAPTR answer's usable names, first come first kept. */
    method CollectNames(rs: seq<NaptrRecord>)
      modifies this`slots
      ensures slots == CollectSlots(old(slots), rs)
    {
      var i := 0;
      while i < |rs|
        invariant i <= |rs|
        invariant CollectSlots(old(slots), rs) == CollectSlots(slots, rs[i..])
      {
        assert rs[i..][1..] == rs[i + 1..];
        if UsableNaptr(rs[i]) {
          if |slots| >= MAX_SRV { return; }
          slots := slots + [Slot(Ncpy(rs[i].replace), rs[i].service.value)];
        }
        i := i + 1;
      }
    }

    /** start_srv_queries up to its fallback: launch one query per name. */
    method LaunchAll(launches: Launches) returns (launched: nat)
      modifies this`srvOut, this`pending
      ensures srvOut == old(srvOut) + Launched(slots, |slots|, launches)
      ensures launched == |Launched(slots, |slots|, launches)| && pending == old(pending) + launched
    {
      launched := 0;
      for i := 0 to |slots|
        invariant srvOut == old(srvOut) + Launched(slots, i, launches)
        invariant launched == |Launched(slots, i, launches)| && pending == old(pending) + launched
      {
        if launches(i) {
          pending := pending + 1;
          srvOut := srvOut + [slots[i]];
          launched := launched + 1;
        }
      }
    }

    /** The record loop of srv_handler. */
    method AddRecords(t: Transport, rs: seq<SrvRecord>) returns (found: bool)
      requires Valid() && !finished
      modifies this`count, buffer
      ensures Valid() && View() == AddAll(old(View()), t, rs)
      ensures found == AnyUsable(rs)
    {
      found := false;
      var i := 0;
      while i < |rs|
        invariant i <= |rs| && Valid()
        invariant AddAll(old(View()), t, rs) == AddAll(View(), t, rs[i..])
        invariant found == exists k :: 0 <= k < i && UsableSrv(rs[k])
      {
        assert rs[i..][1..] == rs[i + 1..];
        if UsableSrv(rs[i]) {
          found := true;
          AddTarget(Target(t, rs[i].target, rs[i].port, rs[i].priority, rs[i].weight));
        }
        i := i + 1;
      }
    }

    /** start_srv_queries: when nothing could be launched, fall back and finish. */
    method StartQueries(launches: Launches) returns (done: seq<Target>)
      requires Valid() && !finished
      modifies this`srvOut, this`pending, this`count, this`finished, this`calls, buffer
      ensures Valid() && Reached(StartSrv(old(View()), launches))
    {
      hide Sort, Launched, DefaultPort, Ncpy;
      var launched := LaunchAll(launches);
      done := [];
      if launched == 0 {
        AddTarget(Target(hint, domain, DefaultPort(hint), 0, 0));
        if pending == 0 { done := Complete(); }
      }
    }

    /** naptr_handler. */
    method NaptrHandler(answer: Option<seq<NaptrRecord>>, launches: Launches)
      requires Valid() && !finished && naptrOut && pending > 0
      modifies this, buffer
      ensures Valid() && Reached(Step(old(View()), Naptr(answer, launches)))
    {
      hide Sort, Launched, CollectSlots, Ncpy, SrvPrefix, DefaultPort;
      var known := |slots|;
      if answer.Some? { CollectNames(answer.value); }
      if |slots| <= known && known < MAX_SRV {
        slots := slots + [Slot(Ncpy(SrvPrefix(hint) + domain), hint)];
      }
      naptrOut := false;
      pending := pending - 1;
      var _ := StartQueries(launches);
    }

    /** srv_handler. */
    method SrvHandler(k: nat, answer: Option<seq<SrvRecord>>)
      requires Valid() && !finished && k < |srvOut| && pending > 0
      modifies this, buffer
      ensures Valid() && Reached(Step(old(View()), Srv(k, answer)))
    {
      hide Sort, AnyUsable, AddAll;
      if answer.Some? { AddAllGrows(View(), srvOut[k].transport, answer.value); }
      var t, found := srvOut[k].transport, false;
      if answer.Some? { found := AddRecords(t, answer.value); }
      if !found { AddTarget(Target(t, domain, DefaultPort(t), 0, 0)); }
      srvOut := srvOut[..k] + srvOut[k + 1..];
      pending := pending - 1;
      if pending == 0 { var _ := Complete(); }
    }
  }
}
