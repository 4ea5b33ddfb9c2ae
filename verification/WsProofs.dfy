/** Connection pinning depends on which accounts are alive, not on the order in
  which they came and went, as long as the table never overflows. */
module WsProofs {
  import opened History
  import opened WsRegistry

  // ---------------------------------------------------------------------
  // One entry of the table
  // ---------------------------------------------------------------------

  predicate Distinct(slots: seq<Slot>) {
    forall i, j :: 0 <= i < j < |slots| && slots[i].refs > 0 && slots[j].refs > 0 ==>
      slots[i].claim != slots[j].claim
  }

  /** The live entry for `c`; blank when there is none. */
  function Entry(slots: seq<Slot>, c: Claim): Slot {
    var k := Find(slots, c);
    if k < |slots| then slots[k] else BLANK
  }

  lemma EntryAt(slots: seq<Slot>, k: nat)
    requires Distinct(slots) && k < |slots| && slots[k].refs > 0
    ensures Find(slots, slots[k].claim) == k
  {
    FindIsFirst(slots, slots[k].claim, k);
  }

  lemma EntryAfterUpdate(slots: seq<Slot>, k: nat, s: Slot, d: Claim)
    requires k < |slots| && Distinct(slots) && Distinct(slots[k := s])
    ensures Entry(slots[k := s], d) ==
            if Matches(s, d) then s else if Matches(slots[k], d) then BLANK else Entry(slots, d)
  {
    var after := slots[k := s];
    if Matches(s, d) {
      EntryAt(after, k);
    } else {
      var g := Find(after, d);
      if g < |after| {
        assert g != k && Matches(slots[g], d);
        EntryAt(slots, g);
        EntryAt(after, g);
        if Matches(slots[k], d) { EntryAt(slots, k); }
      } else {
        assert forall i :: 0 <= i < |after| ==> !Matches(after[i], d);
        assert forall i :: 0 <= i < |after| && i != k ==> after[i] == slots[i];
        if !Matches(slots[k], d) { FindIsFirst(slots, d, |slots|); }
      }
    }
  }

  function Used(slots: seq<Slot>): (n: nat)
    ensures n <= |slots|
  {
    if slots == [] then 0
    else Used(slots[..|slots| - 1]) + if slots[|slots| - 1].refs > 0 then 1 else 0
  }

  lemma {:induction false} UsedAfterUpdate(slots: seq<Slot>, k: nat, s: Slot)
    requires k < |slots|
    ensures Used(slots[k := s]) + (if slots[k].refs > 0 then 1 else 0)
            == Used(slots) + if s.refs > 0 then 1 else 0
  {
    var n := |slots| - 1;
    if k < n {
      UsedAfterUpdate(slots[..n], k, s);
      assert slots[k := s][..n] == slots[..n][k := s];
    } else {
      assert slots[k := s][..n] == slots[..n];
    }
  }

  lemma {:induction false} UsedBounds(slots: seq<Slot>)
    ensures Used(slots) == 0 <==> !InUse(slots)
    ensures Used(slots) == |slots| <==> forall i :: 0 <= i < |slots| ==> slots[i].refs > 0
  {
    if slots != [] {
      var n := |slots| - 1;
      UsedBounds(slots[..n]);
      assert forall i :: 0 <= i < n ==> slots[..n][i] == slots[i];
    }
  }

  // ---------------------------------------------------------------------
  // What every history keeps
  // ---------------------------------------------------------------------

  /** The pins are what the entries agree on, and an overflowed table pins no
    server. */
  ghost predicate PinsAgree(r: Registry) {
    && r.server == (if r.overflow then "" else Unanimous(Origins(r.slots)))
    && r.path == Unanimous(Paths(r.slots))
    && (r.overflow ==> InUse(r.slots))
  }

  predicate TableOk(slots: seq<Slot>, created: nat) {
    && |slots| == MAX_SERVERS
    && Distinct(slots)
    && forall i :: 0 <= i < |slots| ==> slots[i].born <= created
  }

  /** No claim is counted more often than accounts hold it. */
  ghost predicate Bounded(slots: seq<Slot>, live: multiset<Claim>) {
    forall c :: Entry(slots, c).refs <= live[c]
  }

  lemma RecomputeAgrees(r: Registry)
    ensures PinsAgree(Recompute(r)) && Recompute(r).slots == r.slots && Recompute(r).created == r.created
  {
    hide Unanimous;
    if !InUse(r.slots) && r.overflow {
      assert Origins(r.slots) == {};
      NothingIsUnanimous();
    }
  }

  lemma NothingIsUnanimous()
    ensures Unanimous({}) == ""
  {
    assert forall v: string :: v !in {} && v in {v};
  }

  /** The entry counts after a claim: one more for it, unless the table is full. */
  lemma ClaimedCounts(r: Registry, c: Claim)
    requires TableOk(r.slots, r.created) && Fits(c)
    ensures TableOk(Claimed(r, c).slots, Claimed(r, c).created)
    ensures forall d :: d != c ==> Entry(Claimed(r, c).slots, d) == Entry(r.slots, d)
    ensures Entry(r.slots, c).refs > 0 ==>
              && Entry(Claimed(r, c).slots, c) == Entry(r.slots, c).(refs := Entry(r.slots, c).refs + 1)
              && Used(Claimed(r, c).slots) == Used(r.slots)
    ensures Entry(r.slots, c).refs == 0 && Used(r.slots) < MAX_SERVERS ==>
              && Entry(Claimed(r, c).slots, c) == Slot(c, 1, r.created + 1)
              && Claimed(r, c).created == r.created + 1
              && Used(Claimed(r, c).slots) == Used(r.slots) + 1
    ensures Entry(r.slots, c).refs == 0 && Used(r.slots) == MAX_SERVERS ==>
              Claimed(r, c) == r.(overflow := true)
    ensures Claimed(r, c).overflow ==
            (r.overflow || (Entry(r.slots, c).refs == 0 && Used(r.slots) == MAX_SERVERS))
    ensures Entry(Claimed(r, c).slots, c).refs <= Entry(r.slots, c).refs + 1
  {
    hide Entry, Used;
    Present(r.slots, c);
    if Find(r.slots, c) < MAX_SERVERS { EntryIs(r.slots, c, Find(r.slots, c)); }
    var k, free := Find(r.slots, c), FreeSlot(r.slots);
    UsedBounds(r.slots);
    if k < MAX_SERVERS {
      SlotReplaced(r.slots, k, r.slots[k].(refs := r.slots[k].refs + 1), c, r.created);
    } else if free < MAX_SERVERS {
      SlotReplaced(r.slots, free, Slot(c, 1, r.created + 1), c, r.created + 1);
    }
  }

  lemma SlotReplaced(slots: seq<Slot>, k: nat, s: Slot, c: Claim, created: nat)
    requires TableOk(slots, created) && k < MAX_SERVERS && s.born <= created
    requires slots[k].refs > 0 ==> slots[k].claim == c
    requires s.refs > 0 ==> s.claim == c && (slots[k].refs > 0 || Find(slots, c) == |slots|)
    ensures TableOk(slots[k := s], created)
    ensures forall d :: d != c ==> Entry(slots[k := s], d) == Entry(slots, d)
    ensures Entry(slots[k := s], c) ==
            if s.refs > 0 then s else if slots[k].refs > 0 then BLANK else Entry(slots, c)
    ensures Used(slots[k := s]) + (if slots[k].refs > 0 then 1 else 0)
            == Used(slots) + if s.refs > 0 then 1 else 0
  {
    hide Entry, Used;
    forall j | 0 <= j < |slots| && j != k && slots[j].refs > 0 && s.refs > 0
      ensures slots[j].claim != c
    {
      assert slots[k].refs == 0 ==> !Matches(slots[j], c);
    }
    assert Distinct(slots[k := s]);
    forall d ensures Entry(slots[k := s], d) ==
                     if Matches(s, d) then s else if Matches(slots[k], d) then BLANK else Entry(slots, d)
    {
      EntryAfterUpdate(slots, k, s, d);
    }
    EntryAfterUpdate(slots, k, s, c);
    UsedAfterUpdate(slots, k, s);
  }

  lemma ReleasedCounts(r: Registry, c: Claim)
    requires TableOk(r.slots, r.created)
    ensures Released(r, c) == r.(slots := Released(r, c).slots)
    ensures TableOk(Released(r, c).slots, r.created)
    ensures forall d :: d != c ==> Entry(Released(r, c).slots, d) == Entry(r.slots, d)
    ensures Entry(r.slots, c).refs == 0 ==> Released(r, c) == r
    ensures Entry(r.slots, c).refs == 1 ==>
              Entry(Released(r, c).slots, c) == BLANK && Used(Released(r, c).slots) == Used(r.slots) - 1
    ensures Entry(r.slots, c).refs > 1 ==>
              && Entry(Released(r, c).slots, c) == Entry(r.slots, c).(refs := Entry(r.slots, c).refs - 1)
              && Used(Released(r, c).slots) == Used(r.slots)
  {
    var k := Find(r.slots, c);
    if k < MAX_SERVERS {
      SlotReplaced(r.slots, k,
                   if r.slots[k].refs == 1 then BLANK else r.slots[k].(refs := r.slots[k].refs - 1), c, r.created);
    }
  }

  /** Over every history, overflowing ones included: no claim is counted more
    often than it is held, and the pins are the unanimous values of the table. */
  lemma {:induction false} TableNeverInvents(ops: Log<Op>)
    ensures TableOk(Run(ops).slots, Run(ops).created)
    ensures Bounded(Run(ops).slots, Live(ops)) && PinsAgree(Run(ops))
  {
    hide Entry, Unanimous, Claimed, Released, Recompute, TableOk, PinsAgree, Used;
    match ops
    case Empty =>
      FreshIsFine();
    case Then(past, op) =>
      TableNeverInvents(past);
      var r, live, c := Run(past), Live(past), op.claim;
      if Possible(op, live) {
        if op.Create? {
          RecomputeAgrees(Claimed(r, c));
          ClaimedCounts(r, c);
        } else {
          RecomputeAgrees(Released(r, c));
          ReleasedCounts(r, c);
          Present(r.slots, c);
        }
      }
  }

  lemma FreshIsFine()
    ensures TableOk(FRESH.slots, 0) && PinsAgree(FRESH) && Used(FRESH.slots) == 0
    ensures forall c :: Entry(FRESH.slots, c) == BLANK
  {
    NothingIsUnanimous();
    assert Origins(FRESH.slots) == {} && Paths(FRESH.slots) == {};
    UsedBounds(FRESH.slots);
  }

  // ---------------------------------------------------------------------
  // The order of creation
  // ---------------------------------------------------------------------

  predicate Ascending(order: seq<Claim>, slots: seq<Slot>) {
    forall i, j :: 0 <= i < j < |order| ==> Entry(slots, order[i]).born < Entry(slots, order[j]).born
  }

  lemma {:induction false} WithoutMembers(s: seq<Claim>, c: Claim)
    ensures forall d :: d in Without(s, c) <==> d in s && d != c
  {
    if s != [] {
      WithoutMembers(s[..|s| - 1], c);
      assert s == s[..|s| - 1] + [s[|s| - 1]];
    }
  }

  lemma {:induction false} WithoutAscending(s: seq<Claim>, c: Claim, before: seq<Slot>, after: seq<Slot>)
    requires Ascending(s, before) && forall d :: d != c ==> Entry(after, d) == Entry(before, d)
    ensures Ascending(Without(s, c), after)
    ensures c !in s ==> |Without(s, c)| == |s|
    ensures c in s ==> |Without(s, c)| == |s| - 1
  {
    hide Entry;
    if s != [] {
      var n := |s| - 1;
      var (init, last) := (s[..n], s[n]);
      WithoutAscending(init, c, before, after);
      WithoutMembers(init, c);
      assert s == init + [last];
      assert last !in init;
      var w := Without(init, c);
      forall i | 0 <= i < |w| ensures Entry(before, w[i]).born < Entry(before, last).born {
        assert w[i] in init;
      }
      assert last != c ==> Without(s, c) == w + [last];
    }
  }

  // ---------------------------------------------------------------------
  // Histories the table can follow
  // ---------------------------------------------------------------------

  /** The table counts every claim exactly. */
  ghost predicate Exact(slots: seq<Slot>, live: multiset<Claim>) {
    forall c :: Entry(slots, c).refs == live[c]
  }

  /** The table is the set of live claims, in order of creation. */
  ghost predicate Mirrors(r: Registry, live: multiset<Claim>, order: seq<Claim>) {
    && Exact(r.slots, live) && !r.overflow
    && Used(r.slots) == |order| && Ascending(order, r.slots)
    && forall c :: c in order <==> c in live
  }

  lemma CreateKeepsMirror(r: Registry, c: Claim, live: multiset<Claim>, order: seq<Claim>)
    requires TableOk(r.slots, r.created) && Fits(c) && Mirrors(r, live, order)
    requires c in live || |order| < MAX_SERVERS
    ensures Mirrors(SetServer(r, c), live[c := live[c] + 1], if c in live then order else order + [c])
  {
    hide Entry, Claimed, Recompute, TableOk, Used;
    ClaimedCounts(r, c);
    var after := SetServer(r, c);
    RecomputeSlots(Claimed(r, c));
    forall d | d in order && d != c ensures Entry(after.slots, d) == Entry(r.slots, d) { }
    if c !in live {
      forall d | d in order ensures Entry(r.slots, d).born <= r.created {
        BornBounded(r.slots, d, r.created);
      }
      var grown := order + [c];
      forall i, j | 0 <= i < j < |grown| ensures Entry(after.slots, grown[i]).born < Entry(after.slots, grown[j]).born {
        assert grown[i] in order && grown[i] != c;
      }
    } else {
      forall i, j | 0 <= i < j < |order| ensures Entry(after.slots, order[i]).born < Entry(after.slots, order[j]).born {
        assert Entry(r.slots, order[i]).born < Entry(r.slots, order[j]).born;
      }
    }
  }

  lemma RecomputeSlots(r: Registry)
    ensures Recompute(r) == Recompute(r).(slots := r.slots, created := r.created)
    ensures Recompute(r).overflow == (r.overflow && InUse(r.slots))
  {
  }

  lemma BornBounded(slots: seq<Slot>, c: Claim, created: nat)
    requires TableOk(slots, created)
    ensures Entry(slots, c).born <= created
  {
  }

  lemma AscendingKept(order: seq<Claim>, before: seq<Slot>, after: seq<Slot>)
    requires Ascending(order, before) && forall d :: Entry(after, d).born == Entry(before, d).born
    ensures Ascending(order, after)
  {
    hide Entry;
    forall i, j | 0 <= i < j < |order| ensures Entry(after, order[i]).born < Entry(after, order[j]).born {
      assert Entry(before, order[i]).born < Entry(before, order[j]).born;
    }
  }

  lemma DestroyKeepsMirror(r: Registry, c: Claim, live: multiset<Claim>, order: seq<Claim>)
    requires TableOk(r.slots, r.created) && Mirrors(r, live, order) && c in live
    ensures Mirrors(UnsetServer(r, c), live[c := live[c] - 1], if live[c] == 1 then Without(order, c) else order)
  {
    hide Entry, Released, Recompute, TableOk, Used, Ascending;
    ReleasedCounts(r, c);
    assert Entry(r.slots, c).refs > 0;
    Present(r.slots, c);
    var after := UnsetServer(r, c);
    RecomputeSlots(Released(r, c));
    if live[c] == 1 {
      WithoutMembers(order, c);
      WithoutAscending(order, c, r.slots, after.slots);
    } else {
      AscendingKept(order, r.slots, after.slots);
    }
  }

  lemma Present(slots: seq<Slot>, c: Claim)
    ensures Find(slots, c) < |slots| <==> Entry(slots, c).refs > 0
  {
  }

  /** At most four distinct servers at any time since the accounts were last all
    gone. */
  ghost predicate Settled(ops: Log<Op>) {
    Live(ops) == multiset{} ||
    match ops
    case Empty => true
    case Then(past, _) => Settled(past) && |Order(ops)| <= MAX_SERVERS
  }

  lemma EntriesAreTheirOwn(slots: seq<Slot>)
    requires Distinct(slots)
    ensures forall i :: 0 <= i < |slots| && slots[i].refs > 0 ==> Entry(slots, slots[i].claim) == slots[i]
  {
    forall i | 0 <= i < |slots| && slots[i].refs > 0 ensures Entry(slots, slots[i].claim) == slots[i] {
      EntryAt(slots, i);
    }
  }

  lemma EmptyMirrors(r: Registry)
    requires TableOk(r.slots, r.created) && Bounded(r.slots, multiset{}) && PinsAgree(r)
    ensures Mirrors(r, multiset{}, [])
  {
    hide Unanimous;
    EntriesAreTheirOwn(r.slots);
    UsedBounds(r.slots);
  }

  /** The list of live claims really is that: every one of them, once. */
  lemma {:induction false} OrderIsLive(ops: Log<Op>)
    ensures forall c :: c in Order(ops) <==> c in Live(ops)
    ensures forall i, j :: 0 <= i < j < |Order(ops)| ==> Order(ops)[i] != Order(ops)[j]
  {
    match ops
    case Empty =>
    case Then(past, op) =>
      OrderIsLive(past);
      WithoutMembers(Order(past), op.claim);
      WithoutNoDup(Order(past), op.claim);
  }

  lemma {:induction false} WithoutNoDup(s: seq<Claim>, c: Claim)
    requires forall i, j :: 0 <= i < j < |s| ==> s[i] != s[j]
    ensures forall i, j :: 0 <= i < j < |Without(s, c)| ==> Without(s, c)[i] != Without(s, c)[j]
  {
    if s != [] {
      var n := |s| - 1;
      WithoutNoDup(s[..n], c);
      WithoutMembers(s[..n], c);
      var w := Without(s[..n], c);
      forall i | 0 <= i < |w| ensures w[i] != s[n] {
        assert w[i] in s[..n];
      }
    }
  }

  /** Whatever came and went before, once the accounts were all gone the table
    follows them exactly for as long as at most four servers are alive. */
  lemma {:induction false} SettledTableIsExact(ops: Log<Op>)
    requires Settled(ops)
    ensures Mirrors(Run(ops), Live(ops), Order(ops))
  {
    hide Mirrors, PinsAgree, Bounded, TableOk;
    TableNeverInvents(ops);
    if Live(ops) == multiset{} {
      EmptyMirrors(Run(ops));
      OrderIsLive(ops);
      assert Order(ops) == [] by {
        if Order(ops) != [] { assert Order(ops)[0] in Order(ops); }
      }
    } else {
      match ops
      case Then(past, op) =>
        SettledTableIsExact(past);
        TableNeverInvents(past);
        OrderIsLive(past);
        if Possible(op, Live(past)) {
          if op.Create? { CreateKeepsMirror(Run(past), op.claim, Live(past), Order(past)); }
          else { DestroyKeepsMirror(Run(past), op.claim, Live(past), Order(past)); }
        }
    }
  }

  /** The pins a set of live accounts calls for. */
  function LiveOrigins(live: multiset<Claim>): set<string> {
    set c | c in live :: c.origin
  }

  function LivePaths(live: multiset<Claim>): set<string> {
    set c | c in live :: c.path
  }

  lemma ExactValues(slots: seq<Slot>, live: multiset<Claim>)
    requires Distinct(slots) && Exact(slots, live)
    ensures Origins(slots) == LiveOrigins(live) && Paths(slots) == LivePaths(live)
  {
    forall i | 0 <= i < |slots| && slots[i].refs > 0 ensures slots[i].claim in live {
      EntryAt(slots, i);
      assert Entry(slots, slots[i].claim).refs == live[slots[i].claim];
    }
    forall c | c in live ensures exists i :: 0 <= i < |slots| && Matches(slots[i], c) {
      assert Entry(slots, c).refs == live[c];
      assert Matches(slots[Find(slots, c)], c);
    }
    assert Origins(slots) == LiveOrigins(live) by {
      forall v | v in LiveOrigins(live) ensures v in Origins(slots) {
        var c :| c in live && c.origin == v;
        var i :| 0 <= i < |slots| && Matches(slots[i], c);
      }
    }
    assert Paths(slots) == LivePaths(live) by {
      forall v | v in LivePaths(live) ensures v in Paths(slots) {
        var c :| c in live && c.path == v;
        var i :| 0 <= i < |slots| && Matches(slots[i], c);
      }
    }
  }

  /** Each pin is the value on which the live accounts agree, or empty. */
  lemma {:induction false} PinsFollowTheLiveAccounts(ops: Log<Op>)
    requires Settled(ops)
    ensures Run(ops).server == Unanimous(LiveOrigins(Live(ops)))
    ensures Run(ops).path == Unanimous(LivePaths(Live(ops)))
  {
    hide Unanimous, Origins, Paths, LiveOrigins, LivePaths, Settled, Live, Run, Order;
    SettledTableIsExact(ops);
    TableNeverInvents(ops);
    ExactValues(Run(ops).slots, Live(ops));
  }

  /** Two histories that leave the same accounts alive leave the same pins. */
  lemma {:induction false} PinsIgnoreHistory(ops: Log<Op>, other: Log<Op>)
    requires Settled(ops) && Settled(other) && Live(ops) == Live(other)
    ensures Run(ops).server == Run(other).server && Run(ops).path == Run(other).path
  {
    hide Unanimous, Settled, Run;
    PinsFollowTheLiveAccounts(ops);
    PinsFollowTheLiveAccounts(other);
  }

  /** ws_newest returns the claim that came to life last. */
  lemma {:induction false} NewestIsLastCreated(ops: Log<Op>, k: nat)
    requires Settled(ops) && IsNewest(Run(ops).slots, k)
    ensures Order(ops) != [] && Run(ops).slots[k].claim == Order(ops)[|Order(ops)| - 1]
  {
    hide Settled, Run, Live, Unanimous, Used, Entry;
    SettledTableIsExact(ops);
    TableNeverInvents(ops);
    var slots, order := Run(ops).slots, Order(ops);
    var c := slots[k].claim;
    EntryAt(slots, k);
    EntryIs(slots, c, k);
    assert c in Live(ops) && c in order;
    var i :| 0 <= i < |order| && order[i] == c;
    if i < |order| - 1 {
      var d := order[|order| - 1];
      assert Entry(slots, c).born < Entry(slots, d).born;
      assert d in order && d in Live(ops);
      assert Entry(slots, d).refs == Live(ops)[d];
      Present(slots, d);
      EntryIs(slots, d, Find(slots, d));
      assert false;
    }
  }

  lemma EntryIs(slots: seq<Slot>, c: Claim, k: nat)
    requires k < |slots| && Find(slots, c) == k
    ensures Entry(slots, c) == slots[k]
  {
  }

  // ---------------------------------------------------------------------
  // Exactly when the table can follow
  // ---------------------------------------------------------------------

  predicate FewThroughout(ops: Log<Op>) {
    |Order(ops)| <= MAX_SERVERS && match ops case Empty => true case Then(past, _) => FewThroughout(past)
  }

  ghost predicate ExactThroughout(ops: Log<Op>) {
    Exact(Run(ops).slots, Live(ops)) && match ops case Empty => true case Then(past, _) => ExactThroughout(past)
  }

  lemma {:induction false} FewIsSettled(ops: Log<Op>)
    requires FewThroughout(ops)
    ensures Settled(ops)
  {
    match ops
    case Empty =>
    case Then(past, _) => FewIsSettled(past);
  }

  /** The counts are right at every moment of a history if and only if it never
    has more than four distinct servers alive. */
  lemma {:induction false} ExactIffFew(ops: Log<Op>)
    ensures ExactThroughout(ops) <==> FewThroughout(ops)
  {
    hide Entry, Live, Run, Settled, Order;
    match ops
    case Empty =>
      assert FewThroughout(ops) by { hide *; OrderOfNothing(); }
      FewIsSettled(ops);
      SettledTableIsExact(ops);
    case Then(past, op) =>
      ExactIffFew(past);
      if FewThroughout(ops) {
        FewIsSettled(ops);
        SettledTableIsExact(ops);
      } else if FewThroughout(past) {
        TooManyIsInexact(past, op);
      }
  }

  lemma OrderOfNothing()
    ensures FewThroughout(Empty)
  {
  }

  /** The fifth server is the one the table misses. */
  lemma {:induction false} TooManyIsInexact(past: Log<Op>, op: Op)
    requires FewThroughout(past) && !FewThroughout(Then(past, op))
    ensures !Exact(Run(Then(past, op)).slots, Live(Then(past, op)))
    ensures Run(Then(past, op)).overflow && Run(Then(past, op)).server == ""
  {
    hide Entry, Settled, Used, Claimed, Recompute, Unanimous, TableOk;
    var r, live, order, c := Run(past), Live(past), Order(past), op.claim;
    FewIsSettled(past);
    SettledTableIsExact(past);
    TableNeverInvents(past);
    FewUnfold(past);
    if op.Destroy? && Possible(op, live) && live[c] == 1 {
      WithoutAscending(order, c, r.slots, r.slots);
    }
    assert Possible(op, live) && op.Create? && c !in live && |order| == MAX_SERVERS;
    ClaimedCounts(r, c);
    assert Entry(r.slots, c).refs == live[c];
    RecomputeAgrees(Claimed(r, c));
    RecomputeSlots(Claimed(r, c));
    UsedBounds(r.slots);
    assert Entry(Run(Then(past, op)).slots, c).refs == 0;
  }

  lemma FewUnfold(ops: Log<Op>)
    requires FewThroughout(ops)
    ensures |Order(ops)| <= MAX_SERVERS
  {
  }

  // ---------------------------------------------------------------------
  // After an overflow
  // ---------------------------------------------------------------------

  /** From an overflow until the table drains no server is pinned, whatever the
    accounts do. */
  lemma {:induction false} OverflowStaysUnpinned(past: Log<Op>, op: Op)
    requires Run(past).overflow && InUse(Run(Then(past, op)).slots)
    ensures Run(Then(past, op)).overflow && Run(Then(past, op)).server == ""
  {
    hide Entry, Unanimous;
    TableNeverInvents(past);
    TableNeverInvents(Then(past, op));
  }

  lemma DrainedHoldsNothing(r: Registry)
    requires PinsAgree(r) && TableOk(r.slots, r.created) && !InUse(r.slots)
    ensures !r.overflow && Used(r.slots) == 0 && forall c :: Entry(r.slots, c).refs == 0
  {
    hide Unanimous;
    UsedBounds(r.slots);
  }

  lemma OnlyOneIsUnanimous(values: set<string>, v: string)
    requires v in values && v != ""
    ensures Unanimous(values) == v <==> values == {v}
  {
    if values == {v} {
      forall w | values == {w} ensures w == v { assert w in {v}; }
    }
  }

  /** A drained table pins the next server to connect. That is what the live
    accounts call for if and only if all of them use that server: an account
    the overflow lost is forgotten, not waited for. */
  lemma {:induction false} DrainedPinsTheNext(ops: Log<Op>, f: Claim)
    requires !InUse(Run(ops).slots) && Fits(f) && f.origin != ""
    ensures var after := Then(ops, Create(f)); Run(after).server == f.origin
    ensures var after := Then(ops, Create(f));
            Run(after).server == Unanimous(LiveOrigins(Live(after)))
            <==> forall c :: c in Live(ops) ==> c.origin == f.origin
  {
    hide Entry, Used, Unanimous, Claimed, Recompute, Origins;
    var r, after := Run(ops), Then(ops, Create(f));
    TableNeverInvents(ops);
    TableNeverInvents(after);
    DrainedHoldsNothing(r);
    ClaimedCounts(r, f);
    RecomputeSlots(Claimed(r, f));
    var only := multiset{f};
    assert Exact(Run(after).slots, only);
    ExactValues(Run(after).slots, only);
    assert LiveOrigins(only) == {f.origin};
    OnlyOneIsUnanimous({f.origin}, f.origin);
    var origins := LiveOrigins(Live(after));
    assert f in Live(after);
    assert f.origin in origins;
    OnlyOneIsUnanimous(origins, f.origin);
    assert forall c :: c in Live(after) <==> c in Live(ops) || c == f;
    if forall c :: c in Live(ops) ==> c.origin == f.origin {
      assert origins == {f.origin};
    } else {
      var c :| c in Live(ops) && c.origin != f.origin;
      assert c.origin in origins;
    }
  }

  /** Five accounts on five servers, then the first four leave. */
  function Departed(a: Claim, b: Claim, c: Claim, d: Claim, e: Claim): Log<Op> {
    var five := Then(Then(Then(Then(Then(Empty, Create(a)), Create(b)), Create(c)), Create(d)), Create(e));
    Then(Then(Then(Then(five, Destroy(a)), Destroy(b)), Destroy(c)), Destroy(d))
  }

  /** One step of a history, seen through its counts. */
  lemma StepCounts(past: Log<Op>, op: Op)
    requires Possible(op, Live(past))
    ensures forall c :: c != op.claim ==>
              Entry(Run(Then(past, op)).slots, c).refs == Entry(Run(past).slots, c).refs
    ensures Used(Run(past).slots) <= MAX_SERVERS
    ensures op.Create? && Entry(Run(past).slots, op.claim).refs == 0 ==>
              if Used(Run(past).slots) < MAX_SERVERS
              then Entry(Run(Then(past, op)).slots, op.claim).refs == 1 && Used(Run(Then(past, op)).slots) == Used(Run(past).slots) + 1
              else Run(Then(past, op)).slots == Run(past).slots
    ensures op.Destroy? && Entry(Run(past).slots, op.claim).refs == 1 ==>
              && Entry(Run(Then(past, op)).slots, op.claim).refs == 0
              && Used(Run(Then(past, op)).slots) == Used(Run(past).slots) - 1
  {
    hide Entry, Claimed, Released, Recompute, Live;
    TableNeverInvents(past);
    var r, c := Run(past), op.claim;
    Present(r.slots, c);
    ClaimedCounts(r, c);
    ReleasedCounts(r, c);
    RecomputeSlots(Claimed(r, c));
    RecomputeSlots(Released(r, c));
  }

  /** The table can drain, and so trust itself again, while an account lives. */
  lemma {:induction false} DrainForgetsALiveAccount(a: Claim, b: Claim, c: Claim, d: Claim, e: Claim)
    requires Fits(a) && Fits(b) && Fits(c) && Fits(d) && Fits(e)
    requires a !in {b, c, d, e} && b !in {c, d, e} && c !in {d, e} && d != e
    ensures !InUse(Run(Departed(a, b, c, d, e)).slots) && e in Live(Departed(a, b, c, d, e))
  {
    hide Entry, Used, Run;
    var one := Then(Empty, Create(a));
    var two := Then(one, Create(b));
    var three := Then(two, Create(c));
    var four := Then(three, Create(d));
    var five := Then(four, Create(e));
    var less := Then(five, Destroy(a));
    var lesser := Then(less, Destroy(b));
    var least := Then(lesser, Destroy(c));
    FreshIsFine();
    RunOfNothing();
    StepCounts(Empty, Create(a));
    StepCounts(one, Create(b));
    StepCounts(two, Create(c));
    StepCounts(three, Create(d));
    StepCounts(four, Create(e));
    StepCounts(five, Destroy(a));
    StepCounts(less, Destroy(b));
    StepCounts(lesser, Destroy(c));
    StepCounts(least, Destroy(d));
    UsedBounds(Run(Then(least, Destroy(d))).slots);
  }

  lemma RunOfNothing()
    ensures Run(Empty) == FRESH
  {
  }
}
