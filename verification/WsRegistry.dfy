/** The WebSocket server registry of src/ws_path.c: which server and which path
  outbound connects are pinned to, derived from the live accounts. */
module WsRegistry {
  import opened History
  import opened CStrings
  import Decimal

  const MAX_SERVERS: nat := 4
  const ORIGIN_SIZE: nat := 288
  const PATH_SIZE: nat := 256

  /** What one account claims. */
  datatype Claim = Claim(origin: string, path: string)

  datatype Slot = Slot(claim: Claim, refs: nat, born: nat)

  const BLANK := Slot(Claim("", ""), 0, 0)

  datatype Registry = Registry(slots: seq<Slot>, created: nat, overflow: bool, server: string, path: string)

  predicate Fits(c: Claim) {
    |c.origin| < ORIGIN_SIZE && |c.path| < PATH_SIZE
  }

  /** str_ncpy into the slot's buffers. */
  function Stored(c: Claim): Claim {
    Claim(Take(c.origin, ORIGIN_SIZE), Take(c.path, PATH_SIZE))
  }

  // ---------------------------------------------------------------------
  // Origins
  // ---------------------------------------------------------------------

  predicate Ipv6(host: string) {
    ':' in host
  }

  function Authority(host: string): string {
    if Ipv6(host) then "[" + host + "]" else host
  }

  function Scheme(secure: bool): string {
    if secure then "wss://" else "ws://"
  }

  function Origin(secure: bool, host: string, port: nat): string {
    Scheme(secure) + Authority(host) + ":" + Decimal.Print(port)
  }

  lemma LastColon(a: string, x: string, b: string, y: string)
    requires a + ":" + x == b + ":" + y && ':' !in x && ':' !in y
    ensures a == b && x == y
  {
    var s := a + ":" + x;
    assert s[|a|] == ':' && s[|b|] == ':';
    assert forall i :: |a| < i < |s| ==> s[i] == x[i - |a| - 1];
    assert forall i :: |b| < i < |s| ==> s[i] == y[i - |b| - 1];
    assert s[..|a|] == a && s[..|b|] == b;
    assert s[|a| + 1..] == x && s[|b| + 1..] == y;
  }

  /** A bracketed literal is never spelled like a plain host. */
  lemma AuthorityInjective(h: string, g: string)
    requires Authority(h) == Authority(g)
    ensures h == g
  {
    BracketsContain(h);
    BracketsContain(g);
    if Ipv6(h) {
      assert h == Authority(h)[1..|Authority(h)| - 1];
      assert g == Authority(g)[1..|Authority(g)| - 1];
    }
  }

  lemma BracketsContain(h: string)
    ensures ':' in Authority(h) <==> Ipv6(h)
  {
    if Ipv6(h) {
      var i :| 0 <= i < |h| && h[i] == ':';
      assert Authority(h)[i + 1] == ':';
    }
  }

  /** Two accounts share an origin exactly when they agree on scheme, host and
    port; in particular brackets never make two servers look alike. */
  lemma OriginInjective(s: bool, h: string, p: nat, t: bool, g: string, q: nat)
    ensures Origin(s, h, p) == Origin(t, g, q) <==> s == t && h == g && p == q
  {
    if Origin(s, h, p) == Origin(t, g, q) {
      LastColon(Scheme(s) + Authority(h), Decimal.Print(p), Scheme(t) + Authority(g), Decimal.Print(q));
      Decimal.PrintInjective(p, q);
      var whole := Scheme(s) + Authority(h);
      assert whole[2] == Scheme(s)[2] == Scheme(t)[2];
      assert s == t;
      assert whole[|Scheme(s)|..] == Authority(h) && whole[|Scheme(t)|..] == Authority(g);
      AuthorityInjective(h, g);
    }
  }

  /** The origin of any host an account can hold fits its slot. */
  lemma OriginFits(secure: bool, host: string, port: nat)
    requires |host| <= 255 && port < 0x1_0000
    ensures |Origin(secure, host, port)| < ORIGIN_SIZE
  {
    assert Decimal.Power10(5) == 100000;
    Decimal.PortLength(port, 5);
  }

  /** So two accounts claim the same origin, buffers included, exactly when they
    use the same server. */
  lemma ClaimsIdentifyServers(s: bool, h: string, p: nat, t: bool, g: string, q: nat)
    requires |h| <= 255 && |g| <= 255 && p < 0x1_0000 && q < 0x1_0000
    ensures Take(Origin(s, h, p), ORIGIN_SIZE) == Take(Origin(t, g, q), ORIGIN_SIZE) <==> s == t && h == g && p == q
  {
    OriginFits(s, h, p);
    OriginFits(t, g, q);
    OriginInjective(s, h, p, t, g, q);
  }

  // ---------------------------------------------------------------------
  // The table
  // ---------------------------------------------------------------------

  predicate Matches(s: Slot, c: Claim) {
    s.refs > 0 && s.claim == c
  }

  /** ws_find: the first live entry of `c`, or the table size. */
  function Find(slots: seq<Slot>, c: Claim): (k: nat)
    ensures k <= |slots| && (k < |slots| ==> Matches(slots[k], c))
    ensures forall j :: 0 <= j < k ==> !Matches(slots[j], c)
  {
    if slots == [] then 0
    else
      var n := |slots| - 1;
      var k := Find(slots[..n], c);
      if k < n then k else if Matches(slots[n], c) then n else n + 1
  }

  /** The first unused entry, or the table size. */
  function FreeSlot(slots: seq<Slot>): (k: nat)
    ensures k <= |slots| && (k < |slots| ==> slots[k].refs == 0)
    ensures forall j :: 0 <= j < k ==> slots[j].refs > 0
  {
    if slots == [] then 0
    else
      var n := |slots| - 1;
      var k := FreeSlot(slots[..n]);
      if k < n then k else if slots[n].refs == 0 then n else n + 1
  }

  predicate InUse(slots: seq<Slot>) {
    exists i :: 0 <= i < |slots| && slots[i].refs > 0
  }

  function Origins(slots: seq<Slot>): set<string> {
    set i | 0 <= i < |slots| && slots[i].refs > 0 :: slots[i].claim.origin
  }

  function Paths(slots: seq<Slot>): set<string> {
    set i | 0 <= i < |slots| && slots[i].refs > 0 :: slots[i].claim.path
  }

  /** The value everybody agrees on, or nothing. */
  ghost function Unanimous(values: set<string>): string {
    if v :| values == {v} then v else ""
  }

  /** ws_recompute. */
  ghost function Recompute(r: Registry): Registry {
    r.(server := if r.overflow then "" else Unanimous(Origins(r.slots)),
       path := Unanimous(Paths(r.slots)),
       overflow := r.overflow && InUse(r.slots))
  }

  /** The table part of vox_ws_set_server. */
  function Claimed(r: Registry, c: Claim): Registry {
    var k := Find(r.slots, c);
    var free := FreeSlot(r.slots);
    if k < |r.slots| then r.(slots := r.slots[k := r.slots[k].(refs := r.slots[k].refs + 1)])
    else if free == |r.slots| then r.(overflow := true)
    else r.(slots := r.slots[free := Slot(Stored(c), 1, r.created + 1)], created := r.created + 1)
  }

  /** The table part of vox_ws_unset_server. */
  function Released(r: Registry, c: Claim): Registry {
    var k := Find(r.slots, c);
    if k == |r.slots| then r
    else r.(slots := r.slots[k := if r.slots[k].refs == 1 then BLANK else r.slots[k].(refs := r.slots[k].refs - 1)])
  }

  ghost function SetServer(r: Registry, c: Claim): Registry {
    Recompute(Claimed(r, c))
  }

  ghost function UnsetServer(r: Registry, c: Claim): Registry {
    if Find(r.slots, c) == |r.slots| then r else Recompute(Released(r, c))
  }

  /** `k` is the live entry with the highest creation number. */
  predicate IsNewest(slots: seq<Slot>, k: nat) {
    && k < |slots| && slots[k].refs > 0
    && forall i :: 0 <= i < |slots| && slots[i].refs > 0 ==> slots[i].born <= slots[k].born
  }

  // ---------------------------------------------------------------------
  // Account histories
  // ---------------------------------------------------------------------

  datatype Op = Create(claim: Claim) | Destroy(claim: Claim)

  /** Account buffers bound what is claimed, and an account releases only what it
    claimed. */
  predicate Possible(op: Op, live: multiset<Claim>) {
    Fits(op.claim) && (op.Destroy? ==> op.claim in live)
  }

  /** The claims of the accounts that exist. */
  function Live(ops: Log<Op>): multiset<Claim> {
    match ops
    case Empty => multiset{}
    case Then(past, op) =>
      var live := Live(past);
      if !Possible(op, live) then live
      else if op.Create? then live[op.claim := live[op.claim] + 1]
      else live[op.claim := live[op.claim] - 1]
  }

  function Without(s: seq<Claim>, c: Claim): seq<Claim> {
    if s == [] then []
    else Without(s[..|s| - 1], c) + if s[|s| - 1] == c then [] else [s[|s| - 1]]
  }

  /** The distinct live claims, in the order in which they came to life. */
  function Order(ops: Log<Op>): seq<Claim> {
    match ops
    case Empty => []
    case Then(past, op) =>
      var live := Live(past);
      if !Possible(op, live) then Order(past)
      else if op.Create? then if op.claim in live then Order(past) else Order(past) + [op.claim]
      else if live[op.claim] == 1 then Without(Order(past), op.claim) else Order(past)
  }

  const FRESH := Registry([BLANK, BLANK, BLANK, BLANK], 0, false, "", "")

  ghost function Apply(r: Registry, op: Op): Registry {
    match op
    case Create(c) => SetServer(r, c)
    case Destroy(c) => UnsetServer(r, c)
  }

  ghost function Run(ops: Log<Op>): Registry {
    match ops
    case Empty => FRESH
    case Then(past, op) => if Possible(op, Live(past)) then Apply(Run(past), op) else Run(past)
  }

  // ---------------------------------------------------------------------
  // The registry as it runs
  // ---------------------------------------------------------------------

  class ServerRegistry {
    const table: array<Slot>
    var created: nat
    var overflow: bool
    var server: string
    var path: string

    ghost predicate Valid()
      reads this
    {
      table.Length == MAX_SERVERS
    }

    ghost function View(): Registry
      reads this, table
    {
      Registry(table[..], created, overflow, server, path)
    }

    constructor ()
      ensures Valid() && fresh(table) && View() == FRESH
    {
      table := new Slot[MAX_SERVERS](_ => BLANK);
      created, overflow, server, path := 0, false, "", "";
    }

    method Locate(c: Claim) returns (k: nat)
      ensures k == Find(table[..], c)
    {
      k := 0;
      while k < table.Length && !Matches(table[k], c)
        invariant k <= table.Length
        invariant forall j :: 0 <= j < k ==> !Matches(table[j], c)
      {
        k := k + 1;
      }
      FindIsFirst(table[..], c, k);
    }

    /** ws_recompute: one pass that remembers the first value of each kind and
      whether any later one disagreed. */
    method Refresh()
      modifies this`server, this`path, this`overflow
      ensures View() == Recompute(old(View()))
    {
      hide Unanimous, Agreed, Origins, Paths, InUse;
      AgreedStarts(table[..0]);
      var origin, where: Option<string> := None, None;
      var sameOrigin, samePath := true, true;
      var n := 0;
      for i := 0 to table.Length
        invariant overflow == old(overflow)
        invariant n > 0 <==> InUse(table[..i])
        invariant Agreed(Origins(table[..i]), origin, sameOrigin)
        invariant Agreed(Paths(table[..i]), where, samePath)
      {
        OneMore(table[..i], table[i]);
        AgreedGrows(Origins(table[..i]), origin, sameOrigin, table[i].claim.origin);
        AgreedGrows(Paths(table[..i]), where, samePath, table[i].claim.path);
        assert table[..i + 1] == table[..i] + [table[i]];
        if table[i].refs > 0 {
          n := n + 1;
          if origin.None? { origin := Some(table[i].claim.origin); }
          else if origin.value != table[i].claim.origin { sameOrigin := false; }
          if where.None? { where := Some(table[i].claim.path); }
          else if where.value != table[i].claim.path { samePath := false; }
        }
      }
      assert table[..table.Length] == table[..];
      AgreedIsUnanimous(Origins(table[..]), origin, sameOrigin);
      AgreedIsUnanimous(Paths(table[..]), where, samePath);
      server := if origin.Some? && sameOrigin && !overflow then origin.value else "";
      path := if where.Some? && samePath then where.value else "";
      if n == 0 { overflow := false; }
    }

    method Set(secure: bool, host: string, port: nat, path: string)
      requires Valid()
      modifies this, table
      ensures Valid()
      ensures View() == if host == "" || port == 0 then old(View())
                        else SetServer(old(View()), Claim(Take(Origin(secure, host, port), ORIGIN_SIZE), path))
    {
      if host == "" || port == 0 { return; }
      var c := Claim(Take(Origin(secure, host, port), ORIGIN_SIZE), path);
      ghost var before := View();
      var k := Locate(c);
      if k < table.Length {
        table[k] := table[k].(refs := table[k].refs + 1);
      } else {
        var free := 0;
        while free < table.Length && table[free].refs > 0
          invariant free <= table.Length
          invariant forall j :: 0 <= j < free ==> table[j].refs > 0
        {
          free := free + 1;
        }
        FreeIsFirst(table[..], free);
        if free == table.Length {
          overflow := true;
        } else {
          table[free] := Slot(Stored(c), 1, created + 1);
          created := created + 1;
        }
      }
      assert View() == Claimed(before, c);
      Refresh();
    }

    method Unset(secure: bool, host: string, port: nat, path: string)
      requires Valid()
      modifies this, table
      ensures Valid()
      ensures View() == if host == "" || port == 0 then old(View())
                        else UnsetServer(old(View()), Claim(Take(Origin(secure, host, port), ORIGIN_SIZE), path))
    {
      if host == "" || port == 0 { return; }
      var c := Claim(Take(Origin(secure, host, port), ORIGIN_SIZE), path);
      ghost var before := View();
      var k := Locate(c);
      if k == table.Length { return; }
      table[k] := if table[k].refs == 1 then BLANK else table[k].(refs := table[k].refs - 1);
      assert View() == Released(before, c);
      Refresh();
    }

    /** ws_newest. */
    method Newest() returns (best: Option<nat>)
      ensures best.None? <==> overflow || !InUse(table[..])
      ensures best.Some? ==> IsNewest(table[..], best.value)
    {
      best := None;
      if overflow { return; }
      for i := 0 to table.Length
        invariant best.None? <==> forall j :: 0 <= j < i ==> table[j].refs == 0
        invariant best.Some? ==> IsNewest(table[..i], best.value)
      {
        assert table[..i + 1] == table[..i] + [table[i]];
        if table[i].refs > 0 && (best.None? || table[i].born > table[best.value].born) {
          best := Some(i);
        }
      }
      assert table[..table.Length] == table[..];
    }
  }

  lemma FindIsFirst(slots: seq<Slot>, c: Claim, k: nat)
    requires k <= |slots| && (k < |slots| ==> Matches(slots[k], c))
    requires forall j :: 0 <= j < k ==> !Matches(slots[j], c)
    ensures k == Find(slots, c)
  {
  }

  lemma FreeIsFirst(slots: seq<Slot>, k: nat)
    requires k <= |slots| && (k < |slots| ==> slots[k].refs == 0)
    requires forall j :: 0 <= j < k ==> slots[j].refs > 0
    ensures k == FreeSlot(slots)
  {
  }

  /** What the single pass knows about the values it has seen. */
  ghost predicate Agreed(values: set<string>, first: Option<string>, same: bool) {
    && (first.None? <==> values == {})
    && (first.Some? ==> first.value in values)
    && (same <==> forall v :: v in values ==> Some(v) == first)
  }

  lemma AgreedStarts(s: seq<Slot>)
    requires s == []
    ensures !InUse(s) && Agreed(Origins(s), None, true) && Agreed(Paths(s), None, true)
  {
  }

  lemma AgreedGrows(values: set<string>, first: Option<string>, same: bool, v: string)
    requires Agreed(values, first, same)
    ensures Agreed(values + {v}, if first.None? then Some(v) else first,
                   same && (first.None? || first.value == v))
    ensures values + {} == values
  {
    if first.Some? && same && first.value != v {
      assert v in values + {v};
    }
  }

  lemma AgreedIsUnanimous(values: set<string>, first: Option<string>, same: bool)
    requires Agreed(values, first, same)
    ensures Unanimous(values) == if first.Some? && same then first.value else ""
  {
    if first.Some? && same {
      assert values == {first.value};
    }
  }

  lemma OneMore(s: seq<Slot>, x: Slot)
    ensures Origins(s + [x]) == Origins(s) + if x.refs > 0 then {x.claim.origin} else {}
    ensures Paths(s + [x]) == Paths(s) + if x.refs > 0 then {x.claim.path} else {}
    ensures InUse(s + [x]) <==> InUse(s) || x.refs > 0
  {
    var t := s + [x];
    assert forall i :: 0 <= i < |s| ==> t[i] == s[i];
    assert t[|s|] == x;
  }
}
