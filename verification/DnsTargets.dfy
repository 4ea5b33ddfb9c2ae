/** Which targets a lookup gives: the records that were answered, field by field,
  in order of arrival, under every order of answers and launch failures. */
module DnsTargets {
  import opened History
  import opened CStrings
  import opened DnsLookup

  // ---------------------------------------------------------------------
  // What an answer says
  // ---------------------------------------------------------------------

  /** The first `max` of a list. */
  function Cut<T>(s: seq<T>, max: nat): seq<T> {
    if |s| > max then s[..max] else s
  }

  /** The target an SRV record names for the transport that was asked about. */
  function TargetOf(t: Transport, r: SrvRecord): Target {
    Target(t, Take(r.target, 256), r.port, r.priority, r.weight)
  }

  /** The targets of an answer: its SRV records but those that say "no service". */
  function TargetsOf(t: Transport, rs: seq<SrvRecord>): seq<Target> {
    if rs == [] then []
    else (if rs[0].isSrv && rs[0].target != "." then [TargetOf(t, rs[0])] else []) + TargetsOf(t, rs[1..])
  }

  /** The domain itself, at the transport's own port. */
  function Bare(domain: string, t: Transport): Target {
    Target(t, domain, match t case Tls => 5061 case Ws => 80 case Wss => 443 case _ => 5060, 0, 0)
  }

  /** The SRV name a NAPTR record leads to. */
  function SlotOf(r: NaptrRecord): Slot
    requires r.service.Some?
  {
    Slot(Take(r.replace, 256), r.service.value)
  }

  /** The names of an answer: its NAPTR records with the S flag and a known service. */
  function SlotsOf(rs: seq<NaptrRecord>): seq<Slot> {
    if rs == [] then []
    else (if rs[0].isNaptr && rs[0].flagS && rs[0].service.Some? then [SlotOf(rs[0])] else []) + SlotsOf(rs[1..])
  }

  /** The well-known name of a transport at the domain. */
  function WellKnown(domain: string, t: Transport): Slot {
    Slot(Take((match t
               case Udp => "_sip._udp."
               case Tls => "_sips._tcp."
               case Wss => "_sips._tcp."
               case _ => "_sip._tcp.") + domain, 256), t)
  }

  /** The names whose query went out, in order. */
  function Sent(slots: seq<Slot>, launches: Launches): seq<Slot> {
    if slots == [] then []
    else
      var n := |slots| - 1;
      Sent(slots[..n], launches) + if launches(n) then [slots[n]] else []
  }

  // ---------------------------------------------------------------------
  // One answer
  // ---------------------------------------------------------------------

  lemma AddOneIs(lk: Lookup, t: Transport, r: SrvRecord)
    requires |lk.targets| <= MAX_TARGETS
    ensures AddResult(lk, Target(t, r.target, r.port, r.priority, r.weight))
         == lk.(targets := Cut(lk.targets + [TargetOf(t, r)], MAX_TARGETS))
  {
  }

  lemma {:induction false} AddAllIs(lk: Lookup, t: Transport, rs: seq<SrvRecord>)
    requires |lk.targets| <= MAX_TARGETS
    ensures AddAll(lk, t, rs) == lk.(targets := Cut(lk.targets + TargetsOf(t, rs), MAX_TARGETS))
    ensures AnyUsable(rs) <==> TargetsOf(t, rs) != []
    decreases |rs|
  {
    hide Cut, AddResult, AnyUsable, TargetOf;
    if rs == [] {
      CutNothing(lk.targets);
      NoneUsable();
    } else {
      UsableSplits(rs);
      var rest := TargetsOf(t, rs[1..]);
      if UsableSrv(rs[0]) {
        AddOneIs(lk, t, rs[0]);
        var next := lk.(targets := Cut(lk.targets + [TargetOf(t, rs[0])], MAX_TARGETS));
        CutIsShort(lk.targets + [TargetOf(t, rs[0])]);
        AddAllIs(next, t, rs[1..]);
        CutTwice(lk.targets + [TargetOf(t, rs[0])], rest);
        assert lk.targets + ([TargetOf(t, rs[0])] + rest) == (lk.targets + [TargetOf(t, rs[0])]) + rest;
      } else {
        AddAllIs(lk, t, rs[1..]);
        assert [] + rest == rest;
      }
    }
  }

  lemma NoneUsable()
    ensures !AnyUsable([])
  {
  }

  lemma CutIsShort(s: seq<Target>)
    ensures |Cut(s, MAX_TARGETS)| <= MAX_TARGETS
  {
  }

  lemma UsableSplits(rs: seq<SrvRecord>)
    requires rs != []
    ensures AnyUsable(rs) <==> UsableSrv(rs[0]) || AnyUsable(rs[1..])
  {
    if i :| 0 <= i < |rs| && UsableSrv(rs[i]) {
      if i > 0 { assert UsableSrv(rs[1..][i - 1]); }
    }
    if i :| 0 <= i < |rs[1..]| && UsableSrv(rs[1..][i]) { assert UsableSrv(rs[i + 1]); }
  }

  lemma {:induction false} CollectIs(slots: seq<Slot>, rs: seq<NaptrRecord>)
    requires |slots| <= MAX_SRV
    ensures CollectSlots(slots, rs) == Cut(slots + SlotsOf(rs), MAX_SRV)
    decreases |rs|
  {
    if rs == [] {
      assert slots + [] == slots;
    } else if UsableNaptr(rs[0]) {
      assert slots + ([SlotOf(rs[0])] + SlotsOf(rs[1..])) == (slots + [SlotOf(rs[0])]) + SlotsOf(rs[1..]);
      if |slots| < MAX_SRV {
        CollectIs(slots + [SlotOf(rs[0])], rs[1..]);
      } else {
        assert (slots + SlotsOf(rs))[..MAX_SRV] == slots;
      }
    } else {
      CollectIs(slots, rs[1..]);
      assert [] + SlotsOf(rs[1..]) == SlotsOf(rs[1..]);
    }
  }

  lemma {:induction false} LaunchedIs(slots: seq<Slot>, n: nat, launches: Launches)
    requires n <= |slots|
    ensures Launched(slots, n, launches) == Sent(slots[..n], launches)
  {
    if n > 0 {
      LaunchedIs(slots, n - 1, launches);
      assert slots[..n][..n - 1] == slots[..n - 1];
    }
  }

  /** What an answer contributes to the result. An SRV answer: its targets, or the
    bare domain when it names none. The NAPTR answer: nothing, or the bare domain
    when no query could be sent for it. */
  function Contribution(lk: Lookup, r: Reply): seq<Target>
    requires Expected(lk, r)
  {
    match r
    case Srv(k, answer) =>
      var t := lk.srvOut[k].transport;
      var named := if answer.Some? then TargetsOf(t, answer.value) else [];
      if named != [] then named else [Bare(lk.domain, t)]
    case Naptr(answer, launches) =>
      if Sent(NamesOf(lk, answer), launches) == [] then [Bare(lk.domain, lk.hint)] else []
  }

  /** The names to ask for: those of the answer, eight at most, or the well-known
    one when it names none. */
  function NamesOf(lk: Lookup, answer: Option<seq<NaptrRecord>>): seq<Slot> {
    var named := if answer.Some? then SlotsOf(answer.value) else [];
    if named != [] then Cut(named, 8) else [WellKnown(lk.domain, lk.hint)]
  }

  /** The state of a lookup apart from its completion. */
  predicate Fits(lk: Lookup) {
    Consistent(lk) && lk.portHint == 0 && |lk.domain| < 256
  }

  lemma BareIs(lk: Lookup, t: Transport)
    requires |lk.domain| < 256 && |lk.targets| <= MAX_TARGETS
    ensures AddResult(lk, Target(t, lk.domain, DefaultPort(t), 0, 0))
         == lk.(targets := Cut(lk.targets + [Bare(lk.domain, t)], MAX_TARGETS))
    ensures lk.portHint == 0 ==> FallbackTarget(lk) == Target(lk.hint, lk.domain, DefaultPort(lk.hint), 0, 0)
  {
  }

  lemma FinishKeeps(lk: Lookup)
    ensures Finish(lk) == lk.(finished := true, calls := Finish(lk).calls)
  {
    hide Sort;
  }

  /** An SRV answer takes its query off the wire and adds its contribution. */
  lemma {:induction false} SrvIs(lk: Lookup, r: Reply)
    requires Fits(lk) && r.Srv? && Expected(lk, r)
    ensures var n := Step(lk, r);
            && n.targets == Cut(lk.targets + Contribution(lk, r), MAX_TARGETS)
            && n.srvOut == lk.srvOut[..r.query] + lk.srvOut[r.query + 1..]
            && n.domain == lk.domain && n.hint == lk.hint && n.portHint == lk.portHint && n.naptrOut == lk.naptrOut
  {
    hide Finish, AnyUsable, AddAll, TargetsOf, Sort, Bare, Cut;
    var t := lk.srvOut[r.query].transport;
    if r.answers.Some? { AddAllIs(lk, t, r.answers.value); }
    BareIs(lk, t);
    var got := if r.answers.Some? && AnyUsable(r.answers.value) then AddAll(lk, t, r.answers.value)
               else AddResult(lk, Target(t, lk.domain, DefaultPort(t), 0, 0));
    hide AddResult;
    assert got == lk.(targets := Cut(lk.targets + Contribution(lk, r), MAX_TARGETS));
    FinishKeeps(got.(srvOut := lk.srvOut[..r.query] + lk.srvOut[r.query + 1..], pending := lk.pending - 1));
  }

  /** The NAPTR answer sends a query for each of its names that can be sent, and
    none else; if there is none, it contributes the bare domain. */
  lemma {:induction false} NaptrIs(lk: Lookup, r: Reply)
    requires Fits(lk) && r.Naptr? && Expected(lk, r)
    ensures var n := Step(lk, r);
            && n.slots == NamesOf(lk, r.records) && n.srvOut == Sent(n.slots, r.launches)
            && n.targets == Cut(lk.targets + Contribution(lk, r), MAX_TARGETS)
            && n.domain == lk.domain && n.hint == lk.hint && n.portHint == lk.portHint && !n.naptrOut
  {
    hide Finish, CollectSlots, Sort, Launched, Sent, Cut, Bare, AddResult, Consistent;
    NamesAre(lk, r.records);
    var names := NamesOf(lk, r.records);
    LaunchedIs(names, |names|, r.launches);
    assert names[..|names|] == names;
    var started := lk.(slots := names, naptrOut := false, pending := lk.pending - 1);
    NothingSentYet(lk);
    assert Step(lk, r) == StartSrv(started, r.launches);
    hide Step;
    var out := Sent(names, r.launches);
    assert [] + out == out;
    var waiting := started.(srvOut := out, pending := started.pending + |out|);
    BareIs(waiting, lk.hint);
    FinishKeeps(AddResult(waiting, FallbackTarget(waiting)));
    CutNothing(lk.targets);
  }

  lemma NothingSentYet(lk: Lookup)
    requires Consistent(lk) && lk.naptrOut
    ensures lk.srvOut == [] && lk.slots == [] && |lk.targets| <= MAX_TARGETS
  {
  }

  lemma CutEmpty()
    ensures Cut<Target>([], MAX_TARGETS) == []
  {
  }

  lemma CutNothing(s: seq<Target>)
    requires |s| <= MAX_TARGETS
    ensures Cut(s + [], MAX_TARGETS) == s
  {
    assert s + [] == s;
  }

  lemma NamesAre(lk: Lookup, answer: Option<seq<NaptrRecord>>)
    requires Fits(lk) && lk.naptrOut
    ensures var slots := if answer.Some? then CollectSlots(lk.slots, answer.value) else lk.slots;
            (if |slots| > |lk.slots| || |lk.slots| >= MAX_SRV then slots else slots + [FallbackSlot(lk)])
            == NamesOf(lk, answer)
  {
    if answer.Some? {
      CollectIs([], answer.value);
      assert [] + SlotsOf(answer.value) == SlotsOf(answer.value);
    }
    assert FallbackSlot(lk) == WellKnown(lk.domain, lk.hint);
  }

  // ---------------------------------------------------------------------
  // Every run
  // ---------------------------------------------------------------------

  /** The contributions of the answers so far, in order of arrival. */
  function Contributions(domain: string, hint: Transport, replies: Log<Reply>): seq<Target> {
    match replies
    case Empty => []
    case Then(past, r) =>
      var lk := Run(domain, hint, past);
      Contributions(domain, hint, past) + if Expected(lk, r) then Contribution(lk, r) else []
  }

  lemma CutTwice(a: seq<Target>, b: seq<Target>)
    ensures Cut(Cut(a, MAX_TARGETS) + b, MAX_TARGETS) == Cut(a + b, MAX_TARGETS)
  {
  }

  /** Under every order of answers and launch failures, the targets are the
    contributions in order of arrival, cut at sixteen; and once complete the app
    has been given exactly these, in the required order. */
  lemma {:induction false} TargetsOfARun(domain: string, hint: Transport, replies: Log<Reply>)
    ensures var lk := Run(domain, hint, replies);
            && Fits(lk) && lk.domain == Take(domain, 256) && lk.hint == hint
            && lk.targets == Cut(Contributions(domain, hint, replies), MAX_TARGETS)
            && (Outstanding(lk) == 0 ==>
                  lk.calls == Then(Empty, Done(Sort(Cut(Contributions(domain, hint, replies), MAX_TARGETS)), 0)))
  {
    hide Step, Contribution, Sort, Cut;
    CompletesExactlyOnce(domain, hint, replies);
    match replies
    case Empty => CutEmpty();
    case Then(past, r) =>
      TargetsOfARun(domain, hint, past);
      var lk := Run(domain, hint, past);
      if Expected(lk, r) {
        CutTwice(Contributions(domain, hint, past), Contribution(lk, r));
        if r.Srv? { SrvIs(lk, r); } else { NaptrIs(lk, r); }
      } else {
        assert Contributions(domain, hint, past) + [] == Contributions(domain, hint, past);
      }
  }

  /** An explicit port is answered at once with the domain and that port. */
  lemma {:induction false} PortIsAnswered(domain: string, hint: Transport, port: nat, launched: bool, replies: Log<Reply>)
    requires port > 0
    ensures Completions(domain, hint, port, launched, replies)
         == Then(Empty, Done([Target(hint, Take(domain, 256), port, 0, 0)], 0))
  {
  }
}
