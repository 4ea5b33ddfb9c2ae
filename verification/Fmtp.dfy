/** The fmtp bitrate rewrite of src/adapt.c: drop every maxaveragebitrate from a
  `;`-separated parameter list, in a fixed buffer, and append a new one. */
module Fmtp {
  import opened CStrings
  import Decimal

  const KEY := "maxaveragebitrate"

  // ---------------------------------------------------------------------
  // The list behind the string
  // ---------------------------------------------------------------------

  /** The first semicolon, or the length. */
  function Semi(s: string): (k: nat)
    ensures k <= |s| && (k < |s| ==> s[k] == ';')
    ensures forall j :: 0 <= j < k ==> s[j] != ';'
  {
    if s == [] || s[0] == ';' then 0 else 1 + Semi(s[1..])
  }

  /** strncasecmp of `s` with the key over the key's length. */
  predicate StartsWithKey(s: string) {
    |s| >= |KEY| && forall i :: 0 <= i < |KEY| ==> Lower(s[i]) == KEY[i]
  }

  /** The parameter being replaced, with or without a value, in any case. */
  predicate IsBitrate(t: string) {
    StartsWithKey(t) && (|t| == |KEY| || t[|KEY|] == '=')
  }

  predicate IsKept(t: string) {
    t != "" && !IsBitrate(t)
  }

  function Split(s: string): (ts: seq<string>)
    decreases |s|
  {
    if s == [] then []
    else if Semi(s) == |s| then [s]
    else [s[..Semi(s)]] + Split(s[Semi(s) + 1..])
  }

  function Filter(ts: seq<string>, p: string -> bool): seq<string> {
    if ts == [] then []
    else (if p(ts[0]) then [ts[0]] else []) + Filter(ts[1..], p)
  }

  /** The parameters that survive, in order. */
  function Kept(s: string): seq<string> {
    Filter(Split(s), IsKept)
  }

  /** The parameters of the list that are bitrates. */
  function Bitrates(s: string): seq<string> {
    Filter(Split(s), IsBitrate)
  }

  /** `out`, a separator where one is needed, then `t`. */
  function Append(out: string, t: string): string {
    if out == "" then t else out + ";" + t
  }

  function JoinOnto(out: string, ts: seq<string>): string
    decreases |ts|
  {
    if ts == [] then out else JoinOnto(Append(out, ts[0]), ts[1..])
  }

  function Join(ts: seq<string>): string {
    JoinOnto("", ts)
  }

  function Param(bitrate: nat): string {
    KEY + "=" + Decimal.Print(bitrate)
  }

  /** The list with the bitrate replaced; zero only strips it. */
  function Rewritten(s: string, bitrate: nat): string {
    Join(Kept(s) + if bitrate == 0 then [] else [Param(bitrate)])
  }

  /** Exactly when the rewrite succeeds in `size` bytes: the copy loop wants one
    byte more than it uses for a first parameter, the rest must fit with its
    terminator. */
  predicate Fits(s: string, bitrate: nat, size: nat) {
    && size > 0
    && (Kept(s) != [] ==> |Kept(s)[0]| + 2 <= size)
    && |Rewritten(s, bitrate)| < size
  }

  // ---------------------------------------------------------------------
  // Splitting undoes joining
  // ---------------------------------------------------------------------

  predicate IsToken(t: string) {
    t != "" && ';' !in t
  }

  predicate AllTokens(ts: seq<string>) {
    forall i :: 0 <= i < |ts| ==> IsToken(ts[i])
  }

  lemma SemiIs(s: string, k: nat)
    requires k <= |s| && (k < |s| ==> s[k] == ';') && forall j :: 0 <= j < k ==> s[j] != ';'
    ensures Semi(s) == k
  {
    hide Semi;
  }

  lemma FilterStep(t: string, ts: seq<string>, p: string -> bool)
    ensures Filter([t] + ts, p) == (if p(t) then [t] else []) + Filter(ts, p)
  {
    assert ([t] + ts)[1..] == ts;
  }

  lemma FilterOne(t: string, p: string -> bool)
    ensures Filter([t], p) == if p(t) then [t] else []
  {
    FilterStep(t, [], p);
    assert [t] + [] == [t];
  }

  lemma SplitStep(s: string)
    ensures s == [] ==> Split(s) == []
    ensures s != [] && Semi(s) == |s| ==> Split(s) == [s]
    ensures Semi(s) < |s| ==> Split(s) == [s[..Semi(s)]] + Split(s[Semi(s) + 1..])
  {
    hide Semi;
  }

  /** The head of the split decides alone. */
  lemma FilterSplitStep(s: string, p: string -> bool)
    requires !p("")
    ensures Filter(Split(s), p) ==
            (if p(s[..Semi(s)]) then [s[..Semi(s)]] else [])
            + (if Semi(s) < |s| then Filter(Split(s[Semi(s) + 1..]), p) else [])
  {
    hide Filter, Split;
    var k := Semi(s);
    SplitStep(s);
    var head := if p(s[..k]) then [s[..k]] else [];
    assert head + [] == head;
    if s == [] {
      FilterNone(p);
      assert head == [];
    } else if k == |s| {
      assert s[..k] == s;
      FilterOne(s, p);
      assert Filter(Split(s), p) == head;
    } else {
      FilterStep(s[..k], Split(s[k + 1..]), p);
    }
  }

  lemma FilterNone(p: string -> bool)
    ensures Filter([], p) == []
  {
  }

  /** The first separator of a longer list is where it was, or the new one. */
  lemma SemiOfAppend(out: string, t: string)
    ensures var (s, k) := (out + ";" + t, Semi(out));
            && Semi(s) == k && k < |s| && s[..k] == out[..k]
            && s[k + 1..] == if k == |out| then t else out[k + 1..] + ";" + t
  {
    hide Semi;
    var s, k := out + ";" + t, Semi(out);
    Appended(out, t);
    CutAppended(out, t, k);
    SemiIs(s, k);
  }

  lemma Appended(out: string, t: string)
    ensures var s := out + ";" + t;
            |s| == |out| + 1 + |t| && s[|out|] == ';' && forall j :: 0 <= j < |out| ==> s[j] == out[j]
  {
  }

  lemma CutAppended(out: string, t: string, k: nat)
    requires k <= |out|
    ensures (out + ";" + t)[..k] == out[..k]
    ensures (out + ";" + t)[k + 1..] == if k == |out| then t else out[k + 1..] + ";" + t
  {
    if k < |out| {
      assert out + ";" + t == out[..k + 1] + (out[k + 1..] + ";" + t);
    }
  }

  /** Empty parameters apart, splitting distributes over a separator. */
  lemma {:induction false} FilterSplitAppend(out: string, t: string, p: string -> bool)
    requires IsToken(t) && !p("")
    ensures Filter(Split(out + ";" + t), p) == Filter(Split(out), p) + Filter([t], p)
    decreases |out|
  {
    hide Filter, Split, Semi, IsToken;
    var s, k := out + ";" + t, Semi(out);
    SemiOfAppend(out, t);
    FilterSplitStep(s, p);
    FilterSplitStep(out, p);
    var head, one := if p(out[..k]) then [out[..k]] else [], Filter([t], p);
    if k == |out| {
      SplitToken(t);
      assert Filter(Split(s), p) == head + one;
      assert head + [] == head;
    } else {
      var rest := out[k + 1..];
      FilterSplitAppend(rest, t, p);
      Associates(head, Filter(Split(rest), p), one);
    }
  }

  lemma Associates(a: seq<string>, b: seq<string>, c: seq<string>)
    ensures a + (b + c) == (a + b) + c
  {
  }

  lemma SplitToken(t: string)
    requires IsToken(t)
    ensures Split(t) == [t]
  {
    SemiIs(t, |t|);
  }

  lemma AppendFilters(out: string, t: string, p: string -> bool)
    requires IsToken(t) && !p("")
    ensures Filter(Split(Append(out, t)), p) == Filter(Split(out), p) + Filter([t], p)
  {
    hide Filter;
    if out == "" {
      FilterNone(p);
      SplitToken(t);
    } else {
      FilterSplitAppend(out, t, p);
    }
  }

  lemma {:induction false} FilterConcat(a: seq<string>, b: seq<string>, p: string -> bool)
    ensures Filter(a + b, p) == Filter(a, p) + Filter(b, p)
    decreases |a|
  {
    hide Filter;
    if a == [] {
      assert a + b == b;
      FilterNone(p);
    } else {
      FilterConcat(a[1..], b, p);
      assert a == [a[0]] + a[1..] && a + b == [a[0]] + (a[1..] + b);
      FilterStep(a[0], a[1..], p);
      FilterStep(a[0], a[1..] + b, p);
    }
  }

  lemma {:induction false} JoinFilters(out: string, ts: seq<string>, p: string -> bool)
    requires AllTokens(ts) && !p("")
    ensures Filter(Split(JoinOnto(out, ts)), p) == Filter(Split(out), p) + Filter(ts, p)
    decreases |ts|
  {
    hide Filter, Split, IsToken;
    if ts == [] {
      FilterNone(p);
    } else {
      AppendFilters(out, ts[0], p);
      JoinFilters(Append(out, ts[0]), ts[1..], p);
      FilterConcat([ts[0]], ts[1..], p);
      assert ts == [ts[0]] + ts[1..];
    }
  }

  lemma {:induction false} KeptAreTokens(s: string)
    ensures AllTokens(Kept(s)) && forall i :: 0 <= i < |Kept(s)| ==> IsKept(Kept(s)[i])
    decreases |s|
  {
    hide Filter, Split, IsBitrate;
    FilterSplitStep(s, IsKept);
    var k := Semi(s);
    assert ';' !in s[..k];
    if k < |s| { KeptAreTokens(s[k + 1..]); }
  }

  lemma {:induction false} FilterAll(ts: seq<string>, p: string -> bool, q: string -> bool)
    requires forall i :: 0 <= i < |ts| ==> p(ts[i]) && !q(ts[i])
    ensures Filter(ts, p) == ts && Filter(ts, q) == []
    decreases |ts|
  {
    if ts != [] {
      FilterAll(ts[1..], p, q);
      assert ts == [ts[0]] + ts[1..];
    }
  }

  lemma ParamIsBitrate(bitrate: nat)
    ensures IsToken(Param(bitrate)) && IsBitrate(Param(bitrate)) && !IsKept(Param(bitrate))
  {
    assert ';' !in Decimal.Print(bitrate);
    assert forall i :: 0 <= i < |KEY| ==> Param(bitrate)[i] == KEY[i];
    assert ';' !in KEY;
  }

  function LowerAll(t: string): string {
    seq(|t|, i requires 0 <= i < |t| => Lower(t[i]))
  }

  /** The parameter is known by its whole key, bare or before '=', in any case. */
  lemma {:induction false} KeyIs(t: string, v: string, c: char)
    ensures IsBitrate(t) <==> LowerAll(t) == KEY || (|t| > |KEY| && LowerAll(t[..|KEY|]) == KEY && t[|KEY|] == '=')
    ensures IsBitrate(KEY) && IsBitrate(KEY + "=" + v) && (IsBitrate(KEY + [c] + v) <==> c == '=')
    ensures !IsBitrate(v + t) || |v + t| >= |KEY|
  {
    assert LowerAll(t) == KEY ==> forall i :: 0 <= i < |KEY| ==> LowerAll(t)[i] == KEY[i];
    if |t| >= |KEY| {
      assert LowerAll(t[..|KEY|]) == KEY ==> forall i :: 0 <= i < |KEY| ==> LowerAll(t[..|KEY|])[i] == KEY[i];
      if StartsWithKey(t) { assert LowerAll(t[..|KEY|]) == KEY; }
    }
    var (a, b) := (KEY + "=" + v, KEY + [c] + v);
    assert forall i :: 0 <= i < |KEY| ==> a[i] == KEY[i] && b[i] == KEY[i];
    assert a[|KEY|] == '=' && b[|KEY|] == c;
  }

  // ---------------------------------------------------------------------
  // What the rewrite means
  // ---------------------------------------------------------------------

  /** Every other parameter survives, in order, and the new bitrate is the only
    one. */
  lemma RewriteReplaces(s: string, bitrate: nat)
    ensures Kept(Rewritten(s, bitrate)) == Kept(s)
    ensures Bitrates(Rewritten(s, bitrate)) == if bitrate == 0 then [] else [Param(bitrate)]
  {
    var kept := Kept(s);
    KeptAreTokens(s);
    ParamIsBitrate(bitrate);
    var added := if bitrate == 0 then [] else [Param(bitrate)];
    assert AllTokens(kept + added);
    JoinFilters("", kept + added, IsKept);
    JoinFilters("", kept + added, IsBitrate);
    FilterConcat(kept, added, IsKept);
    FilterConcat(kept, added, IsBitrate);
    FilterAll(kept, IsKept, IsBitrate);
    FilterAll(added, IsBitrate, IsKept);
  }

  /** Adapting an already adapted list is adapting the original: same result,
    same success, in a buffer of any size. */
  lemma RewriteTwice(s: string, first: nat, second: nat, size: nat)
    ensures Rewritten(Rewritten(s, first), second) == Rewritten(s, second)
    ensures Fits(Rewritten(s, first), second, size) <==> Fits(s, second, size)
  {
    RewriteReplaces(s, first);
  }

  // ---------------------------------------------------------------------
  // The buffer loop
  // ---------------------------------------------------------------------

  lemma {:induction false} JoinGrows(out: string, ts: seq<string>)
    requires AllTokens(ts)
    ensures |JoinOnto(out, ts)| >= |out|
    ensures ts != [] ==> |JoinOnto(out, ts)| >= |Append(out, ts[0])|
    decreases |ts|
  {
    if ts != [] { JoinGrows(Append(out, ts[0]), ts[1..]); }
  }

  lemma {:induction false} JoinConcat(out: string, a: seq<string>, b: seq<string>)
    ensures JoinOnto(out, a + b) == JoinOnto(JoinOnto(out, a), b)
    decreases |a|
  {
    if a == [] {
      assert a + b == b;
    } else {
      JoinConcat(Append(out, a[0]), a[1..], b);
      assert (a + b)[1..] == a[1..] + b;
    }
  }

  /** The string a NUL-terminated buffer holds, `pos` being its terminator. */
  ghost predicate Holds(buf: array<char>, pos: nat, text: string)
    reads buf
  {
    pos < buf.Length && buf[pos] == 0 as char && buf[..pos] == text
  }

  /** memcpy and terminator. */
  method Write(buf: array<char>, pos: nat, t: string)
    requires pos + |t| < buf.Length
    modifies buf
    ensures Holds(buf, pos + |t|, old(buf[..pos]) + t)
  {
    for i := 0 to |t|
      invariant buf[..pos] == old(buf[..pos])
      invariant buf[pos..pos + i] == t[..i]
    {
      buf[pos + i] := t[i];
      assert buf[pos..pos + i + 1] == buf[pos..pos + i] + [t[i]];
    }
    buf[pos + |t|] := 0 as char;
    assert buf[..pos + |t|] == buf[..pos] + buf[pos..pos + |t|];
  }

  /** One parameter copied behind a separator; the loop's own size test. */
  method CopyParam(buf: array<char>, pos: nat, t: string) returns (ok: bool, end: nat)
    requires pos < buf.Length && buf[pos] == 0 as char
    modifies buf
    ensures ok == (pos + |t| + 2 <= buf.Length)
    ensures ok ==> end == |Append(old(buf[..pos]), t)| && Holds(buf, end, Append(old(buf[..pos]), t))
    ensures !ok ==> end == pos && Holds(buf, pos, old(buf[..pos]))
  {
    if pos + |t| + 2 > buf.Length { return false, pos; }
    end := pos;
    if pos > 0 {
      buf[end] := ';';
      end := end + 1;
      assert buf[..end] == old(buf[..pos]) + ";";
    }
    Write(buf, end, t);
    end := end + |t|;
    ok := true;
  }

  /** Exactly when the copy loop gets through. */
  predicate CopyFits(s: string, size: nat) {
    && (Kept(s) != [] ==> |Kept(s)[0]| + 2 <= size)
    && |Join(Kept(s))| < size
  }

  /** The copy loop: walk the source from semicolon to semicolon. */
  method CopyKept(buf: array<char>, src: string) returns (ok: bool, pos: nat)
    requires buf.Length > 0
    modifies buf
    ensures ok == CopyFits(src, buf.Length)
    ensures ok ==> Holds(buf, pos, Join(Kept(src)))
  {
    hide Split, Filter, IsBitrate, JoinOnto, Kept, IsToken;
    buf[0] := 0 as char;
    pos := 0;
    var p: nat := 0;
    var done := src == [];
    ghost var out: string := "";
    ghost var rest := Kept(src);
    KeptAreTokens(src);
    StartOfSource(src);
    while !done
      invariant p <= |src| && (done || p < |src|)
      invariant Holds(buf, pos, out)
      invariant AllTokens(rest) && rest == (if done then [] else Kept(src[p..]))
      invariant Join(Kept(src)) == JoinOnto(out, rest)
      invariant out == "" ==> rest == Kept(src)
      invariant out != "" ==> Kept(src) != [] && |Kept(src)[0]| + 2 <= buf.Length
      decreases if done then 0 else 1, |src| - p
    {
      var k := Semi(src[p..]);
      var t := src[p..][..k];
      KeptUnfolds(src, p);
      if IsKept(t) {
        var copied, next := CopyParam(buf, pos, t);
        if !copied {
          TooLong(src, out, rest, buf.Length);
          return false, pos;
        }
        JoinStep(out, rest);
        out := Append(out, t);
        pos := next;
        rest := rest[1..];
      }
      if p + k == |src| || p + k + 1 == |src| { done := true; } else { p := p + k + 1; }
    }
    JoinEnd(out);
    ok := true;
  }

  /** vox_adapt_fmtp_set_bitrate: succeeds exactly when the rewrite fits, leaves
    it in the buffer, and never writes outside. */
  method SetBitrate(buf: array<char>, src: string, bitrate: nat) returns (ok: bool, ghost end: nat)
    modifies buf
    ensures ok == Fits(src, bitrate, buf.Length)
    ensures ok ==> Holds(buf, end, Rewritten(src, bitrate))
  {
    hide Kept, Join, Param;
    end := 0;
    if buf.Length == 0 { return false, 0; }
    RewrittenParts(src, bitrate);
    var pos: nat;
    ok, pos := CopyKept(buf, src);
    end := pos;
    if !ok || bitrate == 0 { return; }
    var text := if pos > 0 then ";" + Param(bitrate) else Param(bitrate);
    ghost var out := Join(Kept(src));
    assert out + text == Append(out, Param(bitrate));
    ok := pos + |text| < buf.Length;
    if ok {
      Write(buf, pos, text);
      end := pos + |text|;
    }
  }

  lemma RewrittenParts(src: string, bitrate: nat)
    ensures Rewritten(src, bitrate) ==
            if bitrate == 0 then Join(Kept(src)) else Append(Join(Kept(src)), Param(bitrate))
    ensures |Join(Kept(src))| <= |Rewritten(src, bitrate)|
  {
    hide Kept, Param;
    JoinConcat("", Kept(src), [Param(bitrate)]);
    JoinStep(Join(Kept(src)), [Param(bitrate)]);
    JoinEnd(Append(Join(Kept(src)), Param(bitrate)));
    assert Kept(src) + [] == Kept(src);
  }

  lemma JoinStep(out: string, ts: seq<string>)
    requires ts != []
    ensures JoinOnto(out, ts) == JoinOnto(Append(out, ts[0]), ts[1..])
  {
  }

  lemma JoinEnd(out: string)
    ensures JoinOnto(out, []) == out
  {
  }

  lemma StartOfSource(src: string)
    ensures src[0..] == src && (src == [] ==> Kept(src) == [])
  {
  }

  /** What the loop sees at `p` is the head of the split. */
  lemma KeptUnfolds(src: string, p: nat)
    requires p < |src|
    ensures var k := Semi(src[p..]);
            Kept(src[p..]) == (if IsKept(src[p..][..k]) then [src[p..][..k]] else [])
                              + (if p + k + 1 >= |src| then [] else Kept(src[p + k + 1..]))
  {
    hide Filter, Split, IsBitrate;
    var s := src[p..];
    var k := Semi(s);
    FilterSplitStep(s, IsKept);
    if k < |s| { assert s[k + 1..] == src[p + k + 1..]; }
    if k + 1 == |s| { assert s[k + 1..] == ""; }
    NothingKept();
  }

  lemma NothingKept()
    ensures Kept("") == []
  {
  }

  /** The loop's size test fails only when the whole does not fit. */
  lemma TooLong(src: string, out: string, rest: seq<string>, size: nat)
    requires rest != [] && AllTokens(rest) && Join(Kept(src)) == JoinOnto(out, rest)
    requires out == "" ==> rest == Kept(src)
    requires |out| + |rest[0]| + 2 > size
    ensures !CopyFits(src, size)
  {
    hide Kept;
    JoinGrows(out, rest);
  }

  /** The margin is real: the one parameter "a" and its terminator are two bytes,
    and two bytes are refused. */
  lemma {:induction false} MarginRefusesAFittingList()
    ensures Rewritten("a", 0) == "a" && |Rewritten("a", 0)| < 2 && !Fits("a", 0, 2)
  {
    hide Filter;
    assert "a"[0] == 'a';
    SplitToken("a");
    assert !IsBitrate("a");
    FilterOne("a", IsKept);
    assert Kept("a") == ["a"];
    JoinStep("", ["a"]);
    JoinEnd("a");
    assert ["a"][1..] == [] && ["a"] + [] == ["a"];
  }
}
