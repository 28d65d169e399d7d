// CPU pinning: core lists as Docker prints them, and the choice of the cores the
// fewest running instances are pinned to.
module Cpuset {
  import opened Text

  // ── Numbers and spaces, as the core list needs them ───────────────────────

  function Digit(d: nat): char
    requires d < 10
  {
    "0123456789"[d]
  }

  function Decimal(n: nat): (s: string)
    ensures |s| > 0 && forall c :: c in s ==> c in "0123456789"
  {
    if n < 10 then [Digit(n)] else Decimal(n / 10) + [Digit(n % 10)]
  }

  predicate IsSpace(c: char) { c == ' ' || c == '\t' || c == '\n' || c == '\r' }

  function Trim(s: string): string {
    if s == "" then ""
    else if IsSpace(s[0]) then Trim(s[1..])
    else if IsSpace(s[|s| - 1]) then Trim(s[..|s| - 1])
    else s
  }

  // The host's string-to-number conversion; None for anything not an integer.
  type Reader = string -> Option<int>

  ghost predicate ReadsDecimals(number: Reader) { forall n: nat :: number(Decimal(n)) == Some(n) }

  // ── Reading a core list ───────────────────────────────────────────────────

  /** The cores from `start` to `end` that the node has. */
  function Range(start: int, end: int, total: int): (r: seq<nat>)
    ensures forall k: nat :: k in r <==> start <= k <= end && k < total
    decreases end - start + 1
  {
    if start > end || start >= total then []
    else
      var rest := Range(start + 1, end, total);
      if start >= 0 then [start] + rest else rest
  }

  lemma {:induction false} RangeAscends(start: int, end: int, total: int)
    ensures Ascending(Range(start, end, total))
    decreases end - start + 1
  {
    if start <= end && start < total {
      RangeAscends(start + 1, end, total);
      var r, rest := Range(start, end, total), Range(start + 1, end, total);
      assert r == if start >= 0 then [start] + rest else rest;
      forall j | 0 <= j < |rest| ensures rest[j] > start {
        var k: nat := rest[j];
        assert k in rest;
      }
    }
  }

  /** One comma-separated part: a core, a range, or nothing if malformed. A second
      dash and whatever follows it is ignored. */
  function PartCores(part: string, total: int, number: Reader): seq<nat> {
    var pieces := Split(Trim(part), '-');
    if pieces[0] == "" || (|pieces| > 1 && pieces[1] == "") then []
    else
      var start := number(pieces[0]);
      var end := if |pieces| > 1 then number(pieces[1]) else start;
      if start.None? || end.None? then [] else Range(start.value, end.value, total)
  }

  function PartsCores(parts: seq<string>, total: int, number: Reader): seq<nat> {
    if parts == [] then []
    else PartsCores(parts[..|parts| - 1], total, number) + PartCores(parts[|parts| - 1], total, number)
  }

  function Cores(cpuset: string, total: int, number: Reader): seq<nat> {
    if cpuset == "" then [] else PartsCores(Split(cpuset, ','), total, number)
  }

  method WalkRange(start: int, end: int, total: int) returns (cores: seq<nat>)
    ensures cores == Range(start, end, total)
  {
    cores := [];
    var core := start;
    while core <= end && core < total
      invariant Range(start, end, total) == cores + Range(core, end, total)
      decreases end - core
    {
      if core >= 0 { cores := cores + [core]; }
      core := core + 1;
    }
  }

  method ParseCpuset(cpuset: Option<string>, total: int, number: Reader) returns (cores: seq<nat>)
    ensures cores == if cpuset.None? then [] else Cores(cpuset.value, total, number)
    ensures forall k :: k in cores ==> k < total
  {
    cores := [];
    if cpuset.None? || cpuset.value == "" { return; }
    var parts := Split(cpuset.value, ',');
    for i := 0 to |parts|
      invariant cores == PartsCores(parts[..i], total, number)
      invariant forall k :: k in cores ==> k < total
    {
      assert parts[..i + 1][..i] == parts[..i];
      var range := Trim(parts[i]);
      var pieces := Split(range, '-');
      if range == "" || pieces[0] == "" || (|pieces| > 1 && pieces[1] == "") {
        assert range == "" ==> pieces == [""];
        assert PartCores(parts[i], total, number) == [];
        continue;
      }
      var start := number(pieces[0]);
      var end := if |pieces| > 1 then number(pieces[1]) else start;
      if start.None? || end.None? {
        assert PartCores(parts[i], total, number) == [];
        continue;
      }
      var more := WalkRange(start.value, end.value, total);
      cores := cores + more;
    }
    assert parts[..|parts|] == parts;
  }

  // ── Printing, and the way back ────────────────────────────────────────────

  function Printed(cores: seq<nat>): seq<string> { seq(|cores|, i requires 0 <= i < |cores| => Decimal(cores[i])) }

  function Print(cores: seq<nat>): string { if cores == [] then "" else Join(Printed(cores), ',') }

  lemma TrimSolid(s: string)
    requires forall c :: c in s ==> !IsSpace(c)
    ensures Trim(s) == s
  {
    if s != "" { assert s[0] in s && s[|s| - 1] in s; }
  }

  lemma DecimalPart(n: nat, total: int, number: Reader)
    requires ReadsDecimals(number)
    ensures PartCores(Decimal(n), total, number) == if n < total then [n] else []
  {
    var s := Decimal(n);
    TrimSolid(s);
    SplitPlain(s, '-');
    assert number(s) == Some(n);
    assert Range(n, n, total) == if n < total then [n] + Range(n + 1, n, total) else [];
  }

  lemma {:induction false} PartsRoundTrip(cores: seq<nat>, total: int, number: Reader)
    requires ReadsDecimals(number) && forall c :: c in cores ==> c < total
    ensures PartsCores(Printed(cores), total, number) == cores
  {
    hide PartCores, Decimal, Split;
    if cores != [] {
      var rest := cores[..|cores| - 1];
      assert forall c :: c in rest ==> c in cores;
      assert cores[|cores| - 1] in cores;
      PartsRoundTrip(rest, total, number);
      assert Printed(cores)[..|cores| - 1] == Printed(rest);
      DecimalPart(cores[|cores| - 1], total, number);
    }
  }

  /** Reading a printed core list gives the list back. */
  lemma RoundTrip(cores: seq<nat>, total: int, number: Reader)
    requires ReadsDecimals(number) && forall c :: c in cores ==> c < total
    ensures Cores(Print(cores), total, number) == cores
  {
    if cores != [] {
      var parts := Printed(cores);
      forall p | p in parts ensures ',' !in p {
        var i :| 0 <= i < |parts| && parts[i] == p;
      }
      SplitJoin(parts, ',');
      assert Join(parts, ',') != "" by { assert |parts[0]| > 0; }
      PartsRoundTrip(cores, total, number);
    }
  }

  // A core list as people write it: cores and ranges, with spaces around them.
  datatype Item = One(core: nat) | Span(first: nat, last: nat)
  datatype Padded = Padded(before: string, item: Item, after: string)

  predicate Blank(s: string) { forall c :: c in s ==> IsSpace(c) }

  function Shown(item: Item): string {
    match item
    case One(core) => Decimal(core)
    case Span(first, last) => Decimal(first) + "-" + Decimal(last)
  }

  function Written(p: Padded): string { p.before + Shown(p.item) + p.after }

  function Named(item: Item, total: int): seq<nat> {
    match item
    case One(core) => Range(core, core, total)
    case Span(first, last) => Range(first, last, total)
  }

  lemma {:induction false} TrimPadded(before: string, s: string, after: string)
    requires Blank(before) && Blank(after) && s != "" && forall c :: c in s ==> !IsSpace(c)
    ensures Trim(before + s + after) == s
    decreases |before| + |after|
  {
    var all := before + s + after;
    if before != "" {
      assert all[0] == before[0] && before[0] in before && all[1..] == before[1..] + s + after;
      TrimPadded(before[1..], s, after);
    } else if after != "" {
      assert all[0] == s[0] && s[0] in s && all[|all| - 1] == after[|after| - 1] && after[|after| - 1] in after;
      assert all[..|all| - 1] == before + s + after[..|after| - 1];
      TrimPadded(before, s, after[..|after| - 1]);
    } else {
      assert all == s;
      TrimSolid(s);
    }
  }

  /** One item, spaces and all, reads as the cores it names. */
  lemma ItemReads(p: Padded, total: int, number: Reader)
    requires ReadsDecimals(number) && Blank(p.before) && Blank(p.after)
    ensures PartCores(Written(p), total, number) == Named(p.item, total)
  {
    var s := Shown(p.item);
    TrimPadded(p.before, s, p.after);
    match p.item {
      case One(core) => SplitPlain(s, '-'); assert number(s) == Some(core);
      case Span(first, last) =>
        assert s == Decimal(first) + ['-'] + Decimal(last);
        SplitFirst(Decimal(first), Decimal(last), '-');
        SplitPlain(Decimal(last), '-');
        assert number(Decimal(first)) == Some(first) && number(Decimal(last)) == Some(last);
    }
  }

  function AllWritten(items: seq<Padded>): seq<string> { seq(|items|, i requires 0 <= i < |items| => Written(items[i])) }

  function AllNamed(items: seq<Padded>, total: int): seq<nat> {
    if items == [] then [] else AllNamed(items[..|items| - 1], total) + Named(items[|items| - 1].item, total)
  }

  lemma {:induction false} PartsRead(items: seq<Padded>, total: int, number: Reader)
    requires ReadsDecimals(number) && forall p :: p in items ==> Blank(p.before) && Blank(p.after)
    ensures PartsCores(AllWritten(items), total, number) == AllNamed(items, total)
  {
    hide PartCores, Decimal, Split, Written, Named, Blank, ReadsDecimals;
    if items != [] {
      var n := |items| - 1;
      assert items[n] in items && forall p :: p in items[..n] ==> p in items;
      PartsRead(items[..n], total, number);
      var parts := AllWritten(items);
      assert parts[..n] == AllWritten(items[..n]) && parts[n] == Written(items[n]) && |parts| == n + 1;
      ItemReads(items[n], total, number);
      hide AllWritten;
    }
  }

  /** A list of cores and ranges reads, in order, as the cores below the node's count
      that it names: from the first of each range to its last. */
  lemma ListReads(items: seq<Padded>, total: int, number: Reader)
    requires ReadsDecimals(number) && items != [] && forall p :: p in items ==> Blank(p.before) && Blank(p.after)
    ensures Cores(Join(AllWritten(items), ','), total, number) == AllNamed(items, total)
    ensures forall p :: p in items ==> Ascending(Named(p.item, total))
  {
    forall p | p in items ensures Ascending(Named(p.item, total)) {
      if p.item.One? { RangeAscends(p.item.core, p.item.core, total); } else { RangeAscends(p.item.first, p.item.last, total); }
    }
    var parts := AllWritten(items);
    forall part | part in parts ensures ',' !in part && part != "" {
      var i :| 0 <= i < |parts| && parts[i] == part;
      assert items[i] in items;
      NoComma(items[i]);
    }
    SplitJoin(parts, ',');
    assert parts[0] in parts;
    PartsRead(items, total, number);
  }

  lemma NoComma(p: Padded)
    requires Blank(p.before) && Blank(p.after)
    ensures ',' !in Written(p) && Written(p) != ""
  {
  }

  /** A part with an empty bound names nothing, and does not read as core 0. */
  lemma EmptyBoundIsNothing(n: nat, total: int, number: Reader)
    ensures PartCores("", total, number) == [] && PartCores("-", total, number) == []
    ensures PartCores("-" + Decimal(n), total, number) == [] && PartCores(Decimal(n) + "-", total, number) == []
  {
    var s := Decimal(n);
    TrimSolid("-");
    SplitFirst("", "", '-');
    assert "" + ['-'] + "" == "-";
    TrimSolid("-" + s);
    SplitFirst("", s, '-');
    assert "" + ['-'] + s == "-" + s;
    TrimSolid(s + "-");
    SplitFirst(s, "", '-');
    assert s + ['-'] + "" == s + "-";
  }

  // ── The least used cores ──────────────────────────────────────────────────

  function UseOf(usage: seq<nat>, c: nat): nat { if c < |usage| then usage[c] else 0 }

  /** Fewer instances first, lower core number first; by core number alone when
      no usage is given. */
  predicate Before(usage: seq<nat>, a: nat, b: nat) {
    UseOf(usage, a) < UseOf(usage, b) || (UseOf(usage, a) == UseOf(usage, b) && a < b)
  }

  ghost predicate Sorted(usage: seq<nat>, s: seq<nat>) { forall i, j :: 0 <= i < j < |s| ==> Before(usage, s[i], s[j]) }

  function Insert(usage: seq<nat>, s: seq<nat>, c: nat): seq<nat> {
    if s == [] then [c] else if Before(usage, c, s[0]) then [c] + s else [s[0]] + Insert(usage, s[1..], c)
  }

  function Sort(usage: seq<nat>, s: seq<nat>): seq<nat> {
    if s == [] then [] else Insert(usage, Sort(usage, s[..|s| - 1]), s[|s| - 1])
  }

  lemma {:induction false} InsertSorts(usage: seq<nat>, s: seq<nat>, c: nat)
    requires Sorted(usage, s) && c !in s
    ensures Sorted(usage, Insert(usage, s, c)) && |Insert(usage, s, c)| == |s| + 1
    ensures forall k :: k in Insert(usage, s, c) <==> k in s || k == c
  {
    if s != [] && !Before(usage, c, s[0]) {
      var rest := Insert(usage, s[1..], c);
      assert s == [s[0]] + s[1..];
      InsertSorts(usage, s[1..], c);
      forall j | 0 <= j < |rest| ensures Before(usage, s[0], rest[j]) {
        assert rest[j] in rest;
        if rest[j] != c {
          var i :| 0 <= i < |s[1..]| && s[1..][i] == rest[j];
          assert s[i + 1] == rest[j];
        }
      }
    }
  }

  ghost predicate Distinct(s: seq<nat>) { forall i, j :: 0 <= i < j < |s| ==> s[i] != s[j] }

  lemma {:induction false} SortSorts(usage: seq<nat>, s: seq<nat>)
    requires Distinct(s)
    ensures Sorted(usage, Sort(usage, s)) && |Sort(usage, s)| == |s|
    ensures forall k :: k in Sort(usage, s) <==> k in s
  {
    if s != [] {
      var rest, last := s[..|s| - 1], s[|s| - 1];
      SortSorts(usage, rest);
      InsertSorts(usage, Sort(usage, rest), last);
      assert s == rest + [last];
    }
  }

  function AllCores(n: nat): (s: seq<nat>)
    ensures |s| == n && forall i :: 0 <= i < n ==> s[i] == i
  {
    seq(n, i => i)
  }

  function Cheapest(usage: seq<nat>, want: nat): seq<nat> {
    var sorted := Sort(usage, AllCores(|usage|));
    if want < |sorted| then sorted[..want] else sorted
  }

  function PickLeastUsedCores(usage: seq<nat>, want: nat): seq<nat> { Sort([], Cheapest(usage, want)) }

  /** No chosen core is used more than one left out, and of two used alike the lower
      one is chosen. */
  ghost predicate LeastUsed(usage: seq<nat>, chosen: seq<nat>) {
    forall c: nat, d: nat :: c in chosen && d < |usage| && d !in chosen ==>
      UseOf(usage, c) < UseOf(usage, d) || (UseOf(usage, c) == UseOf(usage, d) && c < d)
  }

  predicate Ascending(s: seq<nat>) { forall i, j :: 0 <= i < j < |s| ==> s[i] < s[j] }

  lemma CheapestIs(usage: seq<nat>, want: nat)
    ensures var chosen := Cheapest(usage, want);
      && Sorted(usage, chosen) && |chosen| == (if want < |usage| then want else |usage|)
      && (forall c :: c in chosen ==> c < |usage|)
      && LeastUsed(usage, chosen)
  {
    SortSorts(usage, AllCores(|usage|));
    var sorted, chosen := Sort(usage, AllCores(|usage|)), Cheapest(usage, want);
    forall c: nat ensures c in sorted <==> c < |usage| {
      if c < |usage| { assert AllCores(|usage|)[c] == c; }
    }
    assert forall c :: c in chosen ==> c in sorted;
    hide Sort, Cheapest;
    forall c: nat, d: nat | c in chosen && d < |usage| && d !in chosen
      ensures UseOf(usage, c) < UseOf(usage, d) || (UseOf(usage, c) == UseOf(usage, d) && c < d)
    {
      var i :| 0 <= i < |chosen| && chosen[i] == c;
      assert d in sorted;
      var j :| 0 <= j < |sorted| && sorted[j] == d;
      assert j >= |chosen| && sorted[i] == c;
      assert Before(usage, sorted[i], sorted[j]);
    }
  }

  /** Distinct cores in ascending order, as many as wanted or there are, none of
      them used more than any core left out, the lower of two used alike. */
  lemma PickedCores(usage: seq<nat>, want: nat)
    ensures var chosen := PickLeastUsedCores(usage, want);
      && Ascending(chosen) && |chosen| == (if want < |usage| then want else |usage|)
      && (forall c :: c in chosen ==> c < |usage|)
      && LeastUsed(usage, chosen)
  {
    CheapestIs(usage, want);
    SortSorts([], Cheapest(usage, want));
    hide Sort, Cheapest;
  }

  // ── Minimal total, and balance ────────────────────────────────────────────

  /** The total usage of the cores below n that are in `cores`. */
  function UsageSum(usage: seq<nat>, cores: set<nat>, n: nat): nat {
    if n == 0 then 0 else UsageSum(usage, cores, n - 1) + (if n - 1 in cores then UseOf(usage, n - 1) else 0)
  }

  function CountBelow(cores: set<nat>, n: nat): nat {
    if n == 0 then 0 else CountBelow(cores, n - 1) + (if n - 1 in cores then 1 else 0)
  }

  lemma {:induction false} CountIsSize(cores: set<nat>, n: nat)
    requires forall c :: c in cores ==> c < n
    ensures CountBelow(cores, n) == |cores|
    decreases n
  {
    if n > 0 {
      CountIsSize(cores - {n - 1}, n - 1);
      CountWithout(cores, n - 1, n - 1);
    } else {
      assert cores == {};
    }
  }

  lemma {:induction false} CountWithout(cores: set<nat>, c: nat, n: nat)
    requires n <= c
    ensures CountBelow(cores - {c}, n) == CountBelow(cores, n)
  {
    if n > 0 { CountWithout(cores, c, n - 1); }
  }

  /** Replacing chosen cores used at most t by as many used at least t. */
  lemma {:induction false} ExchangeBound(usage: seq<nat>, a: set<nat>, b: set<nat>, t: nat, n: nat)
    requires forall c :: c in a && c !in b ==> UseOf(usage, c) <= t
    requires forall c :: c in b && c !in a ==> UseOf(usage, c) >= t
    ensures UsageSum(usage, a, n) + t * CountBelow(b, n) <= UsageSum(usage, b, n) + t * CountBelow(a, n)
  {
    if n > 0 {
      ExchangeBound(usage, a, b, t, n - 1);
      Distribute(t, CountBelow(a, n - 1));
      Distribute(t, CountBelow(b, n - 1));
    }
  }

  lemma Distribute(t: nat, k: nat)
    ensures t * (k + 1) == t * k + t
  {
  }

  /** Of all sets of as many cores, the chosen ones have minimal total usage. */
  lemma MinimalTotal(usage: seq<nat>, want: nat, other: set<nat>)
    requires forall c :: c in other ==> c < |usage|
    requires |other| == |PickLeastUsedCores(usage, want)|
    ensures UsageSum(usage, Members(PickLeastUsedCores(usage, want)), |usage|) <= UsageSum(usage, other, |usage|)
  {
    PickedCores(usage, want);
    var picked := PickLeastUsedCores(usage, want);
    hide PickLeastUsedCores;
    var chosen := Members(picked);
    AscendingSize(picked);
    CountIsSize(chosen, |usage|);
    CountIsSize(other, |usage|);
    var t := Threshold(usage, picked, other);
    hide UsageSum, CountBelow, LeastUsed, Ascending, UseOf;
    ExchangeBound(usage, chosen, other, t, |usage|);
  }

  /** A level between the chosen cores and any others. */
  lemma {:induction false} Threshold(usage: seq<nat>, picked: seq<nat>, other: set<nat>) returns (t: nat)
    requires LeastUsed(usage, picked) && forall c :: c in other ==> c < |usage|
    ensures forall c :: c in picked ==> UseOf(usage, c) <= t
    ensures forall c :: c in other && c !in picked ==> UseOf(usage, c) >= t
  {
    t := 0;
    for i := 0 to |picked|
      invariant forall c :: c in picked[..i] ==> UseOf(usage, c) <= t
      invariant forall c :: c in other && c !in picked ==> UseOf(usage, c) >= t
    {
      assert picked[..i + 1] == picked[..i] + [picked[i]] && picked[i] in picked;
      if UseOf(usage, picked[i]) > t { t := UseOf(usage, picked[i]); }
    }
    assert picked[..|picked|] == picked;
  }

  function Members(s: seq<nat>): set<nat> { set c | c in s }

  lemma OneMoreMember(s: seq<nat>, last: nat)
    requires last !in s
    ensures |Members(s + [last])| == |Members(s)| + 1
  {
    assert Members(s + [last]) == Members(s) + {last};
  }

  lemma {:induction false} AscendingSize(s: seq<nat>)
    requires Ascending(s)
    ensures |Members(s)| == |s|
  {
    if s != [] {
      var rest, last := s[..|s| - 1], s[|s| - 1];
      AscendingSize(rest);
      assert s == rest + [last];
      OneMoreMember(rest, last);
    }
  }

  // ── Any sequence of allocations ───────────────────────────────────────────

  function Times(cores: seq<nat>, c: nat): nat {
    if cores == [] then 0 else Times(cores[..|cores| - 1], c) + (if cores[|cores| - 1] == c then 1 else 0)
  }

  /** How many running instances are pinned to each core. */
  function Usage(running: seq<string>, total: nat, number: Reader): (usage: seq<nat>)
    ensures |usage| == total
  {
    if running == [] then seq(total, _ => 0)
    else Add(Usage(running[..|running| - 1], total, number), Cores(running[|running| - 1], total, number))
  }

  function Add(usage: seq<nat>, cores: seq<nat>): (after: seq<nat>)
    ensures |after| == |usage|
  {
    seq(|usage|, c requires 0 <= c < |usage| => usage[c] + Times(cores, c))
  }

  /** The core list for a container of that quota; None leaves it unpinned. */
  function Allocated(running: seq<string>, want: int, total: nat, number: Reader): Option<string> {
    if want < 1 || total < 1 || want >= total then None
    else Some(Print(PickLeastUsedCores(Usage(running, total, number), want)))
  }

  /** The cores one allocation pins. */
  function Pinned(want: int, total: nat): nat { if want < 1 || total < 1 || want >= total then 0 else want }

  function Sum(usage: seq<nat>): nat { if usage == [] then 0 else Sum(usage[..|usage| - 1]) + usage[|usage| - 1] }

  ghost predicate Balanced(usage: seq<nat>) {
    forall c, d :: 0 <= c < |usage| && 0 <= d < |usage| ==> usage[c] <= usage[d] + 1
  }

  lemma {:induction false} TimesOnce(cores: seq<nat>, c: nat)
    requires Ascending(cores)
    ensures Times(cores, c) == if c in cores then 1 else 0
  {
    if cores != [] {
      var rest := cores[..|cores| - 1];
      TimesOnce(rest, c);
      assert cores == rest + [cores[|cores| - 1]];
    }
  }

  lemma AddKeepsBalance(usage: seq<nat>, chosen: seq<nat>)
    requires Balanced(usage) && LeastUsed(usage, chosen) && Ascending(chosen)
    ensures Balanced(Add(usage, chosen))
  {
    forall c, d | 0 <= c < |usage| && 0 <= d < |usage| ensures Add(usage, chosen)[c] <= Add(usage, chosen)[d] + 1 {
      TimesOnce(chosen, c);
      TimesOnce(chosen, d);
      assert usage[c] <= usage[d] + 1;
      if c in chosen && d !in chosen { assert UseOf(usage, c) <= UseOf(usage, d); }
    }
  }

  lemma {:induction false} AddSum(usage: seq<nat>, cores: seq<nat>)
    ensures Sum(Add(usage, cores)) == Sum(usage) + CountIn(cores, |usage|)
  {
    if usage != [] {
      var rest := usage[..|usage| - 1];
      AddSum(rest, cores);
      assert Add(usage, cores)[..|usage| - 1] == Add(rest, cores);
    }
  }

  /** Occurrences in `cores` of the cores below n. */
  function CountIn(cores: seq<nat>, n: nat): nat { if n == 0 then 0 else CountIn(cores, n - 1) + Times(cores, n - 1) }

  lemma {:induction false} CountInAll(cores: seq<nat>, n: nat)
    requires Ascending(cores) && forall c :: c in cores ==> c < n
    ensures CountIn(cores, n) == |cores|
  {
    AscendingSize(cores);
    CountIsSize(Members(cores), n);
    CountInIsBelow(cores, n);
  }

  lemma {:induction false} CountInIsBelow(cores: seq<nat>, n: nat)
    requires Ascending(cores)
    ensures CountIn(cores, n) == CountBelow(Members(cores), n)
  {
    if n > 0 {
      CountInIsBelow(cores, n - 1);
      TimesOnce(cores, n - 1);
    }
  }

  lemma {:induction false} SumZero(usage: seq<nat>)
    requires forall c :: 0 <= c < |usage| ==> usage[c] == 0
    ensures Sum(usage) == 0
  {
    if usage != [] { SumZero(usage[..|usage| - 1]); }
  }

  /** One more container changes the usage by exactly the cores it is pinned to,
      as read back from its printed core list. */
  lemma NextUsage(running: seq<string>, want: int, total: nat, number: Reader)
    requires ReadsDecimals(number)
    ensures var usage, pin := Usage(running, total, number), Allocated(running, want, total, number);
      Usage(running + [if pin.Some? then pin.value else ""], total, number) ==
        Add(usage, if pin.Some? then PickLeastUsedCores(usage, want) else [])
  {
    var usage, pin := Usage(running, total, number), Allocated(running, want, total, number);
    var after := running + [if pin.Some? then pin.value else ""];
    assert after[..|after| - 1] == running;
    if pin.Some? {
      PickedCores(usage, want);
      hide PickLeastUsedCores;
      RoundTrip(PickLeastUsedCores(usage, want), total, number);
    }
  }

  /** The containers after allocating for each quota in turn. */
  function Allocations(wants: seq<int>, total: nat, number: Reader): seq<string> {
    if wants == [] then []
    else
      var running := Allocations(wants[..|wants| - 1], total, number);
      var pin := Allocated(running, wants[|wants| - 1], total, number);
      running + [if pin.Some? then pin.value else ""]
  }

  function PinnedTotal(wants: seq<int>, total: nat): nat {
    if wants == [] then 0 else PinnedTotal(wants[..|wants| - 1], total) + Pinned(wants[|wants| - 1], total)
  }

  /** From an idle node, any sequence of allocations of any sizes keeps every two
      cores within one instance of each other, and nothing is lost or counted
      twice: the usages add up to the cores handed out. */
  lemma {:induction false} AllocationsBalance(wants: seq<int>, total: nat, number: Reader)
    requires ReadsDecimals(number)
    ensures var usage := Usage(Allocations(wants, total, number), total, number);
      Balanced(usage) && Sum(usage) == PinnedTotal(wants, total)
  {
    if wants == [] {
      SumZero(Usage([], total, number));
    } else {
      var last := wants[|wants| - 1];
      var running := Allocations(wants[..|wants| - 1], total, number);
      AllocationsBalance(wants[..|wants| - 1], total, number);
      NextUsage(running, last, total, number);
      hide Usage, Allocated, PickLeastUsedCores, Add, Balanced, Sum, Pinned;
      OneMoreBalanced(running, last, total, number);
    }
  }

  /** The cores one allocation pins, added to a balanced node. */
  lemma OneMoreBalanced(running: seq<string>, want: int, total: nat, number: Reader)
    requires Balanced(Usage(running, total, number))
    ensures var usage, pin := Usage(running, total, number), Allocated(running, want, total, number);
      var after := Add(usage, if pin.Some? then PickLeastUsedCores(usage, want) else []);
      Balanced(after) && Sum(after) == Sum(usage) + Pinned(want, total)
  {
    var usage, pin := Usage(running, total, number), Allocated(running, want, total, number);
    var cores := if pin.Some? then PickLeastUsedCores(usage, want) else [];
    if pin.Some? { PickedCores(usage, want); }
    hide Usage, PickLeastUsedCores, Add;
    AddKeepsBalance(usage, cores);
    AddSum(usage, cores);
    CountInAll(cores, total);
  }

  // ── The allocator as it runs ──────────────────────────────────────────────

  function Ceil(quota: real): int { -((-quota).Floor) }

  /** The least whole number of cores that covers the quota. */
  lemma CeilIs(quota: real)
    ensures quota <= Ceil(quota) as real < quota + 1.0
  {
  }

  method CountCores(usage: array<nat>, cores: seq<nat>)
    requires forall c :: c in cores ==> c < usage.Length
    modifies usage
    ensures usage[..] == Add(old(usage[..]), cores)
  {
    for j := 0 to |cores|
      invariant forall c :: 0 <= c < usage.Length ==> usage[c] == old(usage[c]) + Times(cores[..j], c)
    {
      assert cores[j] in cores;
      assert cores[..j + 1][..j] == cores[..j];
      usage[cores[j]] := usage[cores[j]] + 1;
    }
    assert cores[..|cores|] == cores;
  }

  /** `running` are the core lists of the live instance containers. A node that
      cannot be read (a call to Docker throws: the first, or the one for the
      container `throwsAt`) leaves the container unpinned. */
  method AllocateCpuset(quota: real, running: seq<string>, total: nat, number: Reader, infoThrows: bool, throwsAt: nat)
    returns (cpuset: Option<string>)
    ensures cpuset == if infoThrows || throwsAt < |running| then None else Allocated(running, Ceil(quota), total, number)
    ensures cpuset.Some? <==> !infoThrows && |running| <= throwsAt && 1 <= Ceil(quota) < total
  {
    var want := Ceil(quota);
    if want < 1 { return None; }
    if infoThrows || total < 1 || want >= total { return None; }
    var usage := new nat[total](_ => 0);
    assert usage[..] == Usage([], total, number);
    for i := 0 to |running|
      invariant usage[..] == Usage(running[..i], total, number) && i <= throwsAt
    {
      if i == throwsAt { return None; }
      var cores := ParseCpuset(if running[i] == "" then None else Some(running[i]), total, number);
      CountCores(usage, cores);
      assert running[..i + 1][..i] == running[..i];
    }
    assert running[..|running|] == running;
    return Some(Print(PickLeastUsedCores(usage[..], want)));
  }
}
