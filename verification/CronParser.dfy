/** From the entries of a cron line to the parsed fields. The text of an entry is already
    matched against its layout; what remains is everything the parser does with it. */
module CronParser {
  import opened Calendar
  import opened SortedLists
  import opened CronSpec
  import opened CronDays
  import opened CronEmpty
  import opened CronNext

  datatype Result<T> = Ok(value: T) | Err(message: string)

  /** One comma-separated entry of a field, by the layout it matches. */
  datatype Entry =
    | Wildcard
    | Value(v: int)
    | Range(a: int, b: int)
    | WildcardEvery(k: int)
    | ValueEvery(a: int, k: int)
    | RangeEvery(a: int, b: int, k: int)
    | LastDom
    | LastWorkdom
    | Workdom(v: int)
    | DowOfLastWeek(v: int)
    | DowOfSpecificWeek(v: int, n: int)
    | Malformed

  datatype Descriptor = Descriptor(min: int, max: int)

  const SECOND := Descriptor(0, 59)
  const MINUTE := Descriptor(0, 59)
  const HOUR := Descriptor(0, 23)
  const DOM := Descriptor(1, 31)
  const MONTH := Descriptor(1, 12)
  const DOW := Descriptor(0, 6)
  const YEAR := Descriptor(1970, 2099)

  /** The token patterns admit only values between the descriptor's bounds. */
  predicate Lexed(e: Entry, desc: Descriptor) {
    match e
    case Value(v) => desc.min <= v <= desc.max
    case Range(a, b) => desc.min <= a <= desc.max && desc.min <= b <= desc.max
    case WildcardEvery(k) => 0 <= k
    case ValueEvery(a, k) => desc.min <= a <= desc.max && 0 <= k
    case RangeEvery(a, b, k) => desc.min <= a <= desc.max && desc.min <= b <= desc.max && 0 <= k
    case Workdom(v) => 1 <= v <= 31
    case DowOfLastWeek(v) => 0 <= v <= 6
    case DowOfSpecificWeek(v, n) => 0 <= v <= 6 && 1 <= n <= 5
    case _ => true
  }

  ghost predicate LexedField(s: seq<Entry>, desc: Descriptor) {
    forall e :: e in s ==> Lexed(e, desc)
  }

  // ---- Meaning of an entry ----

  /** The q-th stop of a walk from a in steps of k. */
  function Stop(a: int, k: int, q: nat): int {
    a + q * k
  }

  ghost predicate Stepped(a: int, b: int, k: int, x: int) {
    k > 0 && a <= x <= b && exists q: nat :: Stop(a, k, q) == x
  }

  /** The plain values an entry stands for; the special layouts stand for none. */
  ghost predicate Means(e: Entry, desc: Descriptor, x: int) {
    match e
    case Wildcard => desc.min <= x <= desc.max
    case Value(v) => x == v
    case Range(a, b) => a <= x <= b
    case WildcardEvery(k) => Stepped(desc.min, desc.max, k, x)
    case ValueEvery(a, k) => Stepped(a, desc.max, k, x)
    case RangeEvery(a, b, k) => Stepped(a, b, k, x)
    case _ => false
  }

  ghost predicate FieldMeans(s: seq<Entry>, desc: Descriptor, x: int) {
    exists e :: e in s && Means(e, desc, x)
  }

  /** The same in whole steps: a stepped entry stands for the values a multiple of its step past its start. */
  lemma EntryMeans(e: Entry, desc: Descriptor, x: int)
    ensures e.Wildcard? ==> (Means(e, desc, x) <==> desc.min <= x <= desc.max)
    ensures e.Value? ==> (Means(e, desc, x) <==> x == e.v)
    ensures e.Range? ==> (Means(e, desc, x) <==> e.a <= x <= e.b)
    ensures e.WildcardEvery? && e.k > 0 ==> (Means(e, desc, x) <==> desc.min <= x <= desc.max && (x - desc.min) % e.k == 0)
    ensures e.ValueEvery? && e.k > 0 ==> (Means(e, desc, x) <==> e.a <= x <= desc.max && (x - e.a) % e.k == 0)
    ensures e.RangeEvery? && e.k > 0 ==> (Means(e, desc, x) <==> e.a <= x <= e.b && (x - e.a) % e.k == 0)
    ensures e.LastDom? || e.LastWorkdom? || e.Workdom? || e.DowOfLastWeek? || e.DowOfSpecificWeek? || e.Malformed? ==> !Means(e, desc, x)
  {
    match e
    case WildcardEvery(k) => if k > 0 { WholeSteps(desc.min, k, x); }
    case ValueEvery(a, k) => if k > 0 { WholeSteps(a, k, x); }
    case RangeEvery(a, _, k) => if k > 0 { WholeSteps(a, k, x); }
    case _ =>
  }

  lemma WholeSteps(a: int, k: int, x: int)
    requires k > 0
    ensures x >= a ==> ((exists q: nat :: Stop(a, k, q) == x) <==> (x - a) % k == 0)
  {
    if x >= a {
      if (x - a) % k == 0 {
        NotNegative(x - a, k);
        assert Stop(a, k, (x - a) / k) == x;
      }
      if q: nat :| Stop(a, k, q) == x {
        MultipleOf(q, k);
      }
    }
  }

  lemma NotNegative(x: int, k: int)
    requires x >= 0 && k > 0
    ensures x / k >= 0
  {
  }

  lemma MultipleOf(q: nat, k: int)
    requires k > 0
    ensures (q * k) % k == 0
  {
    var x := q * k;
    NoRemainder(x, q, k, x / k, x % k);
  }

  lemma NoRemainder(x: int, q: int, k: int, d: int, r: int)
    requires k > 0 && x == q * k && x == k * d + r && 0 <= r < k
    ensures r == 0
  {
    var e := q - d;
    assert e * k == r;
    Spread(e, k);
  }

  lemma Spread(e: int, k: int)
    requires k > 0 && 0 <= e * k < k
    ensures e == 0
  {
    assert e >= 1 ==> (e - 1) * k >= 0;
    assert e <= -1 ==> (-1 - e) * k >= 0;
  }

  predicate Plain(e: Entry) {
    e.Wildcard? || e.Value? || e.Range? || e.WildcardEvery? || e.ValueEvery? || e.RangeEvery?
  }

  /** The interval an entry carries is one the parser accepts. */
  predicate GoodInterval(e: Entry, desc: Descriptor) {
    match e
    case WildcardEvery(k) => 1 <= k <= desc.max
    case ValueEvery(_, k) => 1 <= k <= desc.max
    case RangeEvery(_, _, k) => 1 <= k <= desc.max
    case _ => true
  }

  // ---- Directives ----

  datatype Directive =
    | None(special: Entry)
    | One(first: int)
    | Span(first: int, last: int, step: int)
    | All(first: int, last: int, step: int)

  lemma EveryValue(a: int, b: int, x: int)
    ensures Stepped(a, b, 1, x) <==> a <= x <= b
  {
    if a <= x <= b { assert Stop(a, 1, x - a) == x; }
  }

  ghost predicate Covers(d: Directive, x: int) {
    match d
    case None(_) => false
    case One(v) => x == v
    case Span(a, b, k) => Stepped(a, b, k, x)
    case All(a, b, k) => Stepped(a, b, k, x)
  }

  function ParseEntry(e: Entry, desc: Descriptor): (r: Result<Directive>)
    ensures r.Ok? <==> GoodInterval(e, desc)
    ensures r.Ok? ==> (r.value.None? <==> !Plain(e)) && (r.value.None? ==> r.value.special == e)
    ensures r.Ok? ==> (r.value.All? <==> e.Wildcard?)
    ensures r.Ok? && (r.value.Span? || r.value.All?) ==> r.value.step > 0
  {
    match e
    case Wildcard => Ok(All(desc.min, desc.max, 1))
    case Value(v) => Ok(One(v))
    case Range(a, b) => Ok(Span(a, b, 1))
    case WildcardEvery(k) => if k < 1 || k > desc.max then Err("invalid interval") else Ok(Span(desc.min, desc.max, k))
    case ValueEvery(a, k) => if k < 1 || k > desc.max then Err("invalid interval") else Ok(Span(a, desc.max, k))
    case RangeEvery(a, b, k) => if k < 1 || k > desc.max then Err("invalid interval") else Ok(Span(a, b, k))
    case _ => Ok(None(e))
  }

  /** A directive covers what its entry means. */
  lemma ParsedCovers(e: Entry, desc: Descriptor, d: Directive, x: int)
    requires ParseEntry(e, desc) == Ok(d)
    ensures Covers(d, x) <==> Means(e, desc, x)
  {
    if d.Span? || d.All? { EveryValue(d.first, d.last, x); }
  }

  /** A parsed field: one directive per entry, in order. */
  ghost predicate Directives(s: seq<Entry>, desc: Descriptor, ds: seq<Directive>) {
    |ds| == |s| && forall i :: 0 <= i < |s| ==> ParseEntry(s[i], desc) == Ok(ds[i])
  }

  /** `genericFieldParse`. */
  method GenericFieldParse(s: seq<Entry>, desc: Descriptor) returns (r: Result<seq<Directive>>)
    ensures r.Ok? <==> s != [] && forall e :: e in s ==> GoodInterval(e, desc)
    ensures r.Ok? ==> Directives(s, desc, r.value)
  {
    if s == [] {
      return Err("missing directive");
    }
    var ds := [];
    for i := 0 to |s|
      invariant |ds| == i && forall j :: 0 <= j < i ==> ParseEntry(s[j], desc) == Ok(ds[j])
      invariant forall j :: 0 <= j < i ==> GoodInterval(s[j], desc)
    {
      var d := ParseEntry(s[i], desc);
      if d.Err? {
        assert s[i] in s;
        return Err(d.message);
      }
      ds := ds + [d.value];
    }
    r := Ok(ds);
  }

  /** `populateMany`: every step-th value from min to max. */
  method PopulateMany(values: set<int>, min: int, max: int, step: int) returns (r: set<int>)
    requires step > 0
    ensures forall x :: x in r <==> x in values || Stepped(min, max, step, x)
  {
    r := values;
    var i := min;
    ghost var q: nat := 0;
    while i <= max
      invariant i == Stop(min, step, q)
      invariant forall j: nat :: j < q ==> Stop(min, step, j) <= max
      invariant forall x :: x in r <==> x in values || exists j: nat :: j < q && Stop(min, step, j) == x
      decreases max - i + step
    {
      r := r + {i};
      i := i + step;
      q := q + 1;
    }
    forall j: nat | Stop(min, step, j) <= max ensures j < q {
      StopsGrow(min, step, q, j);
    }
    forall j: nat ensures Stop(min, step, j) >= min {
      StopsGrow(min, step, 0, j);
    }
  }

  lemma StopsGrow(a: int, k: int, q: nat, j: nat)
    requires k > 0
    ensures q <= j ==> Stop(a, k, q) <= Stop(a, k, j)
  {
    if q <= j { assert (j - q) * k >= 0; }
  }

  // ---- Field handlers ----

  /** No special entry comes before the first wildcard, which ends the scan. */
  ghost predicate Accepted(s: seq<Entry>) {
    forall i :: 0 <= i < |s| && !Plain(s[i]) ==> exists j :: 0 <= j < i && s[j].Wildcard?
  }

  ghost predicate Parses(s: seq<Entry>, desc: Descriptor) {
    s != [] && forall e :: e in s ==> GoodInterval(e, desc)
  }

  function DefaultList(desc: Descriptor): seq<int>
    requires desc.min <= desc.max
  {
    seq(desc.max - desc.min + 1, i => desc.min + i)
  }

  lemma DefaultListHolds(desc: Descriptor, x: int)
    requires desc.min <= desc.max
    ensures x in DefaultList(desc) <==> desc.min <= x <= desc.max
  {
    if desc.min <= x <= desc.max { assert DefaultList(desc)[x - desc.min] == x; }
  }

  /** One directive of a field more: the set holds what the entries up to there mean. */
  ghost predicate Holds(values: set<int>, s: seq<Entry>, n: nat, desc: Descriptor)
    requires n <= |s|
  {
    forall x :: x in values <==> FieldMeans(s[..n], desc, x)
  }

  lemma HoldsNext(values: set<int>, more: set<int>, s: seq<Entry>, n: nat, desc: Descriptor, d: Directive)
    requires n < |s| && Holds(values, s, n, desc) && ParseEntry(s[n], desc) == Ok(d)
    requires forall x :: x in more <==> x in values || Covers(d, x)
    ensures Holds(more, s, n + 1, desc)
  {
    assert s[..n + 1] == s[..n] + [s[n]];
    forall x ensures x in more <==> FieldMeans(s[..n + 1], desc, x) {
      ParsedCovers(s[n], desc, d, x);
    }
  }

  /** What a directive adds to a value set: `populateOne` or `populateMany`. */
  method Populate(values: set<int>, d: Directive) returns (r: set<int>)
    requires d.Span? || d.All? ==> d.step > 0
    ensures forall x :: x in r <==> x in values || Covers(d, x)
  {
    match d
    case None(_) => r := values;
    case One(v) => r := values + {v};
    case Span(a, b, k) => r := PopulateMany(values, a, b, k);
    case All(a, b, k) => r := PopulateMany(values, a, b, k);
  }

  /** `genericFieldHandler`: the increasing list of exactly the values the entries mean; the
      early return on a wildcard loses nothing. */
  method GenericFieldHandler(s: seq<Entry>, desc: Descriptor) returns (r: Result<seq<int>>)
    requires LexedField(s, desc) && desc.min <= desc.max
    ensures r.Ok? <==> Parses(s, desc) && Accepted(s)
    ensures r.Ok? ==> ListIn(r.value, desc.min, desc.max)
    ensures r.Ok? ==> forall x :: x in r.value <==> FieldMeans(s, desc, x)
  {
    var parsed := GenericFieldParse(s, desc);
    if parsed.Err? {
      return Err(parsed.message);
    }
    var ds := parsed.value;
    var values := {};
    for i := 0 to |ds|
      invariant Holds(values, s, i, desc)
      invariant forall j :: 0 <= j < i ==> Plain(s[j]) && !s[j].Wildcard?
    {
      if ds[i].None? {
        return Err("syntax error");
      }
      if ds[i].All? {
        WildcardIsAll(s, i, desc);
        return Ok(DefaultList(desc));
      }
      var more := Populate(values, ds[i]);
      HoldsNext(values, more, s, i, desc, ds[i]);
      values := more;
    }
    assert s[..|s|] == s;
    forall x | x in values ensures desc.min <= x <= desc.max {
      var e :| e in s && Means(e, desc, x);
    }
    var list := ToList(values);
    forall i | 0 <= i < |list| ensures desc.min <= list[i] <= desc.max {
      assert list[i] in list;
    }
    r := Ok(list);
  }

  lemma WildcardIsAll(s: seq<Entry>, i: nat, desc: Descriptor)
    requires LexedField(s, desc) && desc.min <= desc.max && i < |s| && s[i].Wildcard?
    ensures forall x :: x in DefaultList(desc) <==> FieldMeans(s, desc, x)
  {
    forall x ensures x in DefaultList(desc) <==> FieldMeans(s, desc, x) {
      DefaultListHolds(desc, x);
      if desc.min <= x <= desc.max { assert Means(s[i], desc, x); }
    }
  }

  // ---- Day of month and day of week ----

  datatype DomPart = DomPart(days: set<int>, workdays: set<int>, last: bool, lastWorkday: bool, restricted: bool)

  predicate DomEntry(e: Entry) {
    Plain(e) || e.LastDom? || e.LastWorkdom? || e.Workdom?
  }

  /** What the handler has collected from a prefix of the entries. */
  ghost predicate DomHolds(p: DomPart, s: seq<Entry>) {
    && (forall x :: x in p.days <==> FieldMeans(s, DOM, x))
    && (forall x :: x in p.workdays <==> Workdom(x) in s)
    && (p.last <==> LastDom in s)
    && (p.lastWorkday <==> LastWorkdom in s)
    && (p.restricted <==> Wildcard !in s)
    && forall e :: e in s ==> DomEntry(e)
  }

  /** `L`, `LW` and `15W`. */
  function AddDomSpecial(p: DomPart, e: Entry): DomPart
    requires e.LastDom? || e.LastWorkdom? || e.Workdom?
  {
    if e.LastDom? then p.(last := true)
    else if e.LastWorkdom? then p.(lastWorkday := true)
    else p.(workdays := p.workdays + {e.v})
  }

  lemma DomSpecialHolds(p: DomPart, s: seq<Entry>, e: Entry)
    requires DomHolds(p, s) && (e.LastDom? || e.LastWorkdom? || e.Workdom?)
    ensures DomHolds(AddDomSpecial(p, e), s + [e])
  {
    forall x ensures FieldMeans(s + [e], DOM, x) <==> FieldMeans(s, DOM, x) {
    }
  }

  /** A plain entry adds its values, and a wildcard lifts the restriction. */
  lemma DomPlainHolds(p: DomPart, s: seq<Entry>, e: Entry, d: Directive, days: set<int>)
    requires DomHolds(p, s) && Plain(e) && ParseEntry(e, DOM) == Ok(d) && forall x :: x in days <==> x in p.days || Covers(d, x)
    ensures DomHolds(p.(days := days, restricted := p.restricted && !d.All?), s + [e])
  {
    forall x ensures x in days <==> FieldMeans(s + [e], DOM, x) {
      ParsedCovers(e, DOM, d, x);
    }
  }

  lemma NoDomEntries()
    ensures DomHolds(DomPart({}, {}, false, false, true), [])
  {
  }

  lemma DomEntries(p: DomPart, s: seq<Entry>)
    requires DomHolds(p, s)
    ensures forall e :: e in s ==> DomEntry(e)
  {
  }

  /** `domFieldHandler`. */
  method DomFieldHandler(s: seq<Entry>) returns (r: Result<DomPart>)
    ensures r.Ok? <==> Parses(s, DOM) && forall e :: e in s ==> DomEntry(e)
    ensures r.Ok? ==> DomHolds(r.value, s)
  {
    hide DomHolds, Covers, ParseEntry;
    var parsed := GenericFieldParse(s, DOM);
    if parsed.Err? {
      return Err(parsed.message);
    }
    var ds := parsed.value;
    var p := DomPart({}, {}, false, false, true);
    NoDomEntries();
    for i := 0 to |ds|
      invariant DomHolds(p, s[..i])
    {
      assert s[..i + 1] == s[..i] + [s[i]];
      if ds[i].None? {
        var special := ds[i].special;
        assert special == s[i];
        assert special in s;
        if !special.LastDom? && !special.LastWorkdom? && !special.Workdom? {
          assert !DomEntry(special);
          return Err("syntax error in day-of-month field");
        }
        DomSpecialHolds(p, s[..i], special);
        p := AddDomSpecial(p, special);
      } else {
        var days := Populate(p.days, ds[i]);
        DomPlainHolds(p, s[..i], s[i], ds[i], days);
        p := p.(days := days, restricted := p.restricted && !ds[i].All?);
      }
    }
    assert s[..|s|] == s;
    DomEntries(p, s);
    r := Ok(p);
  }

  datatype DowPart = DowPart(days: set<int>, specific: set<int>, lasts: set<int>, restricted: bool)

  predicate DowEntry(e: Entry) {
    Plain(e) || e.DowOfLastWeek? || e.DowOfSpecificWeek?
  }

  ghost predicate DowHolds(p: DowPart, s: seq<Entry>) {
    && (forall x :: x in p.days <==> FieldMeans(s, DOW, x))
    && (forall x :: x in p.specific <==> DowOfSpecificWeek(x % 7, x / 7 + 1) in s)
    && (forall x :: x in p.lasts <==> DowOfLastWeek(x) in s)
    && (p.restricted <==> Wildcard !in s)
    && forall e :: e in s ==> DowEntry(e)
  }

  /** `5L` and `5#3`: the second is stored as seven times the week before plus the weekday. */
  function AddDowSpecial(p: DowPart, e: Entry): DowPart
    requires e.DowOfLastWeek? || e.DowOfSpecificWeek?
  {
    if e.DowOfLastWeek? then p.(lasts := p.lasts + {e.v})
    else p.(specific := p.specific + {(e.n - 1) * 7 + e.v % 7})
  }

  lemma DowSpecialHolds(p: DowPart, s: seq<Entry>, e: Entry)
    requires DowHolds(p, s) && Lexed(e, DOW) && (e.DowOfLastWeek? || e.DowOfSpecificWeek?)
    ensures DowHolds(AddDowSpecial(p, e), s + [e])
  {
    forall x ensures FieldMeans(s + [e], DOW, x) <==> FieldMeans(s, DOW, x) {
    }
    if e.DowOfSpecificWeek? {
      var code := (e.n - 1) * 7 + e.v % 7;
      assert code % 7 == e.v && code / 7 + 1 == e.n;
    }
  }

  lemma DowPlainHolds(p: DowPart, s: seq<Entry>, e: Entry, d: Directive, days: set<int>)
    requires DowHolds(p, s) && Plain(e) && ParseEntry(e, DOW) == Ok(d) && forall x :: x in days <==> x in p.days || Covers(d, x)
    ensures DowHolds(p.(days := days, restricted := p.restricted && !d.All?), s + [e])
  {
    forall x ensures x in days <==> FieldMeans(s + [e], DOW, x) {
      ParsedCovers(e, DOW, d, x);
    }
  }

  lemma NoDowEntries()
    ensures DowHolds(DowPart({}, {}, {}, true), [])
  {
  }

  lemma DowEntries(p: DowPart, s: seq<Entry>)
    requires DowHolds(p, s)
    ensures forall e :: e in s ==> DowEntry(e)
  {
  }

  /** `dowFieldHandler`. */
  method DowFieldHandler(s: seq<Entry>) returns (r: Result<DowPart>)
    requires LexedField(s, DOW)
    ensures r.Ok? <==> Parses(s, DOW) && forall e :: e in s ==> DowEntry(e)
    ensures r.Ok? ==> DowHolds(r.value, s)
  {
    hide DowHolds, Covers, ParseEntry;
    var parsed := GenericFieldParse(s, DOW);
    if parsed.Err? {
      return Err(parsed.message);
    }
    var ds := parsed.value;
    var p := DowPart({}, {}, {}, true);
    NoDowEntries();
    for i := 0 to |ds|
      invariant DowHolds(p, s[..i])
    {
      assert s[..i + 1] == s[..i] + [s[i]];
      if ds[i].None? {
        var special := ds[i].special;
        assert special == s[i];
        assert special in s;
        if !special.DowOfLastWeek? && !special.DowOfSpecificWeek? {
          assert !DowEntry(special);
          return Err("syntax error in day-of-week field");
        }
        DowSpecialHolds(p, s[..i], special);
        p := AddDowSpecial(p, special);
      } else {
        var days := Populate(p.days, ds[i]);
        DowPlainHolds(p, s[..i], s[i], ds[i], days);
        p := p.(days := days, restricted := p.restricted && !ds[i].All?);
      }
    }
    assert s[..|s|] == s;
    DowEntries(p, s);
    r := Ok(p);
  }

  // ---- The whole line ----

  /** The fields of a line by position: seconds only with seven fields, a year with six or seven. */
  datatype Line = Line(second: seq<Entry>, minute: seq<Entry>, hour: seq<Entry>, dom: seq<Entry>,
                       month: seq<Entry>, dow: seq<Entry>, year: seq<Entry>)
  {
    ghost predicate AllLexed() {
      && LexedField(second, SECOND) && LexedField(minute, MINUTE) && LexedField(hour, HOUR)
      && LexedField(dom, DOM) && LexedField(month, MONTH) && LexedField(dow, DOW) && LexedField(year, YEAR)
    }
  }

  /** Missing seconds read as `0` and a missing year as `*`; fields past the seventh are ignored. */
  function Layout(fields: seq<seq<Entry>>): (l: Line)
    requires |fields| >= 5
  {
    var o := if |fields| >= 7 then 1 else 0;
    Line(if |fields| >= 7 then fields[0] else [Value(0)],
         fields[o], fields[o + 1], fields[o + 2], fields[o + 3], fields[o + 4],
         if |fields| >= 6 then fields[o + 5] else [Wildcard])
  }

  ghost predicate DomMeans(e: Entry, y: int, m: int, d: int)
    requires Date(y, m, d).Valid()
  {
    match e
    case LastDom => d == DaysIn(y, m)
    case LastWorkdom => LastWorkday(y, m, d)
    case Workdom(v) => v <= DaysIn(y, m) && NearestWorkday(y, m, v, d)
    case _ => Means(e, DOM, d)
  }

  ghost predicate DowMeans(e: Entry, y: int, m: int, d: int)
    requires Date(y, m, d).Valid()
  {
    match e
    case DowOfLastWeek(w) => LastOfWeekday(y, m, d, w)
    case DowOfSpecificWeek(w, n) => NthWeekday(y, m, d, w, n)
    case _ => Means(e, DOW, Weekday(Date(y, m, d)))
  }

  /** The special entries by weeks and weekdays: the last day, the n-th and the last weekday, the last workday, and the
      workday a weekend day moves to without leaving its month. */
  lemma SpecialDays(e: Entry, y: int, m: int, d: int)
    requires Date(y, m, d).Valid()
    ensures e.LastDom? ==> (DomMeans(e, y, m, d) <==> Date(y, m, d).Next().day == 1)
    ensures e.LastWorkdom? ==> (DomMeans(e, y, m, d) <==>
      Weekday(Date(y, m, d)) in {1, 2, 3, 4, 5} && forall x :: d < x <= DaysIn(y, m) ==> Weekday(Date(y, m, x)) in {0, 6})
    ensures e.Workdom? && 1 <= e.v <= DaysIn(y, m) ==> (DomMeans(e, y, m, d) <==>
      var w := Weekday(Date(y, m, e.v));
      d == if w == 6 then (if e.v > 1 then e.v - 1 else e.v + 2)
           else if w == 0 then (if e.v < DaysIn(y, m) then e.v + 1 else e.v - 2)
           else e.v)
    ensures e.DowOfSpecificWeek? && 0 <= e.v <= 6 ==> (DowMeans(e, y, m, d) <==>
      Weekday(Date(y, m, d)) == e.v && 7 * (e.n - 1) < d <= 7 * e.n)
    ensures e.DowOfLastWeek? && 0 <= e.v <= 6 ==> (DowMeans(e, y, m, d) <==>
      Weekday(Date(y, m, d)) == e.v && DaysIn(y, m) - 7 < d)
  {
    hide Weekday, NthWeekday, LastOfWeekday, NearestWorkday;
    match e
    case LastWorkdom =>
      forall x ensures IsWorkday(y, m, x) <==> Date(y, m, x).Valid() && Weekday(Date(y, m, x)) in {1, 2, 3, 4, 5} {
        WorkdaysAreMondayToFriday(y, m, x);
      }
    case Workdom(v) => if 1 <= v <= DaysIn(y, m) { WorkdayIsNearest(y, m, v, d); }
    case DowOfSpecificWeek(w, n) => if 0 <= w <= 6 { NthByWeeks(y, m, d, w, n); }
    case DowOfLastWeek(w) => if 0 <= w <= 6 { LastByWeeks(y, m, d, w); }
    case _ =>
  }

  /** The crontab day rule over a day-of-month and a day-of-week field. */
  ghost predicate DayMeans(dom: seq<Entry>, dow: seq<Entry>, y: int, m: int, d: int) {
    Date(y, m, d).Valid() &&
    if Wildcard in dom && Wildcard in dow then true
    else
      || (Wildcard !in dom && exists e :: e in dom && DomMeans(e, y, m, d))
      || (Wildcard !in dow && exists e :: e in dow && DowMeans(e, y, m, d))
  }

  /** The instants a cron line asks for, read off its entries. */
  ghost predicate LineFires(l: Line, u: Time) {
    && u.Valid() && u.nano == 0
    && FieldMeans(l.year, YEAR, u.year) && FieldMeans(l.month, MONTH, u.month) && DayMeans(l.dom, l.dow, u.year, u.month, u.day)
    && FieldMeans(l.hour, HOUR, u.hour) && FieldMeans(l.minute, MINUTE, u.minute)
    && FieldMeans(l.second, SECOND, u.second)
  }

  /** The instants a cron line asks for, by the position of its fields: minute, hour, day of month, month, day of week; a
      sixth is the year; a seventh puts the second in front; more are not looked at. */
  ghost predicate Asked(fields: seq<seq<Entry>>, u: Time)
    requires |fields| >= 5
  {
    && u.Valid() && u.nano == 0
    && if |fields| >= 7 then
         && FieldMeans(fields[0], Descriptor(0, 59), u.second)
         && FieldMeans(fields[1], Descriptor(0, 59), u.minute)
         && FieldMeans(fields[2], Descriptor(0, 23), u.hour)
         && DayMeans(fields[3], fields[5], u.year, u.month, u.day)
         && FieldMeans(fields[4], Descriptor(1, 12), u.month)
         && FieldMeans(fields[6], Descriptor(1970, 2099), u.year)
       else
         && u.second == 0
         && FieldMeans(fields[0], Descriptor(0, 59), u.minute)
         && FieldMeans(fields[1], Descriptor(0, 23), u.hour)
         && DayMeans(fields[2], fields[4], u.year, u.month, u.day)
         && FieldMeans(fields[3], Descriptor(1, 12), u.month)
         && if |fields| == 6 then FieldMeans(fields[5], Descriptor(1970, 2099), u.year) else 1970 <= u.year <= 2099
  }

  lemma AskedAgrees(fields: seq<seq<Entry>>, u: Time)
    requires |fields| >= 5
    ensures LineFires(Layout(fields), u) <==> Asked(fields, u)
  {
    hide DayMeans;
    assert FieldMeans([Value(0)], SECOND, u.second) <==> u.second == 0 by { assert Value(0) in [Value(0)]; }
    assert FieldMeans([Wildcard], YEAR, u.year) <==> 1970 <= u.year <= 2099 by { assert Wildcard in [Wildcard]; }
    hide FieldMeans;
  }

  /** Which field is which. */
  lemma LayoutByPosition(fields: seq<seq<Entry>>)
    requires |fields| >= 5
    ensures |fields| == 5 ==> Layout(fields) == Line([Value(0)], fields[0], fields[1], fields[2], fields[3], fields[4], [Wildcard])
    ensures |fields| == 6 ==> Layout(fields) == Line([Value(0)], fields[0], fields[1], fields[2], fields[3], fields[4], fields[5])
    ensures |fields| >= 7 ==> Layout(fields) == Line(fields[0], fields[1], fields[2], fields[3], fields[4], fields[5], fields[6])
  {
  }

  ghost predicate FieldAccepted(s: seq<Entry>, desc: Descriptor) {
    Parses(s, desc) && Accepted(s)
  }

  /** A plain field is accepted exactly if it has entries, every step is between 1 and the field's largest value, and no
      special entry comes before the first wildcard. */
  lemma FieldAcceptedIff(s: seq<Entry>, desc: Descriptor)
    ensures FieldAccepted(s, desc) <==>
      && s != []
      && (forall e :: e in s && (e.WildcardEvery? || e.ValueEvery? || e.RangeEvery?) ==> 1 <= e.k <= desc.max)
      && forall i :: 0 <= i < |s| && Wildcard !in s[..i] ==>
          s[i].Wildcard? || s[i].Value? || s[i].Range? || s[i].WildcardEvery? || s[i].ValueEvery? || s[i].RangeEvery?
  {
    forall i | 0 <= i < |s| ensures (exists j :: 0 <= j < i && s[j].Wildcard?) <==> Wildcard in s[..i] {
      if j :| 0 <= j < i && s[j].Wildcard? { assert s[..i][j] == Wildcard; }
    }
  }

  ghost predicate LineAccepted(l: Line) {
    && FieldAccepted(l.second, SECOND) && FieldAccepted(l.minute, MINUTE) && FieldAccepted(l.hour, HOUR)
    && FieldAccepted(l.month, MONTH) && FieldAccepted(l.year, YEAR)
    && Parses(l.dom, DOM) && (forall e :: e in l.dom ==> DomEntry(e))
    && Parses(l.dow, DOW) && (forall e :: e in l.dow ==> DowEntry(e))
  }

  /** A range that runs backwards. */
  predicate Reversed(e: Entry) {
    (e.Range? || e.RangeEvery?) && e.a > e.b
  }

  ghost predicate SomeForward(s: seq<Entry>) {
    exists e :: e in s && Plain(e) && !Reversed(e)
  }

  /** A field ends up without values exactly when all its ranges run backwards. */
  lemma EmptyField(s: seq<Entry>, desc: Descriptor)
    requires LexedField(s, desc) && Parses(s, desc) && desc.min <= desc.max
    ensures SomeForward(s) <==> exists x :: FieldMeans(s, desc, x)
  {
    if SomeForward(s) {
      var e :| e in s && Plain(e) && !Reversed(e);
      var x := if e.Wildcard? || e.WildcardEvery? then desc.min else if e.Value? then e.v else e.a;
      if e.WildcardEvery? || e.ValueEvery? || e.RangeEvery? { assert Stop(x, e.k, 0) == x; }
      assert Means(e, desc, x);
      assert FieldMeans(s, desc, x);
    }
    if x :| FieldMeans(s, desc, x) {
      var e :| e in s && Means(e, desc, x);
      assert Plain(e) && !Reversed(e);
    }
  }

  lemma DayAgrees(f: Fields, l: Line, p: DomPart, q: DowPart, y: int, m: int, d: int)
    requires DomHolds(p, l.dom) && DowHolds(q, l.dow) && LexedField(l.dow, DOW)
    requires f.daysOfMonth == p.days && f.workdaysOfMonth == p.workdays && f.lastDayOfMonth == p.last
    requires f.lastWorkdayOfMonth == p.lastWorkday && f.daysOfMonthRestricted == p.restricted
    requires f.daysOfWeek == q.days && f.specificWeekDaysOfWeek == q.specific
    requires f.lastWeekDaysOfWeek == q.lasts && f.daysOfWeekRestricted == q.restricted
    ensures DayRule(f, y, m, d) <==> DayMeans(l.dom, l.dow, y, m, d)
  {
    if Date(y, m, d).Valid() {
      DomAgrees(f, l.dom, p, y, m, d);
      DowAgrees(f, l.dow, q, y, m, d);
    }
  }

  lemma DomAgrees(f: Fields, s: seq<Entry>, p: DomPart, y: int, m: int, d: int)
    requires DomHolds(p, s) && Date(y, m, d).Valid()
    requires f.daysOfMonth == p.days && f.workdaysOfMonth == p.workdays && f.lastDayOfMonth == p.last
    requires f.lastWorkdayOfMonth == p.lastWorkday
    ensures MonthDayRule(f, y, m, d) <==> exists e :: e in s && DomMeans(e, y, m, d)
  {
    if MonthDayRule(f, y, m, d) {
      if f.lastDayOfMonth && d == DaysIn(y, m) { assert DomMeans(LastDom, y, m, d); }
      else if f.lastWorkdayOfMonth && LastWorkday(y, m, d) { assert DomMeans(LastWorkdom, y, m, d); }
      else if d in f.daysOfMonth {
        var e :| e in s && Means(e, DOM, d);
        assert DomMeans(e, y, m, d);
      } else {
        var v :| v in f.workdaysOfMonth && v <= DaysIn(y, m) && NearestWorkday(y, m, v, d);
        assert DomMeans(Workdom(v), y, m, d);
      }
    }
    if e :| e in s && DomMeans(e, y, m, d) {
      if Means(e, DOM, d) { assert FieldMeans(s, DOM, d); }
    }
  }

  lemma Encoded(w: int, n: int)
    requires 0 <= w <= 6
    ensures ((n - 1) * 7 + w) % 7 == w && ((n - 1) * 7 + w) / 7 + 1 == n
  {
  }

  lemma DowAgrees(f: Fields, s: seq<Entry>, q: DowPart, y: int, m: int, d: int)
    requires DowHolds(q, s) && LexedField(s, DOW) && Date(y, m, d).Valid()
    requires f.daysOfWeek == q.days && f.specificWeekDaysOfWeek == q.specific && f.lastWeekDaysOfWeek == q.lasts
    ensures WeekDayRule(f, y, m, d) <==> exists e :: e in s && DowMeans(e, y, m, d)
  {
    hide LastOfWeekday, NthWeekday, Weekday, Stepped;
    var w := Weekday(Date(y, m, d));
    if WeekDayRule(f, y, m, d) {
      if w in f.daysOfWeek {
        var e :| e in s && Means(e, DOW, w);
        assert DowMeans(e, y, m, d);
      } else if v :| v in f.specificWeekDaysOfWeek && NthWeekday(y, m, d, v % 7, v / 7 + 1) {
        assert DowMeans(DowOfSpecificWeek(v % 7, v / 7 + 1), y, m, d);
      } else {
        var v :| v in f.lastWeekDaysOfWeek && LastOfWeekday(y, m, d, v);
        assert DowMeans(DowOfLastWeek(v), y, m, d);
      }
    }
    if e :| e in s && DowMeans(e, y, m, d) {
      if e.DowOfSpecificWeek? {
        var v := (e.n - 1) * 7 + e.v;
        Encoded(e.v, e.n);
        assert v in f.specificWeekDaysOfWeek;
      } else if Means(e, DOW, w) { assert FieldMeans(s, DOW, w); }
    }
  }

  /** `Parse`, from the entries of each field on. */
  method Parse(fields: seq<seq<Entry>>) returns (r: Result<Expression>)
    requires |fields| >= 5 ==> Layout(fields).AllLexed()
    ensures r.Ok? <==> |fields| >= 5 && LineAccepted(Layout(fields))
    ensures r.Ok? ==> fresh(r.value) && r.value.f.ListsInRange() && r.value.f.DaysInRange()
    ensures r.Ok? ==> FromLine(r.value.f, Layout(fields))
    ensures r.Ok? ==> forall u :: Fires(r.value.f, u) <==> Asked(fields, u)
    ensures r.Ok? ==>
      var l := Layout(fields);
      r.value.f.Populated() <==> AllForward(l)
  {
    if |fields| < 5 {
      return Err("invalid cron expression");
    }
    var l := Layout(fields);
    var second := GenericFieldHandler(l.second, SECOND);
    if second.Err? { return Err(second.message); }
    var minute := GenericFieldHandler(l.minute, MINUTE);
    if minute.Err? { return Err(minute.message); }
    var hour := GenericFieldHandler(l.hour, HOUR);
    if hour.Err? { return Err(hour.message); }
    var dom := DomFieldHandler(l.dom);
    if dom.Err? { return Err(dom.message); }
    var month := GenericFieldHandler(l.month, MONTH);
    if month.Err? { return Err(month.message); }
    var dow := DowFieldHandler(l.dow);
    if dow.Err? { return Err(dow.message); }
    var year := GenericFieldHandler(l.year, YEAR);
    if year.Err? { return Err(year.message); }
    var p, q := dom.value, dow.value;
    var f := Fields(
      second.value, minute.value, hour.value,
      p.days, p.workdays, p.last, p.lastWorkday, p.restricted,
      month.value, q.days, q.specific, q.lasts, q.restricted, year.value);
    FieldsAgree(f, l, p, q);
    FiresAgree(f, fields);
    var e := new Expression(f);
    r := Ok(e);
  }

  ghost predicate ListFrom(list: seq<int>, s: seq<Entry>, desc: Descriptor) {
    ListIn(list, desc.min, desc.max) && forall x :: x in list <==> FieldMeans(s, desc, x)
  }

  /** The fields hold exactly the values the line's entries mean. */
  ghost predicate FromLine(f: Fields, l: Line) {
    && ListFrom(f.secondList, l.second, SECOND) && ListFrom(f.minuteList, l.minute, MINUTE)
    && ListFrom(f.hourList, l.hour, HOUR) && ListFrom(f.monthList, l.month, MONTH) && ListFrom(f.yearList, l.year, YEAR)
    && forall y, m, d :: DayRule(f, y, m, d) <==> DayMeans(l.dom, l.dow, y, m, d)
  }

  lemma FiresAgree(f: Fields, fields: seq<seq<Entry>>)
    requires |fields| >= 5 && FromLine(f, Layout(fields))
    ensures forall u :: Fires(f, u) <==> Asked(fields, u)
  {
    hide DayRule, DayMeans, FieldMeans, Asked, Layout;
    forall u ensures Fires(f, u) <==> Asked(fields, u) {
      AskedAgrees(fields, u);
    }
  }

  lemma FieldsAgree(f: Fields, l: Line, p: DomPart, q: DowPart)
    requires l.AllLexed() && LineAccepted(l)
    requires ListFrom(f.secondList, l.second, SECOND) && ListFrom(f.minuteList, l.minute, MINUTE)
    requires ListFrom(f.hourList, l.hour, HOUR) && ListFrom(f.monthList, l.month, MONTH) && ListFrom(f.yearList, l.year, YEAR)
    requires DomHolds(p, l.dom) && DowHolds(q, l.dow)
    requires f.daysOfMonth == p.days && f.workdaysOfMonth == p.workdays && f.lastDayOfMonth == p.last
    requires f.lastWorkdayOfMonth == p.lastWorkday && f.daysOfMonthRestricted == p.restricted
    requires f.daysOfWeek == q.days && f.specificWeekDaysOfWeek == q.specific
    requires f.lastWeekDaysOfWeek == q.lasts && f.daysOfWeekRestricted == q.restricted
    ensures f.ListsInRange() && f.DaysInRange()
    ensures FromLine(f, l)
    ensures f.Populated() <==> AllForward(l)
  {
    forall y, m, d ensures DayRule(f, y, m, d) <==> DayMeans(l.dom, l.dow, y, m, d) {
      DayAgrees(f, l, p, q, y, m, d);
    }
    PopulatedIff(f.secondList, l.second, SECOND);
    PopulatedIff(f.minuteList, l.minute, MINUTE);
    PopulatedIff(f.hourList, l.hour, HOUR);
    PopulatedIff(f.monthList, l.month, MONTH);
    DayPartsInRange(f, l, p, q);
  }

  lemma PopulatedIff(list: seq<int>, s: seq<Entry>, desc: Descriptor)
    requires LexedField(s, desc) && Parses(s, desc) && desc.min <= desc.max && ListFrom(list, s, desc)
    ensures list != [] <==> SomeForward(s)
  {
    EmptyField(s, desc);
    if list != [] { assert list[0] in list; }
  }

  lemma DayPartsInRange(f: Fields, l: Line, p: DomPart, q: DowPart)
    requires l.AllLexed() && DomHolds(p, l.dom) && DowHolds(q, l.dow)
    requires f.daysOfMonth == p.days && f.workdaysOfMonth == p.workdays
    requires f.daysOfWeek == q.days && f.specificWeekDaysOfWeek == q.specific && f.lastWeekDaysOfWeek == q.lasts
    ensures f.DaysInRange()
  {
    forall x | FieldMeans(l.dom, DOM, x) ensures 1 <= x <= 31 {
      var e :| e in l.dom && Means(e, DOM, x);
    }
    forall x | FieldMeans(l.dow, DOW, x) ensures 0 <= x <= 6 {
      var e :| e in l.dow && Means(e, DOW, x);
    }
    forall x | x in f.workdaysOfMonth ensures 1 <= x <= 31 { assert Lexed(Workdom(x), DOM); }
    forall x | x in f.lastWeekDaysOfWeek ensures 0 <= x <= 6 { assert Lexed(DowOfLastWeek(x), DOW); }
    forall x | x in f.specificWeekDaysOfWeek ensures 0 <= x < 35 {
      assert Lexed(DowOfSpecificWeek(x % 7, x / 7 + 1), DOW);
    }
  }

  /** r is the first instant a cron line asks for strictly after t, or ZERO if there is none. */
  ghost predicate IsNextOf(fields: seq<seq<Entry>>, t: Time, r: Time)
    requires t.Valid() && |fields| >= 5
  {
    if r == ZERO then forall u :: Asked(fields, u) ==> u.Nanos() <= t.Nanos()
    else
      && Asked(fields, r) && t.Nanos() < r.Nanos()
      && forall u :: Asked(fields, u) && t.Nanos() < u.Nanos() ==> r.Nanos() <= u.Nanos()
  }

  ghost predicate LaterValue(s: seq<Entry>, desc: Descriptor, v: int) {
    exists x :: FieldMeans(s, desc, x) && x > v
  }

  /** The line names a later year than t's, or t's year and a later month, and so on down to the minutes. */
  ghost predicate LineOnward(l: Line, t: Time) {
    LaterValue(l.year, YEAR, t.year) || (FieldMeans(l.year, YEAR, t.year) && (
    LaterValue(l.month, MONTH, t.month) || (FieldMeans(l.month, MONTH, t.month) && (
    (exists d :: DayMeans(l.dom, l.dow, t.year, t.month, d) && d > t.day) || (DayMeans(l.dom, l.dow, t.year, t.month, t.day) && (
    LaterValue(l.hour, HOUR, t.hour) || (FieldMeans(l.hour, HOUR, t.hour) &&
    LaterValue(l.minute, MINUTE, t.minute))))))))
  }

  lemma OnwardAgrees(f: Fields, l: Line, t: Time)
    requires FromLine(f, l)
    ensures Onward(f, t) <==> LineOnward(l, t)
  {
    hide DayRule, DayMeans, FieldMeans;
    LaterAgrees(f.yearList, l.year, YEAR, t.year);
    LaterAgrees(f.monthList, l.month, MONTH, t.month);
    LaterAgrees(f.hourList, l.hour, HOUR, t.hour);
    LaterAgrees(f.minuteList, l.minute, MINUTE, t.minute);
    hide Later, LaterValue;
  }

  lemma LaterAgrees(list: seq<int>, s: seq<Entry>, desc: Descriptor, v: int)
    requires ListFrom(list, s, desc)
    ensures Later(list, v) <==> LaterValue(s, desc, v)
  {
    hide FieldMeans;
  }

  /** Every list the walk takes first values of gets one. */
  ghost predicate AllForward(l: Line) {
    SomeForward(l.second) && SomeForward(l.minute) && SomeForward(l.hour) && SomeForward(l.month)
  }

  /** A line with a field of backward ranges only asks for no instant at all. */
  lemma BackwardFieldNeverFires(f: Fields, fields: seq<seq<Entry>>, t: Time)
    requires t.Valid() && !f.Populated() && |fields| >= 5 && forall u :: Fires(f, u) <==> Asked(fields, u)
    ensures IsNextOf(fields, t, ZERO)
  {
    hide DayRule, Asked;
  }

  /** What asking a cron line for its next instant comes to. */
  datatype Answer = Refused(message: string) | Panicked | At(time: Time)

  /** Parsing a line and asking for its next instant, end to end, on every line and from every time. An accepted line is
      answered with the first instant it asks for after `from`, or the zero time if there is none, except that a line with
      a field of backward ranges only panics, exactly if the walk finds a later value to move to in some field. */
  method NextOfLine(fields: seq<seq<Entry>>, from: Time) returns (r: Answer)
    requires |fields| >= 5 ==> Layout(fields).AllLexed()
    requires from.Valid()
    ensures r.Refused? <==> |fields| < 5 || !LineAccepted(Layout(fields))
    ensures r.Panicked? <==>
      |fields| >= 5 && LineAccepted(Layout(fields)) && from != ZERO && !AllForward(Layout(fields)) && LineOnward(Layout(fields), from)
    ensures r.At? ==> if from == ZERO then r.time == ZERO else IsNextOf(fields, from, r.time)
  {
    hide Asked, LineAccepted, SomeForward, Fires, Layout, Time.Nanos, FromLine, LineOnward, Onward;
    var parsed := Parse(fields);
    if parsed.Err? {
      return Refused(parsed.message);
    }
    var expr := parsed.value;
    if from == ZERO {
      return At(from);
    }
    if expr.f.Populated() {
      var next := expr.Next(from);
      return At(next);
    }
    OnwardAgrees(expr.f, Layout(fields), from);
    BackwardFieldNeverFires(expr.f, fields, from);
    var walk := EmptyNext(expr.f, from);
    r := if walk.Panic? then Panicked else At(walk.time);
  }
}
