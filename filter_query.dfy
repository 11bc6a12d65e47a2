/**
 * The statement builder of the `GET /filter` route: four optional filters
 * (vendor, reference, company code, posting date) and two paging values
 * become a T-SQL statement and the list of inputs bound to its placeholders.
 *
 * `BuildFilterQuery` is the handler's own step-by-step construction. The
 * functions before it describe the same result independently (select the
 * present filters in their fixed order, then render each one), and the
 * lemmas after it state what the route promises about that result.
 */
module FilterQuery {
  import opened Wrappers
  import opened Decimal
  import opened SqlText

  /** `Number.MAX_SAFE_INTEGER`, 2^53 - 1: the default page size. */
  const MAX_SAFE_INTEGER: int := 9007199254740991

  /** The statement every filtered listing starts from. */
  const BASE: string := "SELECT * FROM [dbo].[SGFBL1NOPEN] WHERE 1=1"

  /** The driver type an input is declared with. */
  datatype SqlType = Float | NVarChar

  /** One declared input of the request: `request.input(name, type, value)`. */
  datatype Binding = Binding(name: string, sqlType: SqlType, value: string)

  /**
   * The query-string parameters of the route. A filter is `None` when the
   * parameter is missing; `page` and `limit` are `None` when missing, and
   * then take their defaults.
   */
  datatype FilterParams = FilterParams(
    vendor: Option<string>,
    reference: Option<string>,
    cocd: Option<string>,
    pstngDate: Option<string>,
    page: Option<int>,
    limit: Option<int>)

  /** The four filters, in the order the handler tests them. */
  datatype Filter = Vendor | Reference | CoCd | PstngDate

  const FILTER_ORDER: seq<Filter> := [Vendor, Reference, CoCd, PstngDate]

  function Rank(f: Filter): nat {
    match f
    case Vendor => 0
    case Reference => 1
    case CoCd => 2
    case PstngDate => 3
  }

  /** The name of the filter's input, which is also the name of its placeholder. */
  function ParamName(f: Filter): string {
    match f
    case Vendor => "vendor"
    case Reference => "reference"
    case CoCd => "cocd"
    case PstngDate => "pstngDate"
  }

  function ParamType(f: Filter): SqlType {
    match f
    case Vendor => Float
    case Reference => Float
    case CoCd => NVarChar
    case PstngDate => NVarChar
  }

  /** The SQL text before the filter's placeholder. */
  function Lead(f: Filter): string {
    match f
    case Vendor => " AND Vendor = "
    case Reference => " AND Reference = "
    case CoCd => " AND LOWER(CoCd) = LOWER("
    case PstngDate => " AND [Pstng Date] = "
  }

  /** The SQL text after the filter's placeholder. */
  function Trail(f: Filter): string {
    match f
    case CoCd => ")"
    case _ => ""
  }

  /** The predicate a present filter appends: its lead, `@name`, its trail. */
  function Predicate(f: Filter): string {
    Lead(f) + ("@" + (ParamName(f) + Trail(f)))
  }

  function Value(p: FilterParams, f: Filter): Option<string> {
    match f
    case Vendor => p.vendor
    case Reference => p.reference
    case CoCd => p.cocd
    case PstngDate => p.pstngDate
  }

  /** JavaScript truthiness of a query-string value: present and not empty. */
  predicate Truthy(v: Option<string>): (b: bool)
    ensures !b <==> v == None || v == Some("")
    ensures v == Some("0") ==> b
  {
    v.Some? && v.value != ""
  }

  predicate Present(p: FilterParams, f: Filter) {
    Truthy(Value(p, f))
  }

  /** `page` as destructured: 1 when the key is missing. */
  function Page(p: FilterParams): (page: int)
    ensures p.page == None ==> page == 1
    ensures p.page.Some? ==> page == p.page.value
  {
    p.page.GetOr(1)
  }

  /** `limit` as destructured: `Number.MAX_SAFE_INTEGER` when the key is missing. */
  function Limit(p: FilterParams): (limit: int)
    ensures p.limit == None ==> limit == MAX_SAFE_INTEGER
    ensures p.limit.Some? ==> limit == p.limit.value
  {
    p.limit.GetOr(MAX_SAFE_INTEGER)
  }

  /** The number of rows skipped before page `page` when each page has `limit` rows. */
  function Offset(page: int, limit: int): (offset: int)
    ensures page == 1 ==> offset == 0
    ensures page >= 1 && limit >= 0 ==> offset >= 0
  {
    (page - 1) * limit
  }

  /** The paging clause that closes every statement. */
  function Tail(offset: int, limit: int): (t: string)
    ensures |t| > 0 && t[0] == ' '
    ensures '@' !in t
  {
    " ORDER BY DocumentNo OFFSET " + IntToDecimal(offset) + " ROWS FETCH NEXT " + IntToDecimal(limit) + " ROWS ONLY"
  }

  /** The paging clause determines the offset and the limit it was rendered from. */
  lemma TailInjective(o1: int, l1: int, o2: int, l2: int)
    requires Tail(o1, l1) == Tail(o2, l2)
    ensures o1 == o2 && l1 == l2
  {
    var pre, mid, end := " ORDER BY DocumentNo OFFSET ", " ROWS FETCH NEXT ", " ROWS ONLY";
    var a1, b1, a2, b2 := IntToDecimal(o1), IntToDecimal(l1), IntToDecimal(o2), IntToDecimal(l2);
    TailParts(o1, l1);
    TailParts(o2, l2);
    PrefixSuffix(pre, a1 + (mid + (b1 + end)));
    PrefixSuffix(pre, a2 + (mid + (b2 + end)));
    assert a1 + (mid + (b1 + end)) == a2 + (mid + (b2 + end));
    SplitBeforeSpace(a1, mid + (b1 + end), a2, mid + (b2 + end));
    PrefixSuffix(mid, b1 + end);
    PrefixSuffix(mid, b2 + end);
    assert b1 + end == b2 + end;
    assert b1 == (b1 + end)[..|b1|];
    assert b2 == (b2 + end)[..|b2|];
    IntToDecimalInjective(o1, o2);
    IntToDecimalInjective(l1, l2);
  }

  /** `Tail` with its four pieces grouped from the right, each rendered number free of spaces. */
  lemma TailParts(offset: int, limit: int)
    ensures Tail(offset, limit) == " ORDER BY DocumentNo OFFSET " + (IntToDecimal(offset) + (" ROWS FETCH NEXT " + (IntToDecimal(limit) + " ROWS ONLY")))
    ensures ' ' !in IntToDecimal(offset) && ' ' !in IntToDecimal(limit)
  {
    var pre, mid, end := " ORDER BY DocumentNo OFFSET ", " ROWS FETCH NEXT ", " ROWS ONLY";
    var a, b := IntToDecimal(offset), IntToDecimal(limit);
    AppendAssoc(pre + a + mid, b, end);
    AppendAssoc(pre + a, mid, b + end);
    AppendAssoc(pre, a, mid + (b + end));
  }

  /** Two texts that each run up to a first space split the same way there. */
  lemma SplitBeforeSpace(x1: string, y1: string, x2: string, y2: string)
    requires ' ' !in x1 && ' ' !in x2
    requires |y1| > 0 && y1[0] == ' ' && |y2| > 0 && y2[0] == ' '
    requires x1 + y1 == x2 + y2
    ensures x1 == x2 && y1 == y2
  {
    assert x1 == (x1 + y1)[..|x1|];
    assert x2 == (x2 + y2)[..|x2|];
    PrefixSuffix(x1, y1);
    PrefixSuffix(x2, y2);
  }

  /** The paging clause of the statement for `p`. */
  function PagingOf(p: FilterParams): string {
    Tail(Offset(Page(p), Limit(p)), Limit(p))
  }

  /** Filters listed in strictly increasing rank: each at most once, in handler order. */
  predicate Ordered(fs: seq<Filter>) {
    forall i, j :: 0 <= i < j < |fs| ==> Rank(fs[i]) < Rank(fs[j])
  }

  /** The filters of `fs` that are present in `p`, keeping their order. */
  function Selected(p: FilterParams, fs: seq<Filter>): seq<Filter>
    decreases |fs|
  {
    if fs == [] then []
    else if Present(p, fs[0]) then [fs[0]] + Selected(p, fs[1..])
    else Selected(p, fs[1..])
  }

  function PresentFilters(p: FilterParams): seq<Filter> {
    Selected(p, FILTER_ORDER)
  }

  /** The predicates of `fs`, concatenated. */
  function Where(fs: seq<Filter>): string
    decreases |fs|
  {
    if fs == [] then "" else Predicate(fs[0]) + Where(fs[1..])
  }

  /** The input a filter declares: its name, its driver type and the parameter's value. */
  function BindingFor(p: FilterParams, f: Filter): Binding {
    Binding(ParamName(f), ParamType(f), Value(p, f).GetOr(""))
  }

  function Bindings(p: FilterParams, fs: seq<Filter>): seq<Binding>
    decreases |fs|
  {
    if fs == [] then [] else [BindingFor(p, fs[0])] + Bindings(p, fs[1..])
  }

  /** The statement the route sends. */
  function QueryText(p: FilterParams): string {
    BASE + Where(PresentFilters(p)) + PagingOf(p)
  }

  /** The inputs the route declares. */
  function Inputs(p: FilterParams): seq<Binding> {
    Bindings(p, PresentFilters(p))
  }

  /** What the test of filter `f` appends to the statement. */
  function Clause(p: FilterParams, f: Filter): string {
    if Present(p, f) then Predicate(f) else ""
  }

  /** What the test of filter `f` declares. */
  function Declared(p: FilterParams, f: Filter): seq<Binding> {
    if Present(p, f) then [BindingFor(p, f)] else []
  }

  /**
   * The handler's construction: start from the base statement, append one
   * predicate and declare one input per present filter, then append the
   * paging clause.
   */
  method BuildFilterQuery(p: FilterParams) returns (query: string, inputs: seq<Binding>)
    ensures query == QueryText(p)
    ensures inputs == Inputs(p)
  {
    PredicateTexts();
    query := "SELECT * FROM [dbo].[SGFBL1NOPEN] WHERE 1=1";
    inputs := [];

    if Truthy(p.vendor) {
      query := query + " AND Vendor = @vendor";
      inputs := inputs + [Binding("vendor", Float, p.vendor.value)];
    }
    assert query == BASE + Clause(p, Vendor);
    assert inputs == Declared(p, Vendor);

    if Truthy(p.reference) {
      query := query + " AND Reference = @reference";
      inputs := inputs + [Binding("reference", Float, p.reference.value)];
    }
    assert query == BASE + Clause(p, Vendor) + Clause(p, Reference);
    assert inputs == Declared(p, Vendor) + Declared(p, Reference);

    if Truthy(p.cocd) {
      query := query + " AND LOWER(CoCd) = LOWER(@cocd)";
      inputs := inputs + [Binding("cocd", NVarChar, p.cocd.value)];
    }
    assert query == BASE + Clause(p, Vendor) + Clause(p, Reference) + Clause(p, CoCd);
    assert inputs == Declared(p, Vendor) + Declared(p, Reference) + Declared(p, CoCd);

    if Truthy(p.pstngDate) {
      query := query + " AND [Pstng Date] = @pstngDate";
      inputs := inputs + [Binding("pstngDate", NVarChar, p.pstngDate.value)];
    }
    assert query == BASE + Clause(p, Vendor) + Clause(p, Reference) + Clause(p, CoCd) + Clause(p, PstngDate);

    var page := p.page.GetOr(1);
    var limit := p.limit.GetOr(MAX_SAFE_INTEGER);
    var offset := (page - 1) * limit;
    var paging := " ORDER BY DocumentNo OFFSET " + IntToDecimal(offset) + " ROWS FETCH NEXT " + IntToDecimal(limit) + " ROWS ONLY";
    assert paging == PagingOf(p);
    query := query + paging;

    QueryByFilter(p);
    InputsByFilter(p);
  }

  /** The handler's literal predicates are the lead, placeholder and trail of each filter. */
  lemma PredicateTexts()
    ensures Predicate(Vendor) == " AND Vendor = @vendor"
    ensures Predicate(Reference) == " AND Reference = @reference"
    ensures Predicate(CoCd) == " AND LOWER(CoCd) = LOWER(@cocd)"
    ensures Predicate(PstngDate) == " AND [Pstng Date] = @pstngDate"
  {
  }

  /**
   * The statement is the base, then for each filter in handler order its
   * predicate when present and nothing when absent, then the paging clause.
   */
  lemma QueryByFilter(p: FilterParams)
    ensures QueryText(p)
      == BASE + Clause(p, Vendor) + Clause(p, Reference) + Clause(p, CoCd) + Clause(p, PstngDate) + PagingOf(p)
  {
    var o1, o2, o3, o4 := Opt(p, Vendor), Opt(p, Reference), Opt(p, CoCd), Opt(p, PstngDate);
    PresentFiltersByFilter(p);
    WhereConcat(o1 + o2 + o3, o4);
    WhereConcat(o1 + o2, o3);
    WhereConcat(o1, o2);
    WhereOpt(p, Vendor);
    WhereOpt(p, Reference);
    WhereOpt(p, CoCd);
    WhereOpt(p, PstngDate);
    var c1, c2, c3, c4 := Clause(p, Vendor), Clause(p, Reference), Clause(p, CoCd), Clause(p, PstngDate);
    assert Where(PresentFilters(p)) == c1 + c2 + c3 + c4;
    AppendAssoc(BASE, c1 + c2 + c3, c4);
    AppendAssoc(BASE, c1 + c2, c3);
    AppendAssoc(BASE, c1, c2);
  }

  /** The inputs are, for each filter in handler order, its binding when present and nothing when absent. */
  lemma InputsByFilter(p: FilterParams)
    ensures Inputs(p) == Declared(p, Vendor) + Declared(p, Reference) + Declared(p, CoCd) + Declared(p, PstngDate)
  {
    var o1, o2, o3, o4 := Opt(p, Vendor), Opt(p, Reference), Opt(p, CoCd), Opt(p, PstngDate);
    PresentFiltersByFilter(p);
    BindingsConcat(p, o1 + o2 + o3, o4);
    BindingsConcat(p, o1 + o2, o3);
    BindingsConcat(p, o1, o2);
    BindingsOpt(p, Vendor);
    BindingsOpt(p, Reference);
    BindingsOpt(p, CoCd);
    BindingsOpt(p, PstngDate);
  }

  /** The selection of present filters, one filter at a time: `[f]` if present, else nothing. */
  function Opt(p: FilterParams, f: Filter): seq<Filter> {
    if Present(p, f) then [f] else []
  }

  /** The present filters are the handler's four tests, in the handler's order. */
  lemma PresentFiltersByFilter(p: FilterParams)
    ensures PresentFilters(p) == Opt(p, Vendor) + Opt(p, Reference) + Opt(p, CoCd) + Opt(p, PstngDate)
  {
    var s3 := Selected(p, [PstngDate]);
    SelectedCons(p, PstngDate, []);
    assert s3 == Opt(p, PstngDate);
    var s2 := Selected(p, [CoCd, PstngDate]);
    SelectedCons(p, CoCd, [PstngDate]);
    assert s2 == Opt(p, CoCd) + s3;
    var s1 := Selected(p, [Reference, CoCd, PstngDate]);
    SelectedCons(p, Reference, [CoCd, PstngDate]);
    assert s1 == Opt(p, Reference) + s2;
    SelectedCons(p, Vendor, [Reference, CoCd, PstngDate]);
    assert PresentFilters(p) == Opt(p, Vendor) + s1;
    var o1, o2, o3, o4 := Opt(p, Vendor), Opt(p, Reference), Opt(p, CoCd), Opt(p, PstngDate);
    AppendAssoc(o2, o3, o4);
    AppendAssoc(o1, o2 + o3, o4);
    AppendAssoc(o1, o2, o3);
  }

  lemma SelectedCons(p: FilterParams, f: Filter, fs: seq<Filter>)
    ensures Selected(p, [f] + fs) == Opt(p, f) + Selected(p, fs)
  {
    assert ([f] + fs)[1..] == fs;
    if !Present(p, f) {
      assert Opt(p, f) + Selected(p, fs) == Selected(p, fs);
    }
  }

  lemma WhereOpt(p: FilterParams, f: Filter)
    ensures Where(Opt(p, f)) == Clause(p, f)
  {
    if Present(p, f) {
      assert Where([f]) == Predicate(f) + Where([]);
    }
  }

  lemma BindingsOpt(p: FilterParams, f: Filter)
    ensures Bindings(p, Opt(p, f)) == Declared(p, f)
  {
    if Present(p, f) {
      assert Bindings(p, [f]) == [BindingFor(p, f)] + Bindings(p, []);
    }
  }

  lemma {:induction false} WhereConcat(a: seq<Filter>, b: seq<Filter>)
    ensures Where(a + b) == Where(a) + Where(b)
    decreases |a|
  {
    if a == [] {
      assert a + b == b;
    } else {
      assert (a + b)[0] == a[0];
      assert (a + b)[1..] == a[1..] + b;
      WhereConcat(a[1..], b);
      AppendAssoc(Predicate(a[0]), Where(a[1..]), Where(b));
    }
  }

  lemma {:induction false} BindingsConcat(p: FilterParams, a: seq<Filter>, b: seq<Filter>)
    ensures Bindings(p, a + b) == Bindings(p, a) + Bindings(p, b)
    decreases |a|
  {
    if a == [] {
      assert a + b == b;
    } else {
      assert (a + b)[0] == a[0];
      assert (a + b)[1..] == a[1..] + b;
      BindingsConcat(p, a[1..], b);
      AppendAssoc([BindingFor(p, a[0])], Bindings(p, a[1..]), Bindings(p, b));
    }
  }

  lemma AppendAssoc<T>(a: seq<T>, b: seq<T>, c: seq<T>)
    ensures (a + b) + c == a + (b + c)
  {
  }

  // The route's promises about the statement and its inputs.

  /** The present filters are exactly the filters whose parameter is truthy, in handler order. */
  lemma PresentFiltersSpec(p: FilterParams)
    ensures forall f :: f in PresentFilters(p) <==> Present(p, f)
    ensures Ordered(PresentFilters(p))
  {
    forall f ensures f in PresentFilters(p) <==> Present(p, f) {
      SelectedMembers(p, FILTER_ORDER, f);
      assert f in FILTER_ORDER by {
        match f
        case Vendor => assert FILTER_ORDER[0] == f;
        case Reference => assert FILTER_ORDER[1] == f;
        case CoCd => assert FILTER_ORDER[2] == f;
        case PstngDate => assert FILTER_ORDER[3] == f;
      }
    }
    SelectedOrdered(p, FILTER_ORDER);
  }

  /** A filter is selected exactly when it is one of `fs` and present. */
  lemma {:induction false} SelectedMembers(p: FilterParams, fs: seq<Filter>, f: Filter)
    ensures f in Selected(p, fs) <==> f in fs && Present(p, f)
    decreases |fs|
  {
    if fs != [] {
      SelectedMembers(p, fs[1..], f);
      assert fs == [fs[0]] + fs[1..];
    }
  }

  /** Selection keeps the order of the filters it selects from. */
  lemma {:induction false} SelectedOrdered(p: FilterParams, fs: seq<Filter>)
    requires Ordered(fs)
    ensures Ordered(Selected(p, fs))
    decreases |fs|
  {
    if fs != [] {
      var rest := Selected(p, fs[1..]);
      SelectedOrdered(p, fs[1..]);
      if Present(p, fs[0]) {
        var r := [fs[0]] + rest;
        forall i, j | 0 <= i < j < |r| ensures Rank(r[i]) < Rank(r[j]) {
          if i == 0 {
            SelectedMembers(p, fs[1..], r[j]);
            assert r[j] in rest;
            var m :| 0 <= m < |fs[1..]| && fs[1..][m] == r[j];
            assert fs[1 + m] == r[j];
          } else {
            assert r[i] == rest[i - 1] && r[j] == rest[j - 1];
          }
        }
      }
    }
  }

  /** The i-th input is the binding of the i-th present filter; there is one input per present filter. */
  lemma InputsMatchFilters(p: FilterParams)
    ensures |Inputs(p)| == |PresentFilters(p)|
    ensures forall i :: 0 <= i < |Inputs(p)| ==> Inputs(p)[i] == BindingFor(p, PresentFilters(p)[i])
  {
    BindingsAt(p, PresentFilters(p));
  }

  lemma {:induction false} BindingsAt(p: FilterParams, fs: seq<Filter>)
    ensures |Bindings(p, fs)| == |fs|
    ensures forall i :: 0 <= i < |fs| ==> Bindings(p, fs)[i] == BindingFor(p, fs[i])
    decreases |fs|
  {
    if fs != [] {
      BindingsAt(p, fs[1..]);
    }
  }

  /** The number of filters whose parameter is truthy. */
  function PresentCount(p: FilterParams): nat {
    (if Present(p, Vendor) then 1 else 0) + (if Present(p, Reference) then 1 else 0)
    + (if Present(p, CoCd) then 1 else 0) + (if Present(p, PstngDate) then 1 else 0)
  }

  /** As many inputs are declared as there are truthy filters. */
  lemma InputCount(p: FilterParams)
    ensures |Inputs(p)| == PresentCount(p)
  {
    InputsByFilter(p);
  }

  /** No two inputs share a name, so each placeholder is bound at most once. */
  lemma InputNamesDistinct(p: FilterParams)
    ensures forall i, j :: 0 <= i < j < |Inputs(p)| ==> Inputs(p)[i].name != Inputs(p)[j].name
  {
    InputsMatchFilters(p);
    PresentFiltersSpec(p);
    forall i, j | 0 <= i < j < |Inputs(p)| ensures Inputs(p)[i].name != Inputs(p)[j].name {
      ParamNameInjective(PresentFilters(p)[i], PresentFilters(p)[j]);
    }
  }

  lemma ParamNameInjective(f: Filter, g: Filter)
    requires f != g
    ensures ParamName(f) != ParamName(g)
  {
    assert ParamName(f)[0] != ParamName(g)[0] || |ParamName(f)| != |ParamName(g)|;
  }

  /**
   * An input named after filter `f` is declared exactly when `f` is truthy,
   * and it carries `f`'s driver type and the parameter's own value.
   */
  lemma InputForFilter(p: FilterParams, f: Filter)
    ensures (exists i :: 0 <= i < |Inputs(p)| && Inputs(p)[i].name == ParamName(f)) <==> Present(p, f)
    ensures forall i :: 0 <= i < |Inputs(p)| && Inputs(p)[i].name == ParamName(f) ==>
      Inputs(p)[i].sqlType == ParamType(f) && Value(p, f) == Some(Inputs(p)[i].value) && Inputs(p)[i].value != ""
  {
    InputsMatchFilters(p);
    PresentFiltersSpec(p);
    var fs := PresentFilters(p);
    forall i | 0 <= i < |Inputs(p)| && Inputs(p)[i].name == ParamName(f)
      ensures fs[i] == f
    {
      if fs[i] != f {
        ParamNameInjective(fs[i], f);
      }
    }
    if Present(p, f) {
      var k :| 0 <= k < |fs| && fs[k] == f;
      assert Inputs(p)[k].name == ParamName(f);
    }
  }

  /** The names of a list of inputs, in order. */
  function Names(bs: seq<Binding>): seq<string>
    decreases |bs|
  {
    if bs == [] then [] else [bs[0].name] + Names(bs[1..])
  }

  /**
   * The statement's placeholders are exactly the names of the declared
   * inputs, in the same order: every placeholder is bound, and the only
   * placeholders are `@vendor`, `@reference`, `@cocd` and `@pstngDate`.
   */
  lemma PlaceholdersMatchInputs(p: FilterParams)
    ensures Placeholders(QueryText(p)) == Names(Inputs(p))
  {
    var fs := PresentFilters(p);
    var w := Where(fs);
    var front := BASE + w;
    var paging := PagingOf(p);
    assert QueryText(p) == front + paging;
    PagingHasNoPlaceholders(p);
    PlaceholdersAppend(front, paging);
    WhereDetached(fs);
    PlaceholdersAppend(BASE, w);
    BaseHasNoPlaceholders();
    PlaceholdersWhere(p, fs);
    assert Placeholders(front) == Names(Inputs(p));
  }

  lemma BaseHasNoPlaceholders()
    ensures Placeholders(BASE) == []
  {
    assert '@' !in BASE;
    NoPlaceholders(BASE);
  }

  lemma PagingHasNoPlaceholders(p: FilterParams)
    ensures StartsDetached(PagingOf(p))
    ensures Placeholders(PagingOf(p)) == []
  {
    var o, l := IntToDecimal(Offset(Page(p), Limit(p))), IntToDecimal(Limit(p));
    var paging := " ORDER BY DocumentNo OFFSET " + o + " ROWS FETCH NEXT " + l + " ROWS ONLY";
    assert paging == PagingOf(p);
    assert '@' !in o && '@' !in l;
    assert '@' !in " ORDER BY DocumentNo OFFSET ";
    assert '@' !in " ROWS FETCH NEXT ";
    assert '@' !in " ROWS ONLY";
    assert paging[0] == ' ';
    NoPlaceholders(paging);
  }

  lemma WhereDetached(fs: seq<Filter>)
    ensures StartsDetached(Where(fs))
  {
    if fs != [] {
      assert Lead(fs[0])[0] == ' ';
    }
  }

  lemma {:induction false} PlaceholdersWhere(p: FilterParams, fs: seq<Filter>)
    ensures Placeholders(Where(fs)) == Names(Bindings(p, fs))
    decreases |fs|
  {
    if fs != [] {
      var f := fs[0];
      WhereDetached(fs[1..]);
      PlaceholdersAppend(Predicate(f), Where(fs[1..]));
      PredicatePlaceholder(f);
      PlaceholdersWhere(p, fs[1..]);
      var bs := Bindings(p, fs);
      assert bs[1..] == Bindings(p, fs[1..]);
    }
  }

  /** Each predicate holds the one placeholder named after its filter. */
  lemma PredicatePlaceholder(f: Filter)
    ensures Placeholders(Predicate(f)) == [ParamName(f)]
  {
    assert '@' !in Lead(f) && '@' !in Trail(f);
    assert StartsDetached(Trail(f));
    assert forall i :: 0 <= i < |ParamName(f)| ==> IsIdentChar(ParamName(f)[i]);
    SinglePlaceholder(Lead(f), ParamName(f), Trail(f));
  }

  /**
   * Filter values never reach the statement text: two requests with the
   * same truthy filters and the same paging send the same statement,
   * whatever the filter values are.
   */
  lemma QueryIgnoresFilterValues(p1: FilterParams, p2: FilterParams)
    requires forall f :: Present(p1, f) <==> Present(p2, f)
    requires Page(p1) == Page(p2) && Limit(p1) == Limit(p2)
    ensures QueryText(p1) == QueryText(p2)
  {
    QueryByFilter(p1);
    QueryByFilter(p2);
    assert Clause(p1, Vendor) == Clause(p2, Vendor);
    assert Clause(p1, Reference) == Clause(p2, Reference);
    assert Clause(p1, CoCd) == Clause(p2, CoCd);
    assert Clause(p1, PstngDate) == Clause(p2, PstngDate);
  }

  /**
   * A company code carrying SQL (`' OR 1=1 --`, say) is sent exactly as any
   * other company code: the statement is the one for a plain value, and the
   * text travels only as the value of the `cocd` input.
   */
  lemma CoCdValueOnlyBound(p: FilterParams, v: string)
    requires v != ""
    ensures QueryText(p.(cocd := Some(v))) == QueryText(p.(cocd := Some("x")))
    ensures Binding("cocd", NVarChar, v) in Inputs(p.(cocd := Some(v)))
  {
    var q := p.(cocd := Some(v));
    QueryIgnoresFilterValues(q, p.(cocd := Some("x")));
    InputsByFilter(q);
    assert Declared(q, CoCd) == [Binding("cocd", NVarChar, v)];
  }

  /** Every statement starts with the base statement and ends with its paging clause. */
  lemma QueryShape(p: FilterParams)
    ensures BASE <= QueryText(p)
    ensures var q, t := QueryText(p), PagingOf(p); |q| >= |t| && q[|q| - |t|..] == t
  {
    var front := BASE + Where(PresentFilters(p));
    PrefixSuffix(BASE, Where(PresentFilters(p)));
    PrefixSuffix(front, PagingOf(p));
  }

  lemma PrefixSuffix(a: string, b: string)
    ensures a <= a + b
    ensures (a + b)[|a|..] == b
  {
  }

  /** Without `page` and `limit` the statement asks for every row from the first. */
  lemma DefaultPaging(p: FilterParams)
    requires p.page == None && p.limit == None
    ensures PagingOf(p) == Tail(0, MAX_SAFE_INTEGER)
    ensures IntToDecimal(0) == "0"
  {
  }

  /** The default page size renders as the limit's sixteen digits. */
  lemma MaxSafeIntegerText()
    ensures IntToDecimal(MAX_SAFE_INTEGER) == "9007199254740991"
  {
    LeadingDigitsText();
    assert NatToDecimal(900719925) == "900719925";
    assert NatToDecimal(9007199254) == "9007199254";
    assert NatToDecimal(90071992547) == "90071992547";
    assert NatToDecimal(900719925474) == "900719925474";
    assert NatToDecimal(9007199254740) == "9007199254740";
    assert NatToDecimal(90071992547409) == "90071992547409";
    assert NatToDecimal(900719925474099) == "900719925474099";
  }

  /** The first eight digits of the default page size. */
  lemma LeadingDigitsText()
    ensures NatToDecimal(90071992) == "90071992"
  {
    assert NatToDecimal(9) == "9";
    assert NatToDecimal(90) == "90";
    assert NatToDecimal(900) == "900";
    assert NatToDecimal(9007) == "9007";
    assert NatToDecimal(90071) == "90071";
    assert NatToDecimal(900719) == "900719";
    assert NatToDecimal(9007199) == "9007199";
  }

  /** Page `page + 1` starts right after the `limit` rows of page `page`. */
  lemma NextPageOffset(page: int, limit: int)
    ensures Offset(page + 1, limit) == Offset(page, limit) + limit
  {
  }
}
