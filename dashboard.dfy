/** The dashboard page (src/app/dashboard/page.tsx): the responses of all forms
    flattened into one list, the totals and distributions computed from it, the
    list of forms and its pagination, and the page state the fetch fills in. */
module Dashboard {
  import opened Collections
  import opened DashboardTrend

  /** A response as the server sends it; `createdAt` is already read as a civil
      month, `None` standing for a missing, empty or unparseable date. */
  datatype ResponseItem = ResponseItem(
    id: string,
    formId: string,
    formName: Option<string>,
    manuallyFilled: bool,
    aiFilled: bool,
    location: Option<string>,
    age: Option<string>,
    createdAt: Option<CivilMonth>)

  /** A form of the `data` list of the server's reply: `responseCount` is `None`
      when it is not a number, `responses` is `None` when it is not an array. */
  datatype ApiForm = ApiForm(
    id: string,
    formName: string,
    responseCount: Option<int>,
    responses: Option<seq<ResponseItem>>)

  /** `body.data`: falsy (so `|| []` applies), some other non-array value
      (whose `flatMap` call throws), or a list of forms. */
  datatype FormsData = Falsy | NotAList | Listed(forms: seq<ApiForm>)

  /** How the request ends: a non-ok status, an exception (network or JSON
      parsing), or an ok reply with its parsed `data`. */
  datatype FetchOutcome = NotOk(status: int) | Threw | Ok(data: FormsData)

  /** A row of the page's form list. */
  datatype FormRow = FormRow(
    id: string,
    formName: string,
    responseCount: int,
    responses: Option<seq<ResponseItem>>)

  // ---------------------------------------------------------------------------
  // Flattening

  /** `Array.isArray(form.responses) ? form.responses : []` */
  function ResponsesOf(f: ApiForm): seq<ResponseItem> {
    if f.responses.Some? then f.responses.value else []
  }

  /** `{ ...r, formName: form.formName, formId: form.id }` */
  function Tag(f: ApiForm, r: ResponseItem): ResponseItem {
    r.(formName := Some(f.formName), formId := f.id)
  }

  function TagAll(f: ApiForm): (rs: seq<ResponseItem>)
    ensures |rs| == |ResponsesOf(f)|
  {
    seq(|ResponsesOf(f)|, i requires 0 <= i < |ResponsesOf(f)| => Tag(f, ResponsesOf(f)[i]))
  }

  /** `allResponses`: the tagged responses of every form, form after form. */
  function Flatten(fs: seq<ApiForm>): seq<ResponseItem> {
    if fs == [] then [] else TagAll(fs[0]) + Flatten(fs[1..])
  }

  /** The number of responses the forms carry in an array. */
  function ListedCount(fs: seq<ApiForm>): nat {
    if fs == [] then 0 else |ResponsesOf(fs[0])| + ListedCount(fs[1..])
  }

  /** `total` is the sum of the lengths of the forms' response arrays. */
  lemma {:induction false} FlattenLength(fs: seq<ApiForm>)
    ensures |Flatten(fs)| == ListedCount(fs)
  {
    if fs != [] {
      FlattenLength(fs[1..]);
    }
  }

  /** Response `i` of form `k` sits in the flattened list after the responses
      of the forms before `k`, carrying form `k`'s id and name. */
  lemma {:induction false} FlattenAt(fs: seq<ApiForm>, k: nat, i: nat)
    requires k < |fs| && i < |ResponsesOf(fs[k])|
    ensures ListedCount(fs[..k]) + i < |Flatten(fs)|
    ensures Flatten(fs)[ListedCount(fs[..k]) + i] == Tag(fs[k], ResponsesOf(fs[k])[i])
  {
    if k == 0 {
      assert fs[..k] == [];
    } else {
      var t := fs[1..];
      FlattenAt(t, k - 1, i);
      assert fs[..k][0] == fs[0] && fs[..k][1..] == t[..k - 1];
      assert t[k - 1] == fs[k];
    }
  }

  /** Every flattened response comes from some form's response array, and
      carries that form's id and name. */
  lemma {:induction false} FlattenOrigin(fs: seq<ApiForm>, j: nat)
    requires j < |Flatten(fs)|
    ensures exists k, i :: 0 <= k < |fs| && 0 <= i < |ResponsesOf(fs[k])|
                           && Flatten(fs)[j] == Tag(fs[k], ResponsesOf(fs[k])[i])
  {
    var head := TagAll(fs[0]);
    if j < |head| {
      assert Flatten(fs)[j] == Tag(fs[0], ResponsesOf(fs[0])[j]);
    } else {
      var t := fs[1..];
      FlattenOrigin(t, j - |head|);
      var k, i :| 0 <= k < |t| && 0 <= i < |ResponsesOf(t[k])|
                  && Flatten(t)[j - |head|] == Tag(t[k], ResponsesOf(t[k])[i]);
      assert fs[k + 1] == t[k];
    }
  }

  lemma FlattenCarriesFormIdentity(fs: seq<ApiForm>, j: nat)
    requires j < |Flatten(fs)|
    ensures exists k :: 0 <= k < |fs| && fs[k].responses.Some?
                        && Flatten(fs)[j].formId == fs[k].id
                        && Flatten(fs)[j].formName == Some(fs[k].formName)
  {
    FlattenOrigin(fs, j);
    var k, i :| 0 <= k < |fs| && 0 <= i < |ResponsesOf(fs[k])|
                && Flatten(fs)[j] == Tag(fs[k], ResponsesOf(fs[k])[i]);
    assert fs[k].responses.Some?;
  }

  // ---------------------------------------------------------------------------
  // Counting

  /** `rs.filter(p).length` */
  function CountIf(rs: seq<ResponseItem>, p: ResponseItem -> bool): (n: nat)
    ensures n <= |rs|
  {
    if rs == [] then 0 else (if p(rs[0]) then 1 else 0) + CountIf(rs[1..], p)
  }

  function IsManual(r: ResponseItem): bool { r.manuallyFilled }
  function IsAi(r: ResponseItem): bool { r.aiFilled }
  function IsBoth(r: ResponseItem): bool { r.manuallyFilled && r.aiFilled }
  function IsEither(r: ResponseItem): bool { r.manuallyFilled || r.aiFilled }

  /** The two filters count independently: a response flagged both ways is
      counted by both, so `manual + ai` exceeds the total exactly by the
      responses flagged both ways less those flagged neither way. */
  lemma {:induction false} ManualAiOverlap(rs: seq<ResponseItem>)
    ensures CountIf(rs, IsManual) + CountIf(rs, IsAi) == CountIf(rs, IsBoth) + CountIf(rs, IsEither)
  {
    if rs != [] {
      ManualAiOverlap(rs[1..]);
    }
  }
  // ---------------------------------------------------------------------------
  // Distributions

  /** `r.location ?? "Unknown"` */
  function LocationKey(r: ResponseItem): string { r.location.GetOr(UNKNOWN) }

  /** `r.age ?? "Unknown"` */
  function AgeKey(r: ResponseItem): string { r.age.GetOr(UNKNOWN) }

  /** `monthKey(r.createdAt) ?? "Unknown"` */
  function MonthKeyOf(r: ResponseItem): string { MonthKeyOrUnknown(r.createdAt) }

  function KeysOf(rs: seq<ResponseItem>, key: ResponseItem -> string): seq<string> {
    seq(|rs|, i requires 0 <= i < |rs| => key(rs[i]))
  }

  /** `locationMap`, `ageMap` and `monthMap` */
  function LocationTally(rs: seq<ResponseItem>): map<string, nat> { TallyOf(KeysOf(rs, LocationKey)) }
  function AgeTally(rs: seq<ResponseItem>): map<string, nat> { TallyOf(KeysOf(rs, AgeKey)) }
  function MonthTally(rs: seq<ResponseItem>): map<string, nat> { TallyOf(KeysOf(rs, MonthKeyOf)) }

  function Locations(rs: seq<ResponseItem>): seq<Option<string>> {
    seq(|rs|, i requires 0 <= i < |rs| => rs[i].location)
  }

  function Ages(rs: seq<ResponseItem>): seq<Option<string>> {
    seq(|rs|, i requires 0 <= i < |rs| => rs[i].age)
  }

  function Dates(rs: seq<ResponseItem>): seq<Option<CivilMonth>> {
    seq(|rs|, i requires 0 <= i < |rs| => rs[i].createdAt)
  }

  function OrUnknown(os: seq<Option<string>>): seq<string> {
    seq(|os|, i requires 0 <= i < |os| => os[i].GetOr(UNKNOWN))
  }

  /** `?? "Unknown"` keeps every present value, the empty string included, and
      sends only the absent ones to "Unknown". */
  lemma {:induction false} OrUnknownMultiplicity(os: seq<Option<string>>, k: string)
    ensures multiset(OrUnknown(os))[k]
            == multiset(os)[Some(k)] + (if k == UNKNOWN then multiset(os)[None] else 0)
  {
    if os != [] {
      OrUnknownMultiplicity(os[1..], k);
      assert OrUnknown(os) == [os[0].GetOr(UNKNOWN)] + OrUnknown(os[1..]);
      assert os == [os[0]] + os[1..];
    }
  }

  function MonthKeys(ds: seq<Option<CivilMonth>>): seq<string> {
    seq(|ds|, i requires 0 <= i < |ds| => MonthKeyOrUnknown(ds[i]))
  }

  lemma {:induction false} MonthKeysMultiplicity(ds: seq<Option<CivilMonth>>, d: CivilMonth)
    ensures multiset(MonthKeys(ds))[MonthKey(d)] == multiset(ds)[Some(d)]
    ensures multiset(MonthKeys(ds))[UNKNOWN] == multiset(ds)[None]
  {
    if ds != [] {
      MonthKeysMultiplicity(ds[1..], d);
      assert MonthKeys(ds) == [MonthKeyOrUnknown(ds[0])] + MonthKeys(ds[1..]);
      assert ds == [ds[0]] + ds[1..];
      MonthKeyIsNotUnknown(d);
      if ds[0].Some? {
        MonthKeyIsNotUnknown(ds[0].value);
        if MonthKey(ds[0].value) == MonthKey(d) {
          MonthKeyInjective(ds[0].value, d);
        }
      }
    }
  }

  /** A location bucket counts the responses reporting exactly that location,
      the empty string included; "Unknown" also collects those reporting none. */
  lemma LocationBucket(rs: seq<ResponseItem>, k: string)
    ensures Count(LocationTally(rs), k)
            == multiset(Locations(rs))[Some(k)] + (if k == UNKNOWN then multiset(Locations(rs))[None] else 0)
  {
    assert KeysOf(rs, LocationKey) == OrUnknown(Locations(rs)) by {
      forall i | 0 <= i < |rs| ensures KeysOf(rs, LocationKey)[i] == OrUnknown(Locations(rs))[i] {
        assert KeysOf(rs, LocationKey)[i] == LocationKey(rs[i]) == rs[i].location.GetOr(UNKNOWN);
        assert Locations(rs)[i] == rs[i].location;
        assert OrUnknown(Locations(rs))[i] == Locations(rs)[i].GetOr(UNKNOWN);
      }
    }
    TallyOfCounts(KeysOf(rs, LocationKey));
    OrUnknownMultiplicity(Locations(rs), k);
  }

  /** The same for the age buckets. */
  lemma AgeBucket(rs: seq<ResponseItem>, k: string)
    ensures Count(AgeTally(rs), k)
            == multiset(Ages(rs))[Some(k)] + (if k == UNKNOWN then multiset(Ages(rs))[None] else 0)
  {
    assert KeysOf(rs, AgeKey) == OrUnknown(Ages(rs)) by {
      forall i | 0 <= i < |rs| ensures KeysOf(rs, AgeKey)[i] == OrUnknown(Ages(rs))[i] {
        assert KeysOf(rs, AgeKey)[i] == AgeKey(rs[i]) == rs[i].age.GetOr(UNKNOWN);
        assert Ages(rs)[i] == rs[i].age;
        assert OrUnknown(Ages(rs))[i] == Ages(rs)[i].GetOr(UNKNOWN);
      }
    }
    TallyOfCounts(KeysOf(rs, AgeKey));
    OrUnknownMultiplicity(Ages(rs), k);
  }

  /** A month's bucket counts exactly the responses dated in that month, and the
      "Unknown" bucket exactly those without a usable date. */
  lemma MonthBucket(rs: seq<ResponseItem>, d: CivilMonth)
    ensures Count(MonthTally(rs), MonthKey(d)) == multiset(Dates(rs))[Some(d)]
    ensures Count(MonthTally(rs), UNKNOWN) == multiset(Dates(rs))[None]
  {
    assert KeysOf(rs, MonthKeyOf) == MonthKeys(Dates(rs));
    TallyOfCounts(KeysOf(rs, MonthKeyOf));
    MonthKeysMultiplicity(Dates(rs), d);
  }

  // ---------------------------------------------------------------------------
  // The monthly trend

  /** The month entries in the order the comparator puts them. */
  ghost function SortedMonths(rs: seq<ResponseItem>): seq<(string, nat)> {
    SortTrend(ListingOf(MonthTally(rs)))
  }

  /** `trendArr` */
  ghost function Trend(rs: seq<ResponseItem>, monthLabel: string -> string): seq<TrendPoint> {
    Labelled(SortedMonths(rs), monthLabel)
  }

  /** The trend lists each month key once, strictly ordered with "Unknown" last,
      and has an "Unknown" entry exactly when some response has no usable date. */
  lemma TrendShape(rs: seq<ResponseItem>)
    ensures TrendSorted(SortedMonths(rs)) && EnumeratesMap(SortedMonths(rs), MonthTally(rs))
    ensures UNKNOWN in KeySet(SortedMonths(rs)) <==> exists i :: 0 <= i < |rs| && rs[i].createdAt.None?
  {
    var m := MonthTally(rs);
    ListingOfEnumerates(m);
    SortTrendEnumerates(ListingOf(m), m);
    TallyOfCounts(KeysOf(rs, MonthKeyOf));
    UnknownKeyPresent(rs);
  }

  lemma UnknownKeyPresent(rs: seq<ResponseItem>)
    ensures UNKNOWN in KeysOf(rs, MonthKeyOf) <==> exists i :: 0 <= i < |rs| && rs[i].createdAt.None?
  {
    var keys := KeysOf(rs, MonthKeyOf);
    if UNKNOWN in keys {
      var i :| 0 <= i < |rs| && keys[i] == UNKNOWN;
      assert keys[i] == MonthKeyOf(rs[i]) == MonthKeyOrUnknown(rs[i].createdAt);
      if rs[i].createdAt.Some? {
        MonthKeyIsNotUnknown(rs[i].createdAt.value);
      }
      assert rs[i].createdAt.None?;
    }
    if exists i :: 0 <= i < |rs| && rs[i].createdAt.None? {
      var i :| 0 <= i < |rs| && rs[i].createdAt.None?;
      assert keys[i] == MonthKeyOf(rs[i]) == MonthKeyOrUnknown(rs[i].createdAt) == UNKNOWN;
      assert UNKNOWN in keys;
    }
  }

  /** For four-digit years the trend runs in calendar order. */
  lemma TrendChronological(rs: seq<ResponseItem>, i: nat, j: nat, a: CivilMonth, b: CivilMonth)
    requires i < j < |SortedMonths(rs)|
    requires SortedMonths(rs)[i].0 == MonthKey(a) && SortedMonths(rs)[j].0 == MonthKey(b)
    requires 1000 <= a.year <= 9999 && 1000 <= b.year <= 9999
    ensures Earlier(a, b)
  {
    TrendShape(rs);
    MonthKeyIsNotUnknown(b);
    SortedTrendShape(SortedMonths(rs));
    MonthKeyOrderIsChronological(a, b);
  }

  function PointsTotal(ps: seq<TrendPoint>): nat {
    if ps == [] then 0 else ps[0].count + PointsTotal(ps[1..])
  }

  lemma {:induction false} PointsTotalLabelled(s: seq<(string, nat)>, monthLabel: string -> string)
    ensures PointsTotal(Labelled(s, monthLabel)) == SumCounts(s)
  {
    if s != [] {
      PointsTotalLabelled(s[1..], monthLabel);
      assert Labelled(s, monthLabel)[1..] == Labelled(s[1..], monthLabel);
    }
  }

  // ---------------------------------------------------------------------------
  // The form list

  /** `typeof f.responseCount === "number" ? f.responseCount : (responses length or 0)` */
  function RowOf(f: ApiForm): FormRow {
    FormRow(f.id, f.formName, if f.responseCount.Some? then f.responseCount.value else |ResponsesOf(f)|, f.responses)
  }

  /** `formsArr`: one row per form, in the server's order. */
  function FormRows(fs: seq<ApiForm>): (rows: seq<FormRow>)
    ensures |rows| == |fs|
    ensures forall i :: 0 <= i < |fs| ==>
      && rows[i].id == fs[i].id && rows[i].formName == fs[i].formName
      && rows[i].responses == fs[i].responses
      && rows[i].responseCount == (if fs[i].responseCount.Some? then fs[i].responseCount.value
                                   else if fs[i].responses.Some? then |fs[i].responses.value| else 0)
  {
    seq(|fs|, i requires 0 <= i < |fs| => RowOf(fs[i]))
  }

  // ---------------------------------------------------------------------------
  // What the page shows after a fetch

  datatype Aggregates = Aggregates(
    total: nat,
    manual: nat,
    ai: nat,
    locations: seq<(string, nat)>,
    ages: map<string, nat>,
    trend: seq<TrendPoint>,
    forms: seq<FormRow>)

  /** The state every failure path resets to. */
  const EMPTY: Aggregates := Aggregates(0, 0, 0, [], map[], [], [])

  /** `a` is what the page shows for the forms `data`; only the order of the
      location entries is left open. */
  ghost predicate Summarises(a: Aggregates, data: seq<ApiForm>, monthLabel: string -> string) {
    var rs := Flatten(data);
    && a.total == |rs|
    && a.manual == CountIf(rs, IsManual)
    && a.ai == CountIf(rs, IsAi)
    && EnumeratesMap(a.locations, LocationTally(rs))
    && a.ages == AgeTally(rs)
    && a.trend == Trend(rs, monthLabel)
    && a.forms == FormRows(data)
  }

  /** The aggregation body of `fetchAndParse`, from the flattened responses to
      the values set into the page state. */
  method Aggregate(data: seq<ApiForm>, monthLabel: string -> string) returns (a: Aggregates)
    ensures Summarises(a, data, monthLabel)
  {
    var rs := Flatten(data);
    var locationMap := Tally(KeysOf(rs, LocationKey));
    var locationArr := Entries(locationMap);
    var ageMap := Tally(KeysOf(rs, AgeKey));
    var monthMap := Tally(KeysOf(rs, MonthKeyOf));
    var monthEntries := Entries(monthMap);
    var sorted := SortTrend(monthEntries);
    ListingOfEnumerates(monthMap);
    SortTrendDeterministic(monthEntries, ListingOf(monthMap), monthMap);
    a := Aggregates(|rs|, CountIf(rs, IsManual), CountIf(rs, IsAi), locationArr, ageMap,
                    Labelled(sorted, monthLabel), FormRows(data));
  }

  /** Every distribution is a partition of the responses: its counts add up
      to the total, which is the number of responses the forms carry. */
  lemma SummaryPartitions(a: Aggregates, data: seq<ApiForm>, monthLabel: string -> string)
    requires Summarises(a, data, monthLabel)
    ensures a.total == ListedCount(data)
    ensures a.manual <= a.total && a.ai <= a.total
    ensures SumCounts(a.locations) == a.total
    ensures MapSum(a.ages) == a.total
    ensures PointsTotal(a.trend) == a.total
    ensures |a.forms| == |data|
  {
    var rs := Flatten(data);
    FlattenLength(data);
    EntriesOfTallySum(a.locations, KeysOf(rs, LocationKey));
    TallyOfSum(KeysOf(rs, AgeKey));
    TrendShape(rs);
    EntriesOfTallySum(SortedMonths(rs), KeysOf(rs, MonthKeyOf));
    PointsTotalLabelled(SortedMonths(rs), monthLabel);
  }

  /** A falsy `data` shows exactly what a failure shows. */
  lemma NoDataIsEmpty(a: Aggregates, monthLabel: string -> string)
    ensures Summarises(a, [], monthLabel) <==> a == EMPTY
  {
    assert Flatten([]) == [];
    assert KeysOf([], MonthKeyOf) == [];
    assert ListingOf(map[]) == [];
    if Summarises(a, [], monthLabel) {
      EnumerationSize(a.locations, map[]);
    }
  }

  /** What the page shows once the request for the forms has ended. */
  ghost predicate ShowsOutcome(a: Aggregates, outcome: FetchOutcome, monthLabel: string -> string) {
    match outcome
    case NotOk(_) => a == EMPTY
    case Threw => a == EMPTY
    case Ok(Falsy) => Summarises(a, [], monthLabel)
    case Ok(NotAList) => a == EMPTY
    case Ok(Listed(fs)) => Summarises(a, fs, monthLabel)
  }

  // ---------------------------------------------------------------------------
  // Pagination

  const PAGE_SIZE: nat := 10

  function Min(a: int, b: int): int { if a <= b then a else b }
  function Max(a: int, b: int): int { if a >= b then a else b }

  /** `Math.max(1, Math.ceil(n / PAGE_SIZE))`: the fewest pages of ten that hold
      `n` forms, and never fewer than one. */
  function TotalPages(n: nat): (p: nat)
    ensures p >= 1 && n <= p * PAGE_SIZE
    ensures p == 1 || (p - 1) * PAGE_SIZE < n
  {
    Max(1, (n + PAGE_SIZE - 1) / PAGE_SIZE)
  }

  /** Where a `slice` bound lands: negative bounds count from the end, and
      every bound is clamped into the sequence. */
  function SliceIndex(i: int, len: nat): (r: nat)
    ensures r <= len
    ensures 0 <= i ==> r == Min(i, len)
  {
    if i < 0 then Max(len + i, 0) else Min(i, len)
  }

  /** `s.slice(b, e)` */
  function JsSlice<T>(s: seq<T>, b: int, e: int): seq<T> {
    var lo, hi := SliceIndex(b, |s|), SliceIndex(e, |s|);
    if lo < hi then s[lo..hi] else []
  }

  /** `currentForms` for page `page`. */
  function Page<T>(forms: seq<T>, page: int): seq<T> {
    var start := (page - 1) * PAGE_SIZE;
    JsSlice(forms, start, start + PAGE_SIZE)
  }

  /** A page holds the forms from `(page-1)*10` on, at most ten of them, in the
      list's own order. */
  lemma PageContents<T>(forms: seq<T>, page: int)
    requires page >= 1
    ensures |Page(forms, page)| == Min(PAGE_SIZE, Max(0, |forms| - (page - 1) * PAGE_SIZE))
    ensures forall k :: 0 <= k < |Page(forms, page)| ==> Page(forms, page)[k] == forms[(page - 1) * PAGE_SIZE + k]
  {
  }

  /** Every form is on exactly the page its index says, and that page exists. */
  lemma FormPage<T>(forms: seq<T>, i: nat)
    requires i < |forms|
    ensures 1 <= i / PAGE_SIZE + 1 <= TotalPages(|forms|)
    ensures i % PAGE_SIZE < |Page(forms, i / PAGE_SIZE + 1)|
    ensures Page(forms, i / PAGE_SIZE + 1)[i % PAGE_SIZE] == forms[i]
  {
    PageContents(forms, i / PAGE_SIZE + 1);
  }

  /** Pages past the last one are empty. */
  lemma PageBeyondLast<T>(forms: seq<T>, page: int)
    requires page > TotalPages(|forms|)
    ensures Page(forms, page) == []
  {
  }

  /** The pages from `page` to the last one, one after the other. */
  function PagesFrom<T>(forms: seq<T>, page: nat): seq<T>
    requires page >= 1
    decreases TotalPages(|forms|) + 1 - page
  {
    if page > TotalPages(|forms|) then [] else Page(forms, page) + PagesFrom(forms, page + 1)
  }

  lemma {:induction false} PagesFromSuffix<T>(forms: seq<T>, page: nat)
    requires 1 <= page
    ensures PagesFrom(forms, page) == forms[Min((page - 1) * PAGE_SIZE, |forms|)..]
    decreases TotalPages(|forms|) + 1 - page
  {
    if page <= TotalPages(|forms|) {
      PagesFromSuffix(forms, page + 1);
      var a := Min((page - 1) * PAGE_SIZE, |forms|);
      var b := Min(page * PAGE_SIZE, |forms|);
      assert Page(forms, page) == forms[a..b];
      assert forms[a..b] + forms[b..] == forms[a..];
    }
  }

  /** Paging through all pages shows every form once, in the list's order. */
  lemma PagesCoverForms<T>(forms: seq<T>)
    ensures PagesFrom(forms, 1) == forms
  {
    PagesFromSuffix(forms, 1);
  }

  // ---------------------------------------------------------------------------
  // The page component

  /** `!token` is false only for a non-empty stored token. */
  predicate HasToken(token: Option<string>) {
    token.Some? && token.value != ""
  }

  class DashboardPage {
    var loading: bool
    var forms: seq<FormRow>
    var currentPage: int
    var totalResponses: nat
    var manualCount: nat
    var aiCount: nat
    var locationData: seq<(string, nat)>
    var ageData: map<string, nat>
    var trendData: seq<TrendPoint>
    /** `router.push("/login")` has been issued. */
    var redirectedToLogin: bool

    /** The values shown by the stat cards, the charts and the form list. */
    function Shown(): Aggregates
      reads this
    {
      Aggregates(totalResponses, manualCount, aiCount, locationData, ageData, trendData, forms)
    }

    function PageCount(): nat
      reads this
    {
      TotalPages(|forms|)
    }

    function CurrentForms(): seq<FormRow>
      reads this
    {
      Page(forms, currentPage)
    }

    predicate InRange()
      reads this
    {
      1 <= currentPage <= PageCount()
    }

    /** The pagination controls render only with more than one page. */
    predicate ShowsPager()
      reads this
    {
      !loading && |forms| != 0 && PageCount() > 1
    }

    predicate PrevDisabled()
      reads this
    {
      currentPage == 1
    }

    predicate NextDisabled()
      reads this
    {
      currentPage == PageCount()
    }

    constructor()
      ensures loading && currentPage == 1 && Shown() == EMPTY && !redirectedToLogin
    {
      loading := true;
      forms := [];
      currentPage := 1;
      totalResponses := 0;
      manualCount := 0;
      aiCount := 0;
      locationData := [];
      ageData := map[];
      trendData := [];
      redirectedToLogin := false;
    }

    method Reset()
      modifies this
      ensures Shown() == EMPTY
      ensures loading == old(loading) && currentPage == old(currentPage)
      ensures redirectedToLogin == old(redirectedToLogin)
    {
      forms := [];
      totalResponses := 0;
      locationData := [];
      ageData := map[];
      trendData := [];
      manualCount := 0;
      aiCount := 0;
    }

    /** `fetchAndParse`, with the stored token and the request's outcome as inputs.
        Without a token the page asks for the login page and stays loading. */
    method FetchAndParse(token: Option<string>, outcome: FetchOutcome, monthLabel: string -> string)
      modifies this
      ensures currentPage == old(currentPage)
      ensures !HasToken(token) ==> loading && redirectedToLogin && Shown() == old(Shown())
      ensures HasToken(token) ==> !loading && redirectedToLogin == old(redirectedToLogin)
      ensures HasToken(token) ==> ShowsOutcome(Shown(), outcome, monthLabel)
    {
      loading := true;
      if !HasToken(token) {
        redirectedToLogin := true;
        return;
      }
      match outcome {
        case NotOk(_) =>
          Reset();
        case Threw =>
          Reset();
        case Ok(body) =>
          match body {
            case NotAList =>
              Reset();
            case Falsy =>
              var a := Aggregate([], monthLabel);
              SetShown(a);
            case Listed(fs) =>
              var a := Aggregate(fs, monthLabel);
              SetShown(a);
          }
      }
      loading := false;
    }

    method SetShown(a: Aggregates)
      modifies this
      ensures Shown() == a
      ensures loading == old(loading) && currentPage == old(currentPage)
      ensures redirectedToLogin == old(redirectedToLogin)
    {
      forms := a.forms;
      totalResponses := a.total;
      manualCount := a.manual;
      aiCount := a.ai;
      locationData := a.locations;
      ageData := a.ages;
      trendData := a.trend;
    }

    /** `setCurrentPage(prev => Math.max(prev - 1, 1))` */
    method HandlePrev()
      modifies this
      ensures currentPage == Max(old(currentPage) - 1, 1)
      ensures Shown() == old(Shown()) && loading == old(loading)
      ensures redirectedToLogin == old(redirectedToLogin)
      ensures old(InRange()) ==> InRange()
      ensures old(PrevDisabled()) ==> currentPage == old(currentPage)
    {
      currentPage := Max(currentPage - 1, 1);
    }

    /** `setCurrentPage(prev => Math.min(prev + 1, totalPages))` */
    method HandleNext()
      modifies this
      ensures currentPage == Min(old(currentPage) + 1, PageCount())
      ensures Shown() == old(Shown()) && loading == old(loading)
      ensures redirectedToLogin == old(redirectedToLogin)
      ensures old(InRange()) ==> InRange()
      ensures old(NextDisabled()) ==> currentPage == old(currentPage)
    {
      currentPage := Min(currentPage + 1, PageCount());
    }
  }
}
