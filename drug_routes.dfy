/** The drug catalogue routes of backend/routes/drugs.js: the filtered,
    sorted and paginated listing, the lookup that hides inactive drugs, the
    administrator's create, update and soft delete, and the advanced
    search. A drug's id is its position in the catalogue. */
module DrugRoutes {
  import opened Common
  import opened DrugModel

  type DrugId = nat

  datatype RouteError = Forbidden | Invalid(paths: set<Path>) | NotFound | ServerError

  /** JavaScript truthiness of a query-string parameter. */
  predicate Given(s: Option<string>) {
    s.Some? && s.value != ""
  }

  /** The conditions a query places on a drug besides `isActive: true`;
      `None` leaves the field unconstrained. `text` is the `$text` search,
      `anyField` the four-field pattern of the advanced search. */
  datatype DrugQuery = DrugQuery(
    text: Option<string>,
    category: Option<string>,
    form: Option<string>,
    prescriptionRequired: Option<bool>,
    anyField: Option<string>,
    minStrength: Option<real>,
    maxStrength: Option<real>)

  /** A case-insensitive match of the pattern inside an optional field;
      an absent field never matches. */
  predicate FieldHas(field: Option<string>, pattern: string) {
    field.Some? && Contains(ToLower(field.value), ToLower(pattern))
  }

  /** The `$or` of the advanced search. */
  predicate AnyFieldHas(d: Drug, pattern: string) {
    FieldHas(Some(d.name), pattern) || FieldHas(d.genericName, pattern)
    || FieldHas(d.brand, pattern) || FieldHas(d.description, pattern)
  }

  /** Whether the drug satisfies the query. `textMatch` stands for the
      database's text index. A drug without a strength value fails either
      strength bound. */
  predicate Matches(d: Drug, q: DrugQuery, textMatch: (Drug, string) -> bool) {
    && d.isActive
    && (q.text.Some? ==> textMatch(d, q.text.value))
    && (q.category.Some? ==> CategoryName(d.category) == q.category.value)
    && (q.form.Some? ==> FormName(d.form) == q.form.value)
    && (q.prescriptionRequired.Some? ==> d.prescriptionRequired == q.prescriptionRequired.value)
    && (q.anyField.Some? ==> AnyFieldHas(d, q.anyField.value))
    && (q.minStrength.Some? ==> d.strength.value.Some? && d.strength.value.value >= q.minStrength.value)
    && (q.maxStrength.Some? ==> d.strength.value.Some? && d.strength.value.value <= q.maxStrength.value)
  }

  function MatchesQuery(q: DrugQuery, textMatch: (Drug, string) -> bool): Drug -> bool {
    (d: Drug) => Matches(d, q, textMatch)
  }

  /** The query-string value of `prescriptionRequired`: only 'true' means
      true. */
  function Flag(s: Option<string>): (r: Option<bool>)
    ensures r.Some? <==> s.Some?
    ensures r == Some(true) <==> s == Some("true")
  {
    if s.Some? then Some(s.value == "true") else None
  }

  /** The listing's query: text search, category and form when given,
      the prescription flag when present at all. */
  function ListQuery(search: Option<string>, category: Option<string>, form: Option<string>, prescriptionRequired: Option<string>): (q: DrugQuery)
    ensures forall d: Drug, tm: (Drug, string) -> bool {:trigger Matches(d, q, tm)} :: Matches(d, q, tm) <==>
              && d.isActive
              && (Given(search) ==> tm(d, search.value))
              && (Given(category) ==> CategoryName(d.category) == category.value)
              && (Given(form) ==> FormName(d.form) == form.value)
              && (prescriptionRequired.Some? ==> d.prescriptionRequired == (prescriptionRequired.value == "true"))
  {
    DrugQuery(if Given(search) then search else None,
              if Given(category) then category else None,
              if Given(form) then form else None,
              Flag(prescriptionRequired), None, None, None)
  }

  /** The advanced search's query: the four-field pattern, category and
      form when given, the prescription flag when present, and each
      strength bound given as text, read by `parse`. */
  function AdvancedQuery(query: Option<string>, category: Option<string>, form: Option<string>,
                         minStrength: Option<string>, maxStrength: Option<string>,
                         prescriptionRequired: Option<string>, parse: string -> real): (q: DrugQuery)
    ensures forall d: Drug, tm: (Drug, string) -> bool {:trigger Matches(d, q, tm)} :: Matches(d, q, tm) <==>
              && d.isActive
              && (Given(query) ==> AnyFieldHas(d, query.value))
              && (Given(category) ==> CategoryName(d.category) == category.value)
              && (Given(form) ==> FormName(d.form) == form.value)
              && (prescriptionRequired.Some? ==> d.prescriptionRequired == (prescriptionRequired.value == "true"))
              && (Given(minStrength) ==> d.strength.value.Some? && parse(minStrength.value) <= d.strength.value.value)
              && (Given(maxStrength) ==> d.strength.value.Some? && d.strength.value.value <= parse(maxStrength.value))
  {
    DrugQuery(None,
              if Given(category) then category else None,
              if Given(form) then form else None,
              Flag(prescriptionRequired),
              if Given(query) then query else None,
              if Given(minStrength) then Some(parse(minStrength.value)) else None,
              if Given(maxStrength) then Some(parse(maxStrength.value)) else None)
  }

  /** The drugs that satisfy the query, in catalogue order. */
  function Matching(drugs: seq<Drug>, q: DrugQuery, textMatch: (Drug, string) -> bool): (r: seq<Drug>)
    ensures forall d :: d in r <==> d in drugs && Matches(d, q, textMatch)
    ensures |r| <= |drugs|
  {
    Filter(drugs, MatchesQuery(q, textMatch))
  }

  /** The database's ascending order on names: code point by code point, a
      prefix first. */
  predicate NameLeq(a: string, b: string)
    decreases |a|
  {
    a == [] || (b != [] && (a[0] < b[0] || (a[0] == b[0] && NameLeq(a[1..], b[1..]))))
  }

  lemma {:induction false} NameLeqTotal(a: string, b: string)
    ensures NameLeq(a, b) || NameLeq(b, a)
    decreases |a|
  {
    if a != [] && b != [] && a[0] == b[0] {
      NameLeqTotal(a[1..], b[1..]);
    }
  }

  /** Each name at most the next one. */
  predicate SortedByName(s: seq<Drug>) {
    forall i :: 0 < i < |s| ==> NameLeq(s[i - 1].name, s[i].name)
  }

  /** Places `x` before the first drug whose name is not below its own. */
  function InsertByName(x: Drug, s: seq<Drug>): (r: seq<Drug>)
    requires SortedByName(s)
    ensures SortedByName(r)
    ensures multiset(r) == multiset(s) + multiset{x}
    ensures r != [] && (r[0] == x || (s != [] && r[0] == s[0]))
  {
    if s == [] then [x]
    else if NameLeq(x.name, s[0].name) then [x] + s
    else
      NameLeqTotal(x.name, s[0].name);
      var rest := InsertByName(x, s[1..]);
      assert s == [s[0]] + s[1..];
      [s[0]] + rest
  }

  /** `.sort({ name: 1 })`: the same drugs in ascending name order, equal
      names keeping their catalogue order. */
  function SortByName(s: seq<Drug>): (r: seq<Drug>)
    ensures SortedByName(r)
    ensures multiset(r) == multiset(s)
    ensures |r| == |s|
  {
    if s == [] then []
    else
      assert s == [s[0]] + s[1..];
      InsertByName(s[0], SortByName(s[1..]))
  }

  function Abs(n: int): nat {
    if n < 0 then -n else n
  }

  /** `.skip(skip).limit(limit)`: a limit of zero means none, a negative
      limit returns at most its magnitude. */
  function Window(s: seq<Drug>, skip: nat, limit: int): (r: seq<Drug>)
    ensures limit != 0 ==> |r| <= Abs(limit)
    ensures skip <= |s| ==> skip + |r| <= |s| && r == s[skip..skip + |r|]
    ensures skip >= |s| ==> r == []
    ensures limit == 0 ==> |r| == if skip <= |s| then |s| - skip else 0
    ensures limit != 0 && skip + Abs(limit) <= |s| ==> |r| == Abs(limit)
  {
    var rest := if skip <= |s| then s[skip..] else [];
    if limit == 0 || |rest| <= Abs(limit) then rest else rest[..Abs(limit)]
  }

  /** `Math.ceil(total / limit)` as JSON renders it: no number when the
      limit is zero. */
  function TotalPages(total: nat, limit: int): Option<int> {
    if limit == 0 then None
    else if limit > 0 then Some((total + limit - 1) / limit)
    else Some(-(total / -limit))
  }

  /** With a positive limit the page count is the least number of pages
      that holds every match. */
  lemma {:induction false} TotalPagesIsCeiling(total: nat, limit: int)
    requires limit > 0
    ensures TotalPages(total, limit).Some?
    ensures TotalPages(total, limit).value * limit >= total
    ensures (TotalPages(total, limit).value - 1) * limit < total || total == 0
    ensures total == 0 ==> TotalPages(total, limit).value == 0
  {
    var n := total + limit - 1;
    var t := n / limit;
    assert n == t * limit + n % limit;
    assert 0 <= n % limit < limit;
  }

  /** A page of the listing. */
  datatype ListReply = ListReply(drugs: seq<Drug>, totalPages: Option<int>, currentPage: int, total: nat)

  lemma MultiplyMonotone(a: int, b: int, c: nat)
    requires a <= b
    ensures a * c <= b * c
  {
  }

  lemma MultiplyCancel(a: int, b: int, c: nat)
    ensures a * c < b * c ==> a < b
  {
    if b <= a {
      MultiplyMonotone(b, a, c);
    }
  }

  /** Position `k` splits into a whole number of pages and a remainder. */
  lemma {:induction false} PageOf(k: nat, limit: int, total: nat)
    requires limit > 0 && k < total
    ensures 0 <= (k / limit) * limit && 0 <= k % limit < limit
    ensures (k / limit) * limit + k % limit == k
    ensures 1 <= k / limit + 1 <= TotalPages(total, limit).value
  {
    var q, rem := k / limit, k % limit;
    assert q * limit + rem == k && 0 <= rem < limit;
    MultiplyMonotone(0, q, limit);
    TotalPagesIsCeiling(total, limit);
    var tp := TotalPages(total, limit).value;
    MultiplyCancel(q, tp, limit);
  }

  /** The element at offset `rem` of the window starting at `skip`. */
  lemma {:induction false} WindowAt(s: seq<Drug>, skip: nat, limit: int, rem: nat)
    requires limit > 0 && rem < limit && skip + rem < |s|
    ensures rem < |Window(s, skip, limit)| && Window(s, skip, limit)[rem] == s[skip + rem]
  {
  }

  /** Every match lands on the page its position in the sorted matches
      names, and that page is within the page count. */
  lemma {:induction false} EveryMatchOnItsPage(sorted: seq<Drug>, limit: int, k: nat)
    requires limit > 0 && k < |sorted|
    ensures var page := k / limit + 1;
            var w := Window(sorted, (page - 1) * limit, limit);
            k % limit < |w| && w[k % limit] == sorted[k]
            && 1 <= page <= TotalPages(|sorted|, limit).value
  {
    PageOf(k, limit, |sorted|);
    WindowAt(sorted, (k / limit) * limit, limit, k % limit);
    assert (k / limit + 1 - 1) * limit == (k / limit) * limit;
  }

  class DrugCatalog {
    var drugs: seq<Drug>

    ghost predicate Valid()
      reads this
    {
      forall i :: 0 <= i < |drugs| ==> DrugValid(drugs[i])
    }

    constructor ()
      ensures Valid() && drugs == []
    {
      drugs := [];
    }
  }

  /** `(page - 1) * limit`, the number of matches before the page. */
  function SkipFor(page: int, limit: int): int {
    (page - 1) * limit
  }

  /** GET `/`: the query, then the sorted page and the count of all
      matches. An omitted page is 1 and an omitted limit 20; a negative
      skip is refused by the database. */
  method ListDrugs(catalog: DrugCatalog, page: Option<int>, limit: Option<int>, search: Option<string>,
                   category: Option<string>, form: Option<string>, prescriptionRequired: Option<string>,
                   textMatch: (Drug, string) -> bool)
    returns (r: Result<ListReply, RouteError>)
    ensures var pageNumber, size := page.GetOr(1), limit.GetOr(20);
            var matching := Matching(catalog.drugs, ListQuery(search, category, form, prescriptionRequired), textMatch);
            && (SkipFor(pageNumber, size) < 0 ==> r == Err(ServerError))
            && (SkipFor(pageNumber, size) >= 0 ==>
                  r == Ok(ListReply(Window(SortByName(matching), SkipFor(pageNumber, size), size),
                                    TotalPages(|matching|, size), pageNumber, |matching|)))
    ensures r.Ok? && limit.None? ==> |r.value.drugs| <= 20
    ensures r.Ok? && limit.Some? && limit.value != 0 ==> |r.value.drugs| <= Abs(limit.value)
    ensures r.Ok? ==> SortedByName(r.value.drugs)
    ensures r.Ok? ==> forall d :: d in r.value.drugs ==> d in catalog.drugs && d.isActive
  {
    var pageNumber := page.GetOr(1);
    var size := limit.GetOr(20);
    var skip := SkipFor(pageNumber, size);
    if skip < 0 {
      return Err(ServerError);
    }
    var q := ListQuery(search, category, form, prescriptionRequired);
    var matching := Matching(catalog.drugs, q, textMatch);
    var sorted := SortByName(matching);
    var shown := Window(sorted, skip, size);
    WindowKeepsOrderAndMembers(sorted, skip, size);
    forall d | d in shown
      ensures d in catalog.drugs && d.isActive
    {
      assert d in multiset(sorted);
    }
    r := Ok(ListReply(shown, TotalPages(|matching|, size), pageNumber, |matching|));
  }

  /** A window of a sorted sequence is sorted and holds only its elements. */
  lemma {:induction false} WindowKeepsOrderAndMembers(s: seq<Drug>, skip: nat, limit: int)
    requires SortedByName(s)
    ensures SortedByName(Window(s, skip, limit))
    ensures forall d :: d in Window(s, skip, limit) ==> d in s
  {
    var w := Window(s, skip, limit);
    if skip <= |s| {
      assert forall i :: 0 <= i < |w| ==> w[i] == s[skip + i];
    }
  }

  /** GET `/:id`: a missing or deactivated drug is not found. */
  method GetById(catalog: DrugCatalog, id: DrugId) returns (r: Result<Drug, RouteError>)
    ensures r.Ok? <==> id < |catalog.drugs| && catalog.drugs[id].isActive
    ensures r.Ok? ==> r.value == catalog.drugs[id]
    ensures r.Err? ==> r.error == NotFound
  {
    if id >= |catalog.drugs| || !catalog.drugs[id].isActive {
      return Err(NotFound);
    }
    r := Ok(catalog.drugs[id]);
  }

  /** POST `/`: administrators only; the body must pass the validators. */
  method Create(catalog: DrugCatalog, caller: Caller, input: DrugInput) returns (r: Result<DrugId, RouteError>)
    requires catalog.Valid()
    modifies catalog
    ensures catalog.Valid()
    ensures caller.role != Admin ==> r == Err(Forbidden) && catalog.drugs == old(catalog.drugs)
    ensures caller.role == Admin && NewDrug(input).Err? ==>
              r == Err(Invalid(NewDrug(input).error)) && catalog.drugs == old(catalog.drugs)
    ensures caller.role == Admin && NewDrug(input).Ok? ==>
              r == Ok(|old(catalog.drugs)|) && catalog.drugs == old(catalog.drugs) + [NewDrug(input).value]
  {
    if caller.role != Admin {
      return Err(Forbidden);
    }
    var made := NewDrug(input);
    if made.Err? {
      return Err(Invalid(made.error));
    }
    var d := made.value;
    var before := catalog.drugs;
    catalog.drugs := before + [d];
    forall i | 0 <= i < |catalog.drugs|
      ensures DrugValid(catalog.drugs[i])
    {
      if i < |before| {
        assert catalog.drugs[i] == before[i];
      }
    }
    r := Ok(|before|);
  }

  /** PUT `/:id`: administrators only; the update validators run before the
      lookup, then the supplied fields are written. */
  method Update(catalog: DrugCatalog, caller: Caller, id: DrugId, input: DrugInput) returns (r: Result<Drug, RouteError>)
    requires catalog.Valid()
    modifies catalog
    ensures catalog.Valid()
    ensures caller.role != Admin ==> r == Err(Forbidden) && catalog.drugs == old(catalog.drugs)
    ensures caller.role == Admin && UpdateViolations(Setters(input)) != {} ==>
              r == Err(Invalid(UpdateViolations(Setters(input)))) && catalog.drugs == old(catalog.drugs)
    ensures caller.role == Admin && UpdateViolations(Setters(input)) == {} && id >= |old(catalog.drugs)| ==>
              r == Err(NotFound) && catalog.drugs == old(catalog.drugs)
    ensures caller.role == Admin && UpdateViolations(Setters(input)) == {} && id < |old(catalog.drugs)| ==>
              var d := Patched(old(catalog.drugs)[id], Setters(input));
              r == Ok(d) && catalog.drugs == old(catalog.drugs)[id := d]
  {
    if caller.role != Admin {
      return Err(Forbidden);
    }
    var c := Setters(input);
    var refused := UpdateViolations(c);
    if refused != {} {
      return Err(Invalid(refused));
    }
    if id >= |catalog.drugs| {
      return Err(NotFound);
    }
    var d := Patched(catalog.drugs[id], c);
    PatchKeepsValid(catalog.drugs[id], c);
    catalog.drugs := catalog.drugs[id := d];
    r := Ok(d);
  }

  /** DELETE `/:id`: administrators only; the drug stays in the catalogue,
      deactivated, whatever its previous state. */
  method Delete(catalog: DrugCatalog, caller: Caller, id: DrugId) returns (r: Result<(), RouteError>)
    requires catalog.Valid()
    modifies catalog
    ensures catalog.Valid()
    ensures caller.role != Admin ==> r == Err(Forbidden) && catalog.drugs == old(catalog.drugs)
    ensures caller.role == Admin && id >= |old(catalog.drugs)| ==> r == Err(NotFound) && catalog.drugs == old(catalog.drugs)
    ensures caller.role == Admin && id < |old(catalog.drugs)| ==>
              r == Ok(()) && catalog.drugs == old(catalog.drugs)[id := old(catalog.drugs)[id].(isActive := false)]
  {
    if caller.role != Admin {
      return Err(Forbidden);
    }
    if id >= |catalog.drugs| {
      return Err(NotFound);
    }
    catalog.drugs := catalog.drugs[id := catalog.drugs[id].(isActive := false)];
    r := Ok(());
  }

  /** After a delete the drug is neither listed nor found, and the
      catalogue keeps its size. */
  lemma {:induction false} DeletedDrugIsHidden(drugs: seq<Drug>, id: DrugId, q: DrugQuery, textMatch: (Drug, string) -> bool)
    requires id < |drugs|
    ensures var after := drugs[id := drugs[id].(isActive := false)];
            |after| == |drugs| && !after[id].isActive && !Matches(after[id], q, textMatch)
            && forall d :: d in Matching(after, q, textMatch) ==> d.isActive
  {
  }

  const AdvancedSearchCap := 50

  /** GET `/search/advanced`: the matches in name order, at most fifty. */
  method AdvancedSearch(catalog: DrugCatalog, query: Option<string>, category: Option<string>, form: Option<string>,
                        minStrength: Option<string>, maxStrength: Option<string>, prescriptionRequired: Option<string>,
                        parse: string -> real, textMatch: (Drug, string) -> bool)
    returns (r: seq<Drug>)
    ensures var q := AdvancedQuery(query, category, form, minStrength, maxStrength, prescriptionRequired, parse);
            r == Window(SortByName(Matching(catalog.drugs, q, textMatch)), 0, AdvancedSearchCap)
    ensures |r| <= AdvancedSearchCap && SortedByName(r)
    ensures forall d :: d in r ==> d in catalog.drugs && d.isActive
  {
    var q := AdvancedQuery(query, category, form, minStrength, maxStrength, prescriptionRequired, parse);
    var sorted := SortByName(Matching(catalog.drugs, q, textMatch));
    r := Window(sorted, 0, AdvancedSearchCap);
    WindowKeepsOrderAndMembers(sorted, 0, AdvancedSearchCap);
    forall d | d in r
      ensures d in catalog.drugs && d.isActive
    {
      assert d in multiset(sorted);
    }
  }

  /** With fewer than fifty matches the advanced search returns all of
      them. */
  lemma {:induction false} SmallResultIsComplete(drugs: seq<Drug>, q: DrugQuery, textMatch: (Drug, string) -> bool)
    requires |Matching(drugs, q, textMatch)| <= AdvancedSearchCap
    ensures multiset(Window(SortByName(Matching(drugs, q, textMatch)), 0, AdvancedSearchCap)) == multiset(Matching(drugs, q, textMatch))
  {
    var s := SortByName(Matching(drugs, q, textMatch));
    assert Window(s, 0, AdvancedSearchCap) == s[0..|s|];
    assert s[0..|s|] == s;
  }
}
