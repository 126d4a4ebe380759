/** The drug database manager of
    frontend/src/components/Pharmacist/DrugClassManager.jsx: the category
    tabs with their labels and counts, and the add-drug form of its
    `AddDrugModal` (defaults, the strength inputs, the payload sent on
    submission and the reset after a successful add). */
module DrugClassManager {
  import opened Common
  import opened DrugModel

  /** `category.charAt(0).toUpperCase() + category.slice(1)`. */
  function CategoryDisplayName(category: string): (r: string)
    ensures |r| == |category|
    ensures category != [] ==> r[0] == UpperChar(category[0]) && r[1..] == category[1..]
  {
    if category == [] then [] else [UpperChar(category[0])] + category[1..]
  }

  /** A text no character of which `toLowerCase` changes. */
  predicate IsLowerCase(s: string) {
    forall ch :: ch in s ==> LowerChar(ch) == ch
  }

  lemma {:induction false} LowerOfUpperLetter(c: char)
    requires LowerChar(c) == c
    ensures LowerChar(UpperChar(c)) == c
  {
  }

  /** Lower-casing a label gives back a lower-case category text, so
      distinct categories get distinct labels. */
  lemma {:induction false} DisplayNameRecoversCategory(category: string)
    requires IsLowerCase(category)
    ensures ToLower(CategoryDisplayName(category)) == category
  {
    var r := CategoryDisplayName(category);
    if category != [] {
      LowerOfUpperLetter(category[0]);
      forall i | 0 <= i < |category|
        ensures ToLower(r)[i] == category[i]
      {
        if i > 0 {
          assert r[i] == r[1..][i - 1] == category[i];
        }
      }
    }
  }

  /** The tab list, in the order the tabs appear. */
  const Tabs: seq<string> := [
    "antibiotics", "analgesics", "antipyretics", "antidepressants",
    "antihypertensives", "diabetes", "cardiology", "respiratory",
    "gastrointestinal", "dermatology", "vitamins", "supplements",
    "first-aid", "contraceptives", "other"]

  /** Distinct categories have distinct stored names. */
  lemma {:induction false} CategoryNameInjective(a: Category, b: Category)
    ensures CategoryName(a) == CategoryName(b) ==> a == b
  {
    var x := ParseCategory(CategoryName(a));
    var y := ParseCategory(CategoryName(b));
  }

  /** The tabs are exactly the category enum the drug schema accepts, in
      the schema's order. */
  lemma TabsAreTheCategoryEnum()
    ensures |Tabs| == |Categories|
    ensures forall i :: 0 <= i < |Tabs| ==> Tabs[i] == CategoryName(Categories[i])
  {
  }

  /** A text is a tab exactly when the category validator accepts it. */
  lemma {:induction false} TabIffValidCategory(s: string)
    ensures s in Tabs <==> ParseCategory(s).Some?
  {
    TabsAreTheCategoryEnum();
    if s in Tabs {
      var i :| 0 <= i < |Tabs| && Tabs[i] == s;
      var c := ParseCategory(CategoryName(Categories[i]));
    }
    if ParseCategory(s).Some? {
      var c := ParseCategory(s).value;
      CategoriesListed();
      assert c in Categories;
      var i :| 0 <= i < |Categories| && Categories[i] == c;
      assert Tabs[i] == s;
    }
  }

  /** No two tabs are the same category. */
  lemma {:induction false} TabsDistinct(i: nat, j: nat)
    requires i < |Tabs| && j < |Tabs| && i != j
    ensures Tabs[i] != Tabs[j]
  {
    TabsAreTheCategoryEnum();
    CategoriesListed();
    CategoryNameInjective(Categories[i], Categories[j]);
  }

  /** Every stored category name is lower case. */
  lemma CategoryNameLowerCase(c: Category)
    ensures IsLowerCase(CategoryName(c))
  {
  }

  /** Every tab name is lower case, so upper-casing its first letter for the
      label loses nothing. */
  lemma {:induction false} TabsAreLowerCase()
    ensures forall k :: 0 <= k < |Tabs| ==> IsLowerCase(Tabs[k])
  {
    TabsAreTheCategoryEnum();
    forall k | 0 <= k < |Tabs|
      ensures IsLowerCase(Tabs[k])
    {
      CategoryNameLowerCase(Categories[k]);
    }
  }

  /** Different tabs carry different labels. */
  lemma {:induction false} TabLabelsDistinct(i: nat, j: nat)
    requires i < |Tabs| && j < |Tabs| && i != j
    ensures CategoryDisplayName(Tabs[i]) != CategoryDisplayName(Tabs[j])
  {
    TabsDistinct(i, j);
    TabsAreLowerCase();
    DisplayNameRecoversCategory(Tabs[i]);
    DisplayNameRecoversCategory(Tabs[j]);
  }

  function InTab(tab: string): Drug -> bool {
    (d: Drug) => CategoryName(d.category) == tab
  }

  /** The category names of the loaded drugs, in loading order. */
  function CategoryNames(drugs: seq<Drug>): (names: seq<string>)
    ensures |names| == |drugs|
    ensures forall i :: 0 <= i < |drugs| ==> names[i] == CategoryName(drugs[i].category)
  {
    seq(|drugs|, i requires 0 <= i < |drugs| => CategoryName(drugs[i].category))
  }

  lemma FilterTabStep(d: Drug, rest: seq<Drug>, tab: string)
    ensures |Filter([d] + rest, InTab(tab))| == (if CategoryName(d.category) == tab then 1 else 0) + |Filter(rest, InTab(tab))|
  {
    FilterCons(d, rest, InTab(tab));
  }

  lemma NamesStep(d: Drug, rest: seq<Drug>, tab: string)
    ensures multiset(CategoryNames([d] + rest))[tab] == (if CategoryName(d.category) == tab then 1 else 0) + multiset(CategoryNames(rest))[tab]
  {
    assert CategoryNames([d] + rest) == [CategoryName(d.category)] + CategoryNames(rest);
  }

  /** Filtering by a tab keeps one drug per occurrence of the tab's name
      among the drugs' category names. */
  lemma {:induction false} FilterCountsCategory(drugs: seq<Drug>, tab: string)
    ensures |Filter(drugs, InTab(tab))| == multiset(CategoryNames(drugs))[tab]
    decreases |drugs|
  {
    if drugs != [] {
      var d, rest := drugs[0], drugs[1..];
      assert drugs == [d] + rest;
      FilterTabStep(d, rest, tab);
      NamesStep(d, rest, tab);
      FilterCountsCategory(rest, tab);
    }
  }

  /** The count next to a tab: how many loaded drugs have that category. */
  function TabCount(drugs: seq<Drug>, tab: string): (n: nat)
    ensures n == multiset(CategoryNames(drugs))[tab]
    ensures n <= |drugs|
  {
    FilterCountsCategory(drugs, tab);
    |Filter(drugs, InTab(tab))|
  }

  /** The sum of the counts of the given tabs. */
  function CountAll(drugs: seq<Drug>, tabs: seq<string>): nat
    decreases |tabs|
  {
    if tabs == [] then 0 else TabCount(drugs, tabs[0]) + CountAll(drugs, tabs[1..])
  }

  /** One more drug adds one to the count of its own tab and nothing to
      the others. */
  lemma {:induction false} CountAllStep(d: Drug, rest: seq<Drug>, tabs: seq<string>)
    ensures CountAll([d] + rest, tabs) == CountAll(rest, tabs) + multiset(tabs)[CategoryName(d.category)]
    decreases |tabs|
  {
    if tabs != [] {
      assert ([d] + rest)[1..] == rest;
      CountAllStep(d, rest, tabs[1..]);
      assert tabs == [tabs[0]] + tabs[1..];
    }
  }

  lemma {:induction false} CountAllEmpty(tabs: seq<string>)
    ensures CountAll([], tabs) == 0
    decreases |tabs|
  {
    if tabs != [] {
      CountAllEmpty(tabs[1..]);
    }
  }

  /** Over all the tabs, every loaded drug is counted exactly once. */
  lemma {:induction false} TabCountsPartitionDrugs(drugs: seq<Drug>)
    ensures CountAll(drugs, Tabs) == |drugs|
    decreases |drugs|
  {
    if drugs == [] {
      CountAllEmpty(Tabs);
    } else {
      var d := drugs[0];
      assert drugs == [d] + drugs[1..];
      CountAllStep(d, drugs[1..], Tabs);
      TabCountsPartitionDrugs(drugs[1..]);
      OwnTabOnce(d.category);
    }
  }

  /** Each category's name is among the tabs exactly once. */
  lemma {:induction false} OwnTabOnce(c: Category)
    ensures multiset(Tabs)[CategoryName(c)] == 1
  {
    TabsAreTheCategoryEnum();
    CategoriesListed();
    assert c in Categories;
    var i :| 0 <= i < |Categories| && Categories[i] == c;
    forall j | 0 <= j < |Tabs| && j != i
      ensures Tabs[j] != Tabs[i]
    {
      TabsDistinct(i, j);
    }
    OccursOnceIfDistinct(Tabs, i);
  }

  lemma {:induction false} OccursOnceIfDistinct(s: seq<string>, i: nat)
    requires i < |s|
    requires forall j :: 0 <= j < |s| && j != i ==> s[j] != s[i]
    ensures multiset(s)[s[i]] == 1
    decreases |s|
  {
    var x := s[i];
    assert s == [s[0]] + s[1..];
    if i == 0 {
      assert x !in s[1..];
    } else {
      OccursOnceIfDistinct(s[1..], i - 1);
    }
  }

  /** A value of the form state, as JavaScript holds it. */
  datatype JsValue = Undefined | Null | Str(s: string) | Num(n: real) | Bool(b: bool)
                   | Arr(items: seq<JsValue>) | Obj(fields: map<string, JsValue>)

  /** JavaScript truthiness. */
  predicate Truthy(v: JsValue) {
    match v
    case Undefined => false
    case Null => false
    case Str(s) => s != ""
    case Num(n) => n != 0.0
    case Bool(b) => b
    case _ => true
  }

  type FormData = map<string, JsValue>

  /** The form's initial state: empty texts, the category of the open tab,
      tablets, an empty strength, no prescription, no side effects. */
  function DefaultForm(initialCategory: string): (f: FormData)
    ensures f.Keys == {"name", "genericName", "brand", "description", "category", "form", "strength",
                       "prescriptionRequired", "manufacturer", "barcode", "dosageInstructions", "sideEffects"}
    ensures f["category"] == Str(initialCategory) && f["form"] == Str("tablet")
    ensures f["prescriptionRequired"] == Bool(false) && f["sideEffects"] == Arr([])
    ensures f["strength"] == Obj(map["value" := Str(""), "unit" := Str("")])
    ensures forall k :: k in {"name", "genericName", "brand", "description", "manufacturer", "barcode", "dosageInstructions"} ==> f[k] == Str("")
  {
    map["name" := Str(""), "genericName" := Str(""), "brand" := Str(""), "description" := Str(""),
        "category" := Str(initialCategory), "form" := Str("tablet"),
        "strength" := Obj(map["value" := Str(""), "unit" := Str("")]),
        "prescriptionRequired" := Bool(false), "manufacturer" := Str(""), "barcode" := Str(""),
        "dosageInstructions" := Str(""), "sideEffects" := Arr([])]
  }

  /** The strength object of the form, `{}` when it holds none. */
  function StrengthOf(form: FormData): map<string, JsValue> {
    if "strength" in form && form["strength"].Obj? then form["strength"].fields else map[]
  }

  /** `handleStrengthChange`: the value input stores `parseFloat(value) ||
      ''`, where `parse` stands for `parseFloat` with `None` for NaN; the
      unit input stores its text. The other strength field and the rest of
      the form stay. */
  function HandleStrengthChange(form: FormData, field: string, value: string, parse: string -> Option<real>): (next: FormData)
    ensures next.Keys == form.Keys + {"strength"}
    ensures forall k :: k in form && k != "strength" ==> next[k] == form[k]
    ensures next["strength"].Obj? && next["strength"].fields.Keys == StrengthOf(form).Keys + {field}
    ensures field == "value" && parse(value).Some? && parse(value).value != 0.0 ==>
              next["strength"].fields[field] == Num(parse(value).value)
    ensures field == "value" && !(parse(value).Some? && parse(value).value != 0.0) ==>
              next["strength"].fields[field] == Str("")
    ensures field != "value" ==> next["strength"].fields[field] == Str(value)
    ensures forall k :: k in StrengthOf(form) && k != field ==> next["strength"].fields[k] == StrengthOf(form)[k]
  {
    var parsed := parse(value);
    var stored := if field == "value" then (if parsed.Some? && parsed.value != 0.0 then Num(parsed.value) else Str("")) else Str(value);
    form["strength" := Obj(StrengthOf(form)[field := stored])]
  }

  /** Whether the strength is sent: its value field is truthy. */
  predicate StrengthGiven(form: FormData) {
    "value" in StrengthOf(form) && Truthy(StrengthOf(form)["value"])
  }

  /** The spread of the form with `strength` replaced by `undefined` when
      its value is falsy. */
  function Prepared(form: FormData): (data: FormData)
    ensures data.Keys == form.Keys + {"strength"}
    ensures forall k :: k in form && k != "strength" ==> data[k] == form[k]
    ensures StrengthGiven(form) ==> data["strength"] == form["strength"]
    ensures !StrengthGiven(form) ==> data["strength"] == Undefined
  {
    form["strength" := if StrengthGiven(form) then form["strength"] else Undefined]
  }

  /** The values the cleaning loop removes. */
  predicate Blank(v: JsValue) {
    v == Str("") || v == Null || v == Undefined
  }

  /** The cleaning loop: each key whose value is '', null or undefined is
      deleted from the payload; all other keys and values stay. */
  method RemoveEmptyFields(data: FormData) returns (payload: FormData)
    ensures forall k :: k in payload <==> k in data && !Blank(data[k])
    ensures forall k :: k in payload ==> payload[k] == data[k]
  {
    payload := data;
    var remaining := data.Keys;
    while remaining != {}
      invariant remaining <= data.Keys
      invariant forall k :: k in payload <==> k in data && (k in remaining || !Blank(data[k]))
      invariant forall k :: k in payload ==> payload[k] == data[k]
      decreases |remaining|
    {
      var k :| k in remaining;
      if Blank(payload[k]) {
        payload := payload - {k};
      }
      remaining := remaining - {k};
    }
  }

  /** The payload `handleSubmit` posts. */
  method SubmissionPayload(form: FormData) returns (payload: FormData)
    ensures "strength" in payload <==> StrengthGiven(form)
    ensures StrengthGiven(form) ==> payload["strength"] == form["strength"]
    ensures forall k :: k != "strength" ==> (k in payload <==> k in form && !Blank(form[k]))
    ensures forall k :: k in payload && k != "strength" ==> payload[k] == form[k]
    ensures forall k :: k in payload ==> !Blank(payload[k])
  {
    payload := RemoveEmptyFields(Prepared(form));
  }

  /** The defaults keep `false` and the empty side-effect list but send no
      empty text and no strength: only category, form, the prescription
      flag and the side effects remain. */
  lemma DefaultPayloadFields(initialCategory: string, payload: FormData)
    requires forall k :: k != "strength" ==>
               (k in payload <==> k in DefaultForm(initialCategory) && !Blank(DefaultForm(initialCategory)[k]))
    requires "strength" in payload <==> StrengthGiven(DefaultForm(initialCategory))
    ensures "strength" !in payload && "name" !in payload && "prescriptionRequired" in payload && "sideEffects" in payload
    ensures initialCategory != "" <==> "category" in payload
  {
    var f := DefaultForm(initialCategory);
    assert StrengthOf(f)["value"] == Str("");
  }

  /** The form written back after a successful add. */
  function ResetForm(initialCategory: string): (f: FormData)
    ensures f == DefaultForm(initialCategory)
  {
    map["name" := Str(""), "genericName" := Str(""), "brand" := Str(""), "description" := Str(""),
        "category" := Str(initialCategory), "form" := Str("tablet"),
        "strength" := Obj(map["value" := Str(""), "unit" := Str("")]),
        "prescriptionRequired" := Bool(false), "manufacturer" := Str(""), "barcode" := Str(""),
        "dosageInstructions" := Str(""), "sideEffects" := Arr([])]
  }
}
