/** The drug document of backend/models/Drug.js: its two enums, the
    length limits, the trimming setters and the defaults. */
module DrugModel {
  import opened Common

  datatype Category =
    | Antibiotics | Analgesics | Antipyretics | Antidepressants
    | Antihypertensives | Diabetes | Cardiology | Respiratory
    | Gastrointestinal | Dermatology | Vitamins | Supplements
    | FirstAid | Contraceptives | OtherCategory

  /** The stored spelling of a category. */
  function CategoryName(c: Category): string {
    match c
    case Antibiotics => "antibiotics"
    case Analgesics => "analgesics"
    case Antipyretics => "antipyretics"
    case Antidepressants => "antidepressants"
    case Antihypertensives => "antihypertensives"
    case Diabetes => "diabetes"
    case Cardiology => "cardiology"
    case Respiratory => "respiratory"
    case Gastrointestinal => "gastrointestinal"
    case Dermatology => "dermatology"
    case Vitamins => "vitamins"
    case Supplements => "supplements"
    case FirstAid => "first-aid"
    case Contraceptives => "contraceptives"
    case OtherCategory => "other"
  }

  /** The category enum validator. */
  function ParseCategory(name: string): (c: Option<Category>)
    ensures c.Some? ==> CategoryName(c.value) == name
    ensures forall t: Category :: name == CategoryName(t) ==> c == Some(t)
  {
    if name == "antibiotics" then Some(Antibiotics)
    else if name == "analgesics" then Some(Analgesics)
    else if name == "antipyretics" then Some(Antipyretics)
    else if name == "antidepressants" then Some(Antidepressants)
    else if name == "antihypertensives" then Some(Antihypertensives)
    else if name == "diabetes" then Some(Diabetes)
    else if name == "cardiology" then Some(Cardiology)
    else if name == "respiratory" then Some(Respiratory)
    else if name == "gastrointestinal" then Some(Gastrointestinal)
    else if name == "dermatology" then Some(Dermatology)
    else if name == "vitamins" then Some(Vitamins)
    else if name == "supplements" then Some(Supplements)
    else if name == "first-aid" then Some(FirstAid)
    else if name == "contraceptives" then Some(Contraceptives)
    else if name == "other" then Some(OtherCategory)
    else None
  }

  /** The enum in the order the schema lists it. */
  const Categories: seq<Category> := [
    Antibiotics, Analgesics, Antipyretics, Antidepressants,
    Antihypertensives, Diabetes, Cardiology, Respiratory,
    Gastrointestinal, Dermatology, Vitamins, Supplements,
    FirstAid, Contraceptives, OtherCategory]

  /** The listed enum holds every category once. */
  lemma CategoriesListed()
    ensures |Categories| == 15
    ensures forall c: Category :: c in Categories
    ensures forall i, j :: 0 <= i < j < |Categories| ==> Categories[i] != Categories[j]
  {
    forall c: Category
      ensures c in Categories
    {
      match c
      case Antibiotics => assert Categories[0] == c;
      case Analgesics => assert Categories[1] == c;
      case Antipyretics => assert Categories[2] == c;
      case Antidepressants => assert Categories[3] == c;
      case Antihypertensives => assert Categories[4] == c;
      case Diabetes => assert Categories[5] == c;
      case Cardiology => assert Categories[6] == c;
      case Respiratory => assert Categories[7] == c;
      case Gastrointestinal => assert Categories[8] == c;
      case Dermatology => assert Categories[9] == c;
      case Vitamins => assert Categories[10] == c;
      case Supplements => assert Categories[11] == c;
      case FirstAid => assert Categories[12] == c;
      case Contraceptives => assert Categories[13] == c;
      case OtherCategory => assert Categories[14] == c;
    }
  }

  datatype Form = Tablet | Capsule | Syrup | Injection | Ointment | Cream | Drops | Inhaler | OtherForm

  function FormName(f: Form): string {
    match f
    case Tablet => "tablet"
    case Capsule => "capsule"
    case Syrup => "syrup"
    case Injection => "injection"
    case Ointment => "ointment"
    case Cream => "cream"
    case Drops => "drops"
    case Inhaler => "inhaler"
    case OtherForm => "other"
  }

  /** The form enum validator. */
  function ParseForm(name: string): (f: Option<Form>)
    ensures f.Some? ==> FormName(f.value) == name
    ensures forall t: Form :: name == FormName(t) ==> f == Some(t)
  {
    if name == "tablet" then Some(Tablet)
    else if name == "capsule" then Some(Capsule)
    else if name == "syrup" then Some(Syrup)
    else if name == "injection" then Some(Injection)
    else if name == "ointment" then Some(Ointment)
    else if name == "cream" then Some(Cream)
    else if name == "drops" then Some(Drops)
    else if name == "inhaler" then Some(Inhaler)
    else if name == "other" then Some(OtherForm)
    else None
  }

  /** The optional strength: a number and a unit, either of which may be
      absent. */
  datatype Strength = Strength(value: Option<real>, unit: Option<string>)

  const NoStrength := Strength(None, None)

  const MaxNameLength := 100
  const MaxGenericNameLength := 100
  const MaxBrandLength := 50
  const MaxDescriptionLength := 500

  datatype Drug = Drug(
    name: string,
    genericName: Option<string>,
    brand: Option<string>,
    description: Option<string>,
    category: Category,
    form: Form,
    strength: Strength,
    prescriptionRequired: bool,
    isActive: bool)

  /** Length of an optional text field in UTF-16 code units (what
      `maxlength` measures), absent counting as empty. */
  function OptLength(s: Option<string>): nat {
    if s.Some? then Utf16Length(s.value) else 0
  }

  /** What the validators accept of a stored drug. */
  predicate DrugValid(d: Drug) {
    && d.name != "" && Utf16Length(d.name) <= MaxNameLength
    && OptLength(d.genericName) <= MaxGenericNameLength
    && OptLength(d.brand) <= MaxBrandLength
    && OptLength(d.description) <= MaxDescriptionLength
  }

  /** A request body for a drug; `None` is an omitted field. Category and
      form arrive as text and go through the enum validators. */
  datatype DrugInput = DrugInput(
    name: Option<string>,
    genericName: Option<string>,
    brand: Option<string>,
    description: Option<string>,
    category: Option<string>,
    form: Option<string>,
    strength: Option<Strength>,
    prescriptionRequired: Option<bool>,
    isActive: Option<bool>)

  /** The `trim: true` setter of an optional field. */
  function TrimmedOpt(s: Option<string>): (r: Option<string>)
    ensures r.Some? <==> s.Some?
    ensures r.Some? ==> |r.value| <= |s.value|
  {
    if s.Some? then Some(Trim(s.value)) else None
  }

  /** The body after the schema's setters: name, generic name and brand
      trimmed, everything else as sent. */
  function Setters(input: DrugInput): (c: DrugInput)
    ensures c.(name := input.name, genericName := input.genericName, brand := input.brand) == input
    ensures c.name == TrimmedOpt(input.name) && c.genericName == TrimmedOpt(input.genericName)
    ensures c.brand == TrimmedOpt(input.brand)
  {
    input.(name := TrimmedOpt(input.name), genericName := TrimmedOpt(input.genericName), brand := TrimmedOpt(input.brand))
  }

  /** A schema path a validator reports. */
  datatype Path = NamePath | GenericNamePath | BrandPath | DescriptionPath | CategoryPath | FormPath

  /** Whether the validators of one path accept a body whose setters have
      run: name required (an empty string fails) and at most 100
      UTF-16 code units; generic name, brand and description within their limits;
      category and form required and inside their enums. */
  predicate Accepts(c: DrugInput, p: Path) {
    match p
    case NamePath => c.name.Some? && c.name.value != "" && Utf16Length(c.name.value) <= MaxNameLength
    case GenericNamePath => OptLength(c.genericName) <= MaxGenericNameLength
    case BrandPath => OptLength(c.brand) <= MaxBrandLength
    case DescriptionPath => OptLength(c.description) <= MaxDescriptionLength
    case CategoryPath => c.category.Some? && ParseCategory(c.category.value).Some?
    case FormPath => c.form.Some? && ParseForm(c.form.value).Some?
  }

  /** The schema paths in declaration order. */
  const AllPaths := [NamePath, GenericNamePath, BrandPath, DescriptionPath, CategoryPath, FormPath]

  /** The failing paths. */
  function Violations(c: DrugInput): set<Path> {
    set p | p in AllPaths && !Accepts(c, p)
  }

  /** A path is reported exactly when its validators refuse the body. */
  lemma {:induction false} ViolationsAreRefusedPaths(c: DrugInput)
    ensures forall p :: p in Violations(c) <==> !Accepts(c, p)
  {
    forall p
      ensures p in AllPaths
    {
      match p
      case NamePath =>
      case GenericNamePath =>
      case BrandPath =>
      case DescriptionPath =>
      case CategoryPath =>
      case FormPath =>
    }
  }

  /** `new Drug(body)` followed by validation: the setters, then the
      validators, then the defaults for what the body omits. */
  function NewDrug(input: DrugInput): (r: Result<Drug, set<Path>>)
    ensures r.Ok? <==> forall p :: Accepts(Setters(input), p)
    ensures r.Err? ==> r.error == Violations(Setters(input)) && r.error != {}
    ensures r.Ok? ==> DrugValid(r.value)
    ensures r.Ok? ==> input.name.Some? && r.value.name == Trim(input.name.value) && r.value.description == input.description
    ensures r.Ok? ==> r.value.genericName == TrimmedOpt(input.genericName) && r.value.brand == TrimmedOpt(input.brand)
    ensures r.Ok? ==> input.category.Some? && CategoryName(r.value.category) == input.category.value
    ensures r.Ok? ==> input.form.Some? && FormName(r.value.form) == input.form.value
    ensures r.Ok? ==> r.value.prescriptionRequired == input.prescriptionRequired.GetOr(false)
    ensures r.Ok? ==> r.value.isActive == input.isActive.GetOr(true)
    ensures r.Ok? ==> r.value.strength == input.strength.GetOr(NoStrength)
  {
    var c := Setters(input);
    ViolationsAreRefusedPaths(c);
    var v := Violations(c);
    if v != {} then
      assert exists p :: p in v;
      Err(v)
    else
      assert Accepts(c, NamePath) && Accepts(c, GenericNamePath) && Accepts(c, BrandPath) && Accepts(c, DescriptionPath);
      assert Accepts(c, CategoryPath) && Accepts(c, FormPath);
      Ok(Drug(c.name.value, c.genericName, c.brand, c.description,
              ParseCategory(c.category.value).value, ParseForm(c.form.value).value,
              c.strength.GetOr(NoStrength), c.prescriptionRequired.GetOr(false), c.isActive.GetOr(true)))
  }

  /** A name of white space only is refused: trimming leaves it empty. */
  lemma {:induction false} BlankNameRefused(input: DrugInput)
    requires input.name.Some? && forall i :: 0 <= i < |input.name.value| ==> IsSpace(input.name.value[i])
    ensures NewDrug(input).Err? && NamePath in NewDrug(input).error
  {
    ViolationsAreRefusedPaths(Setters(input));
  }

  /** Sixty emoji make a name of sixty characters but of 120 UTF-16 code
      units, over the limit of 100: the name is refused. */
  lemma {:induction false} AstralNameRefused(input: DrugInput)
    requires input.name == Some(seq(60, _ => '\U{1F600}'))
    ensures NewDrug(input).Err? && NamePath in NewDrug(input).error
  {
    var name := input.name.value;
    assert !IsSpace(name[0]) && !IsSpace(name[59]);
    assert Trim(name) == name;
    assert forall c :: c in name ==> c == '\U{1F600}';
    assert Utf16Length(name) == 120;
    ViolationsAreRefusedPaths(Setters(input));
    assert !Accepts(Setters(input), NamePath);
  }

  /** The fields of a stored drug written back as a request body. */
  function AsInput(d: Drug): DrugInput {
    DrugInput(Some(d.name), d.genericName, d.brand, d.description, Some(CategoryName(d.category)),
              Some(FormName(d.form)), Some(d.strength), Some(d.prescriptionRequired), Some(d.isActive))
  }

  /** Building a drug from the fields of a valid stored drug whose texts are
      already trimmed gives back that drug. */
  lemma {:induction false} RebuildIsIdentity(d: Drug)
    requires DrugValid(d)
    requires Trim(d.name) == d.name
    requires d.genericName.Some? ==> Trim(d.genericName.value) == d.genericName.value
    requires d.brand.Some? ==> Trim(d.brand.value) == d.brand.value
    ensures NewDrug(AsInput(d)) == Ok(d)
  {
    var input := AsInput(d);
    assert TrimmedOpt(input.name) == input.name;
    assert TrimmedOpt(input.genericName) == input.genericName;
    assert TrimmedOpt(input.brand) == input.brand;
    assert Setters(input) == input;
    assert ParseCategory(CategoryName(d.category)) == Some(d.category);
    assert ParseForm(FormName(d.form)) == Some(d.form);
    assert Accepts(input, NamePath) && Accepts(input, GenericNamePath) && Accepts(input, BrandPath);
    assert Accepts(input, DescriptionPath) && Accepts(input, CategoryPath) && Accepts(input, FormPath);
    assert Violations(input) == {};
  }

  /** Whether the body of an update carries the path; update validators
      check only those. Absent optional texts pass their validators
      anyway. */
  predicate Supplied(c: DrugInput, p: Path) {
    match p
    case NamePath => c.name.Some?
    case CategoryPath => c.category.Some?
    case FormPath => c.form.Some?
    case _ => true
  }

  /** `runValidators` on an update: the supplied paths the validators
      refuse. */
  function UpdateViolations(c: DrugInput): (v: set<Path>)
    ensures forall p :: p in v <==> Supplied(c, p) && !Accepts(c, p)
  {
    ViolationsAreRefusedPaths(c);
    set p | p in Violations(c) && Supplied(c, p)
  }

  /** The supplied fields, setters applied, written over a stored drug. */
  function Patched(d: Drug, c: DrugInput): Drug {
    Drug(c.name.GetOr(d.name), if c.genericName.Some? then c.genericName else d.genericName,
         if c.brand.Some? then c.brand else d.brand,
         if c.description.Some? then c.description else d.description,
         if c.category.Some? then ParseCategory(c.category.value).GetOr(d.category) else d.category,
         if c.form.Some? then ParseForm(c.form.value).GetOr(d.form) else d.form,
         c.strength.GetOr(d.strength),
         c.prescriptionRequired.GetOr(d.prescriptionRequired),
         c.isActive.GetOr(d.isActive))
  }

  /** An update that passes its validators keeps a valid drug valid, takes
      every supplied field and keeps every other one. */
  lemma {:induction false} PatchKeepsValid(d: Drug, c: DrugInput)
    requires DrugValid(d) && UpdateViolations(c) == {}
    ensures DrugValid(Patched(d, c))
    ensures c.category.Some? ==> CategoryName(Patched(d, c).category) == c.category.value
    ensures c.form.Some? ==> FormName(Patched(d, c).form) == c.form.value
    ensures c.name.Some? ==> Patched(d, c).name == c.name.value
  {
    assert NamePath !in UpdateViolations(c);
    assert GenericNamePath !in UpdateViolations(c);
    assert BrandPath !in UpdateViolations(c);
    assert DescriptionPath !in UpdateViolations(c);
    assert CategoryPath !in UpdateViolations(c);
    assert FormPath !in UpdateViolations(c);
  }

  /** An update without fields writes nothing. */
  lemma EmptyPatchIsIdentity(d: Drug)
    ensures Patched(d, DrugInput(None, None, None, None, None, None, None, None, None)) == d
  {
  }
}
