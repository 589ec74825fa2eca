/** `ProductForm`: the product dialog's default values, its checkbox and
    score handlers, and the image picker that submits at once. */
module ProductForm {
  import opened Common
  import opened Text
  import opened Types

  /** `ProductFormValues`. */
  datatype Values = Values(
    name: string,
    brand: string,
    description: string,
    ingredients: string,
    sustainabilityScore: int,
    allergens: Option<string>,
    skinTypes: seq<string>,
    concerns: seq<string>,
    price: Option<int>)

  /** What reaches `onSubmit`: the values, with the image when one was chosen. */
  datatype Submission = Submission(values: Values, image: Option<File>)

  const SkinTypeOptions: seq<string> := ["DRY", "OILY", "COMBINATION", "NORMAL", "SENSITIVE"]
  const ConcernOptions: seq<string> :=
    ["ACNE", "AGING", "PIGMENTATION", "SENSITIVITY", "DRYNESS", "OILINESS", "REDNESS", "UNEVEN_TEXTURE"]
  const ScoreOptions: seq<nat> := [1, 2, 3, 4, 5]

  /** The defaults of a new product. */
  const NewValues: Values := Values("", "", "", "", 3, Some(""), [], [], None)

  /** The defaults when editing `p`: its fields, with the skin types and
      concerns reduced to their names in order. */
  function EditingValues(p: Product): (v: Values)
    ensures v.name == p.name && v.brand == p.brand && v.description == p.description
    ensures v.ingredients == p.ingredients && v.allergens == p.allergens && v.price == p.price
    ensures v.sustainabilityScore == p.sustainabilityScore
    ensures |v.skinTypes| == |p.suitableSkinTypes|
    ensures forall i :: 0 <= i < |v.skinTypes| ==> v.skinTypes[i] == p.suitableSkinTypes[i].skinType
    ensures |v.concerns| == |p.targetConcerns|
    ensures forall i :: 0 <= i < |v.concerns| ==> v.concerns[i] == p.targetConcerns[i].concern
  {
    Values(p.name, p.brand, p.description, p.ingredients, p.sustainabilityScore, p.allergens,
           TypeNames(p.suitableSkinTypes), ConcernNames(p.targetConcerns), p.price)
  }

  function Defaults(editing: Option<Product>): (v: Values)
    ensures editing.None? ==> v.sustainabilityScore == 3 && v.skinTypes == [] && v.concerns == []
    ensures editing.None? ==> v.name == "" && v.brand == "" && v.description == "" && v.ingredients == ""
    ensures editing.Some? ==> v.price == editing.value.price && v.name == editing.value.name
    ensures editing.Some? ==> v == EditingValues(editing.value)
    ensures editing.None? ==> v == NewValues && v.allergens == Some("") && v.price.None?
  {
    match editing
    case Some(p) => EditingValues(p)
    case None => NewValues
  }

  /** A skin-type checkbox: append when checked, drop every copy when unchecked. */
  function ToggleSkinType(v: Values, t: string, checked: bool): (r: Values)
    ensures checked ==> r.skinTypes == v.skinTypes + [t]
    ensures !checked ==> t !in r.skinTypes && IsSubsequence(r.skinTypes, v.skinTypes)
    ensures forall y :: y != t ==> (y in r.skinTypes <==> y in v.skinTypes)
    ensures r.(skinTypes := v.skinTypes) == v
  {
    v.(skinTypes := CheckboxUpdate(v.skinTypes, t, checked))
  }

  /** A concern checkbox, the same way. */
  function ToggleConcern(v: Values, c: string, checked: bool): (r: Values)
    ensures checked ==> r.concerns == v.concerns + [c]
    ensures !checked ==> c !in r.concerns && IsSubsequence(r.concerns, v.concerns)
    ensures forall y :: y != c ==> (y in r.concerns <==> y in v.concerns)
    ensures r.(concerns := v.concerns) == v
  {
    v.(concerns := CheckboxUpdate(v.concerns, c, checked))
  }

  /** The score select: `parseInt` of the chosen item's value. */
  function SelectScore(v: Values, option: string): Values {
    match ParseInt(option)
    case Some(n) => v.(sustainabilityScore := n)
    case None => v
  }

  /** Choosing any offered item stores that number, which lies in 1..5. */
  lemma SelectScoreOption(v: Values, s: nat)
    requires s in ScoreOptions
    ensures SelectScore(v, NatToString(s)) == v.(sustainabilityScore := s)
    ensures 1 <= SelectScore(v, NatToString(s)).sustainabilityScore <= 5
  {
    ParseNatToString(s);
  }

  /** The submit button: `handleSubmit` passes the values on only when the
      (abstract) schema accepts them. */
  function ButtonSubmit(v: Values, schemaValid: bool): (r: Option<Submission>)
    ensures r.Some? <==> schemaValid
    ensures r.Some? ==> r.value.image.None? && r.value.values == v
  {
    if schemaValid then Some(Submission(v, None)) else None
  }

  /** `handleImageChange`: with a file picked, submit the current values and
      the first file straight away. */
  function ImageChange(v: Values, files: seq<File>): (r: Option<Submission>)
    ensures r.Some? <==> files != []
    ensures files != [] ==> r.value == Submission(v, Some(files[0]))
  {
    if files != [] then Some(Submission(v, Some(files[0]))) else None
  }

  /** Picking an image submits even values the schema would refuse. */
  lemma ImageChangeSkipsSchema(v: Values, f: File)
    ensures ButtonSubmit(v, false).None?
    ensures ImageChange(v, [f]).Some?
  {
  }
}
