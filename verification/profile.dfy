/** The profile page: the editable profile form, its submission, and the
    body mass index with its category. */
module ProfilePage {
  import opened Common
  import opened UserData

  // ------------------------------------------------------------------ form

  /** The four editable fields, kept as text. */
  datatype ProfileForm = ProfileForm(gender: string, age: string, height: string, weight: string)

  datatype Field = Gender | Age | Height | Weight

  /** The form as loaded from, and re-synchronised with, the profile. */
  function FormOf(p: UserProfile): (r: ProfileForm)
    ensures r.gender == p.gender && r.age == p.age && r.height == p.height && r.weight == p.weight
  {
    ProfileForm(p.gender, p.age, p.height, p.weight)
  }

  /** A text input or the gender select changed one field; the others are
      kept. */
  function EditField(form: ProfileForm, field: Field, value: string): (r: ProfileForm)
    ensures field == Gender ==> r == form.(gender := value)
    ensures field == Age ==> r == form.(age := value)
    ensures field == Height ==> r == form.(height := value)
    ensures field == Weight ==> r == form.(weight := value)
  {
    match field
    case Gender => form.(gender := value)
    case Age => form.(age := value)
    case Height => form.(height := value)
    case Weight => form.(weight := value)
  }

  /** The value a field shows. */
  function FieldValue(form: ProfileForm, field: Field): string
  {
    match field
    case Gender => form.gender
    case Age => form.age
    case Height => form.height
    case Weight => form.weight
  }

  /** An edit sets its own field and leaves the other three alone. */
  lemma EditFieldSetsOnlyThatField(form: ProfileForm, field: Field, value: string, other: Field)
    ensures FieldValue(EditField(form, field, value), field) == value
    ensures other != field ==> FieldValue(EditField(form, field, value), other) == FieldValue(form, other)
  {
  }

  /** The patch a submission sends: every form field, never the name. */
  function PatchOf(form: ProfileForm): ProfilePatch
  {
    ProfilePatch(None, Some(form.gender), Some(form.age), Some(form.height), Some(form.weight))
  }

  /** Submitting merges the four form fields into the profile. */
  function SubmitProfile(p: UserProfile, form: ProfileForm): (r: UserProfile)
    ensures r.name == p.name
    ensures FormOf(r) == form
  {
    UpdateProfile(p, PatchOf(form))
  }

  /** Submitting an untouched form changes nothing. */
  lemma SubmitUnchangedForm(p: UserProfile)
    ensures SubmitProfile(p, FormOf(p)) == p
  {
  }

  /** Submitting twice is the same as submitting once, and the second of
      two submissions wins. */
  lemma SubmitLastWins(p: UserProfile, a: ProfileForm, b: ProfileForm)
    ensures SubmitProfile(SubmitProfile(p, a), b) == SubmitProfile(p, b)
  {
  }

  // ------------------------------------------------------------------- BMI

  /** What a JavaScript division can produce here. */
  datatype JsNumber = Finite(value: real) | PositiveInfinity | NegativeInfinity | NaN

  /** `weight / (height / 100) ** 2`, written over the square of the
      height in centimetres: a zero height divides by zero, which gives an
      infinity of the weight's sign, or NaN for a zero weight. */
  function Bmi(weightKg: real, heightCm: real): (r: JsNumber)
    ensures r.Finite? <==> heightCm != 0.0
    ensures r.Finite? ==> r.value * (heightCm / 100.0) * (heightCm / 100.0) == weightKg
    ensures r == PositiveInfinity <==> heightCm == 0.0 && weightKg > 0.0
    ensures r == NegativeInfinity <==> heightCm == 0.0 && weightKg < 0.0
    ensures r == NaN <==> heightCm == 0.0 && weightKg == 0.0
  {
    if heightCm != 0.0 then
      SquarePositive(heightCm);
      Finite(weightKg * 10000.0 / (heightCm * heightCm))
    else if weightKg > 0.0 then PositiveInfinity
    else if weightKg < 0.0 then NegativeInfinity
    else NaN
  }

  /** A non-zero number has a positive square. */
  lemma SquarePositive(m: real)
    ensures m != 0.0 ==> m * m > 0.0
  {
    if m < 0.0 {
      var n := -m;
      assert n * n > 0.0;
      assert m * m == n * n;
    }
  }

  /** Division by a positive square keeps the order. */
  lemma DivideBySquareMonotone(a: real, b: real, h: real)
    requires h != 0.0 && a <= b
    ensures a / (h * h) <= b / (h * h)
  {
    SquarePositive(h);
  }

  /** `x < c` on a JavaScript number; every comparison with NaN is false. */
  predicate Below(x: JsNumber, c: real)
  {
    match x
    case Finite(v) => v < c
    case NegativeInfinity => true
    case _ => false
  }

  /** `x >= c` on a JavaScript number. */
  predicate AtLeast(x: JsNumber, c: real)
  {
    match x
    case Finite(v) => v >= c
    case PositiveInfinity => true
    case _ => false
  }

  datatype BmiCategory = Underweight | NormalWeight | Overweight | Obese

  /** "Normal weight" unless one of the three tests, taken in order,
      applies: below 18.5, from 25 up to 30, 30 or more. */
  function Category(bmi: JsNumber): (r: BmiCategory)
    ensures bmi.Finite? ==> (r == Underweight <==> bmi.value < 18.5)
    ensures bmi.Finite? ==> (r == NormalWeight <==> 18.5 <= bmi.value < 25.0)
    ensures bmi.Finite? ==> (r == Overweight <==> 25.0 <= bmi.value < 30.0)
    ensures bmi.Finite? ==> (r == Obese <==> bmi.value >= 30.0)
    ensures bmi == PositiveInfinity ==> r == Obese
    ensures bmi == NegativeInfinity ==> r == Underweight
    ensures bmi == NaN ==> r == NormalWeight
  {
    if Below(bmi, 18.5) then Underweight
    else if AtLeast(bmi, 25.0) && Below(bmi, 30.0) then Overweight
    else if AtLeast(bmi, 30.0) then Obese
    else NormalWeight
  }

  /** The categories in order of BMI. */
  function Rank(c: BmiCategory): nat
  {
    match c
    case Underweight => 0
    case NormalWeight => 1
    case Overweight => 2
    case Obese => 3
  }

  /** A higher finite BMI never lands in a lower category. */
  lemma CategoryMonotone(a: real, b: real)
    requires a <= b
    ensures Rank(Category(Finite(a))) <= Rank(Category(Finite(b)))
  {
  }

  /** At a fixed non-zero height, a heavier weight never lowers the
      category. */
  lemma HeavierNeverLowersCategory(w1: real, w2: real, heightCm: real)
    requires heightCm != 0.0 && w1 <= w2
    ensures Rank(Category(Bmi(w1, heightCm))) <= Rank(Category(Bmi(w2, heightCm)))
  {
    DivideBySquareMonotone(w1 * 10000.0, w2 * 10000.0, heightCm);
    CategoryMonotone(Bmi(w1, heightCm).value, Bmi(w2, heightCm).value);
  }

  /** The seeded profile, 73.2 kg at 178 cm, has a normal weight. */
  lemma DefaultProfileIsNormalWeight()
    ensures Category(Bmi(73.2, 178.0)) == NormalWeight
  {
    var r := Bmi(73.2, 178.0);
    assert r.value * 1.78 * 1.78 == 73.2;
  }
}
