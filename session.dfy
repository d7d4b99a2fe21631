/** The session record the page renders from (the `AppState` shape), the `Partial<AppState>`
    update payloads the controls build, and the shallow merge `{ ...prev, ...updates }`
    through which every payload is applied. */
module Session {
  import opened Wrappers

  datatype Language = Zh | En | Ja | Fr | Ar

  /** The language code as it appears in the URL hash and in `state.lang`. */
  function Code(l: Language): string {
    match l
    case Zh => "zh"
    case En => "en"
    case Ja => "ja"
    case Fr => "fr"
    case Ar => "ar"
  }

  /** `validLangs.includes(s)`, returning the language it names. */
  function ParseLanguage(s: string): (r: Option<Language>)
    ensures r.Some? ==> Code(r.value) == s
    ensures r.None? ==> forall l: Language :: Code(l) != s
  {
    if s == "zh" then Some(Zh)
    else if s == "en" then Some(En)
    else if s == "ja" then Some(Ja)
    else if s == "fr" then Some(Fr)
    else if s == "ar" then Some(Ar)
    else None
  }

  lemma ParseLanguageOfCode(l: Language)
    ensures ParseLanguage(Code(l)) == Some(l)
  {
  }

  datatype CandleType = Classic | Digits

  datatype AppState = AppState(
    lang: Language,
    selectedCakeId: string,
    candleType: CandleType,
    candleCount: int,
    digits: string,
    isExtinguished: bool,
    isBlowing: bool,
    customCakes: map<string, string>,  // custom cake id to image data URL
    userName: string,
    customMessage: string)

  /** `Partial<AppState>`: `None` is a field the payload does not mention. */
  datatype Patch = Patch(
    lang: Option<Language>,
    selectedCakeId: Option<string>,
    candleType: Option<CandleType>,
    candleCount: Option<int>,
    digits: Option<string>,
    isExtinguished: Option<bool>,
    isBlowing: Option<bool>,
    customCakes: Option<map<string, string>>,
    userName: Option<string>,
    customMessage: Option<string>)

  /** The empty payload `{}`. */
  const NoChange: Patch := Patch(None, None, None, None, None, None, None, None, None, None)

  /** `{ ...prev, ...updates }`: every field the payload mentions takes the payload's value,
      and every other field keeps its value. */
  function Merge(s: AppState, u: Patch): (r: AppState)
    ensures forall f: Field :: Mentions(u, f) ==> Holds(r, u, f)
    ensures forall f: Field :: !Mentions(u, f) ==> Agree(r, s, f)
  {
    AppState(
      u.lang.GetOr(s.lang),
      u.selectedCakeId.GetOr(s.selectedCakeId),
      u.candleType.GetOr(s.candleType),
      u.candleCount.GetOr(s.candleCount),
      u.digits.GetOr(s.digits),
      u.isExtinguished.GetOr(s.isExtinguished),
      u.isBlowing.GetOr(s.isBlowing),
      u.customCakes.GetOr(s.customCakes),
      u.userName.GetOr(s.userName),
      u.customMessage.GetOr(s.customMessage))
  }

  /** The payload whose fields are those of `v`, then those of `u` that `v` does not mention. */
  function Then(u: Patch, v: Patch): Patch {
    Patch(
      if v.lang.Some? then v.lang else u.lang,
      if v.selectedCakeId.Some? then v.selectedCakeId else u.selectedCakeId,
      if v.candleType.Some? then v.candleType else u.candleType,
      if v.candleCount.Some? then v.candleCount else u.candleCount,
      if v.digits.Some? then v.digits else u.digits,
      if v.isExtinguished.Some? then v.isExtinguished else u.isExtinguished,
      if v.isBlowing.Some? then v.isBlowing else u.isBlowing,
      if v.customCakes.Some? then v.customCakes else u.customCakes,
      if v.userName.Some? then v.userName else u.userName,
      if v.customMessage.Some? then v.customMessage else u.customMessage)
  }

  /** The fields of the record, to speak about "the fields a payload mentions". */
  datatype Field =
    | LangField | SelectedCakeIdField | CandleTypeField | CandleCountField | DigitsField
    | IsExtinguishedField | IsBlowingField | CustomCakesField | UserNameField | CustomMessageField

  /** The payload mentions field `f`. */
  predicate Mentions(u: Patch, f: Field) {
    match f
    case LangField => u.lang.Some?
    case SelectedCakeIdField => u.selectedCakeId.Some?
    case CandleTypeField => u.candleType.Some?
    case CandleCountField => u.candleCount.Some?
    case DigitsField => u.digits.Some?
    case IsExtinguishedField => u.isExtinguished.Some?
    case IsBlowingField => u.isBlowing.Some?
    case CustomCakesField => u.customCakes.Some?
    case UserNameField => u.userName.Some?
    case CustomMessageField => u.customMessage.Some?
  }

  /** Field `f` of `s` holds the value the payload gives it. */
  predicate Holds(s: AppState, u: Patch, f: Field) {
    match f
    case LangField => u.lang == Some(s.lang)
    case SelectedCakeIdField => u.selectedCakeId == Some(s.selectedCakeId)
    case CandleTypeField => u.candleType == Some(s.candleType)
    case CandleCountField => u.candleCount == Some(s.candleCount)
    case DigitsField => u.digits == Some(s.digits)
    case IsExtinguishedField => u.isExtinguished == Some(s.isExtinguished)
    case IsBlowingField => u.isBlowing == Some(s.isBlowing)
    case CustomCakesField => u.customCakes == Some(s.customCakes)
    case UserNameField => u.userName == Some(s.userName)
    case CustomMessageField => u.customMessage == Some(s.customMessage)
  }

  /** `a` and `b` agree on field `f`. */
  predicate Agree(a: AppState, b: AppState, f: Field) {
    match f
    case LangField => a.lang == b.lang
    case SelectedCakeIdField => a.selectedCakeId == b.selectedCakeId
    case CandleTypeField => a.candleType == b.candleType
    case CandleCountField => a.candleCount == b.candleCount
    case DigitsField => a.digits == b.digits
    case IsExtinguishedField => a.isExtinguished == b.isExtinguished
    case IsBlowingField => a.isBlowing == b.isBlowing
    case CustomCakesField => a.customCakes == b.customCakes
    case UserNameField => a.userName == b.userName
    case CustomMessageField => a.customMessage == b.customMessage
  }

  /** Two records that agree on every field are equal. */
  lemma AgreeEverywhere(a: AppState, b: AppState)
    requires forall f: Field :: Agree(a, b, f)
    ensures a == b
  {
    assert Agree(a, b, LangField) && Agree(a, b, SelectedCakeIdField) && Agree(a, b, CandleTypeField);
    assert Agree(a, b, CandleCountField) && Agree(a, b, DigitsField) && Agree(a, b, IsExtinguishedField);
    assert Agree(a, b, IsBlowingField) && Agree(a, b, CustomCakesField) && Agree(a, b, UserNameField);
    assert Agree(a, b, CustomMessageField);
  }

  /** The field-by-field description of `Merge` determines it: any record that takes the
      payload's value on every field the payload mentions, and agrees with `s` elsewhere,
      is the merge. */
  lemma MergeUnique(s: AppState, u: Patch, r: AppState)
    requires forall f: Field :: Mentions(u, f) ==> Holds(r, u, f)
    requires forall f: Field :: !Mentions(u, f) ==> Agree(r, s, f)
    ensures r == Merge(s, u)
  {
    var m := Merge(s, u);
    forall f: Field ensures Agree(r, m, f) {
      if Mentions(u, f) {
        assert Holds(r, u, f) && Holds(m, u, f);
      } else {
        assert Agree(r, s, f) && Agree(m, s, f);
      }
      match f
      case LangField =>
      case SelectedCakeIdField =>
      case CandleTypeField =>
      case CandleCountField =>
      case DigitsField =>
      case IsExtinguishedField =>
      case IsBlowingField =>
      case CustomCakesField =>
      case UserNameField =>
      case CustomMessageField =>
    }
    AgreeEverywhere(r, m);
  }

  lemma MergeNoChange(s: AppState)
    ensures Merge(s, NoChange) == s
  {
  }

  /** Applying the same payload twice is applying it once. */
  lemma MergeIdempotent(s: AppState, u: Patch)
    ensures Merge(Merge(s, u), u) == Merge(s, u)
  {
  }

  /** Two successive updates are one update with the later payload winning. */
  lemma MergeThen(s: AppState, u: Patch, v: Patch)
    ensures Merge(Merge(s, u), v) == Merge(s, Then(u, v))
  {
  }
}
