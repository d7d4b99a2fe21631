/** The shared session store: the record it holds (which carries three fields beyond
    `AppState`: `configCompleted`, `blowingProgress` and `giverName`), its default contents,
    the shallow-merge update, and the full reset. */
module Store {
  import opened Wrappers
  import opened Session

  datatype StoreState = StoreState(
    lang: Language,
    selectedCakeId: string,
    candleType: CandleType,
    candleCount: int,
    digits: string,
    isExtinguished: bool,
    configCompleted: bool,
    isBlowing: bool,
    blowingProgress: int,
    customCakes: map<string, string>,
    userName: string,
    customMessage: string,
    giverName: string)

  /** An update payload. The spread merges whatever fields the payload object carries,
      so the three extra fields can be updated too. */
  datatype StorePatch = StorePatch(
    lang: Option<Language>,
    selectedCakeId: Option<string>,
    candleType: Option<CandleType>,
    candleCount: Option<int>,
    digits: Option<string>,
    isExtinguished: Option<bool>,
    configCompleted: Option<bool>,
    isBlowing: Option<bool>,
    blowingProgress: Option<int>,
    customCakes: Option<map<string, string>>,
    userName: Option<string>,
    customMessage: Option<string>,
    giverName: Option<string>)

  const Empty: StorePatch := StorePatch(None, None, None, None, None, None, None, None, None, None, None, None, None)

  /** `defaultState(initialLang)`. */
  function DefaultState(initialLang: Language): (s: StoreState)
    ensures s.lang == initialLang && s.selectedCakeId == "elegant-strawberry" && s.candleType == Classic
    ensures s.candleCount == 18 && s.digits == "18"
    ensures !s.isExtinguished && !s.isBlowing && !s.configCompleted && s.blowingProgress == 0
    ensures s.customCakes == map[] && s.userName == "" && s.customMessage == "" && s.giverName == ""
  {
    StoreState(
      lang := initialLang,
      selectedCakeId := "elegant-strawberry",
      candleType := Classic,
      candleCount := 18,
      digits := "18",
      isExtinguished := false,
      configCompleted := false,
      isBlowing := false,
      blowingProgress := 0,
      customCakes := map[],
      userName := "",
      customMessage := "",
      giverName := "")
  }

  /** The store's state when the page loads. */
  const Initial: StoreState := DefaultState(En)

  /** `updateState(updates)`: `set(state => ({ ...state, ...updates }))`. Every field the
      payload names takes the payload's value, and every other field keeps its value. */
  function UpdateState(s: StoreState, u: StorePatch): (r: StoreState)
    ensures forall f: StoreField :: Mentions(u, f) ==> Holds(r, u, f)
    ensures forall f: StoreField :: !Mentions(u, f) ==> Agree(r, s, f)
  {
    StoreState(
      u.lang.GetOr(s.lang),
      u.selectedCakeId.GetOr(s.selectedCakeId),
      u.candleType.GetOr(s.candleType),
      u.candleCount.GetOr(s.candleCount),
      u.digits.GetOr(s.digits),
      u.isExtinguished.GetOr(s.isExtinguished),
      u.configCompleted.GetOr(s.configCompleted),
      u.isBlowing.GetOr(s.isBlowing),
      u.blowingProgress.GetOr(s.blowingProgress),
      u.customCakes.GetOr(s.customCakes),
      u.userName.GetOr(s.userName),
      u.customMessage.GetOr(s.customMessage),
      u.giverName.GetOr(s.giverName))
  }

  /** `resetState(lang)`: `set(() => defaultState(lang))`; the prior state is dropped. */
  function ResetState(s: StoreState, l: Language): (r: StoreState)
    ensures r == DefaultState(l)
    ensures r.lang == l && r.candleCount == 18 && r.digits == "18"
    ensures !r.isExtinguished && r.customCakes == map[]
  {
    DefaultState(l)
  }

  datatype StoreField =
    | LangField | SelectedCakeIdField | CandleTypeField | CandleCountField | DigitsField
    | IsExtinguishedField | ConfigCompletedField | IsBlowingField | BlowingProgressField
    | CustomCakesField | UserNameField | CustomMessageField | GiverNameField

  predicate Mentions(u: StorePatch, f: StoreField) {
    match f
    case LangField => u.lang.Some?
    case SelectedCakeIdField => u.selectedCakeId.Some?
    case CandleTypeField => u.candleType.Some?
    case CandleCountField => u.candleCount.Some?
    case DigitsField => u.digits.Some?
    case IsExtinguishedField => u.isExtinguished.Some?
    case ConfigCompletedField => u.configCompleted.Some?
    case IsBlowingField => u.isBlowing.Some?
    case BlowingProgressField => u.blowingProgress.Some?
    case CustomCakesField => u.customCakes.Some?
    case UserNameField => u.userName.Some?
    case CustomMessageField => u.customMessage.Some?
    case GiverNameField => u.giverName.Some?
  }

  predicate Holds(s: StoreState, u: StorePatch, f: StoreField) {
    match f
    case LangField => u.lang == Some(s.lang)
    case SelectedCakeIdField => u.selectedCakeId == Some(s.selectedCakeId)
    case CandleTypeField => u.candleType == Some(s.candleType)
    case CandleCountField => u.candleCount == Some(s.candleCount)
    case DigitsField => u.digits == Some(s.digits)
    case IsExtinguishedField => u.isExtinguished == Some(s.isExtinguished)
    case ConfigCompletedField => u.configCompleted == Some(s.configCompleted)
    case IsBlowingField => u.isBlowing == Some(s.isBlowing)
    case BlowingProgressField => u.blowingProgress == Some(s.blowingProgress)
    case CustomCakesField => u.customCakes == Some(s.customCakes)
    case UserNameField => u.userName == Some(s.userName)
    case CustomMessageField => u.customMessage == Some(s.customMessage)
    case GiverNameField => u.giverName == Some(s.giverName)
  }

  predicate Agree(a: StoreState, b: StoreState, f: StoreField) {
    match f
    case LangField => a.lang == b.lang
    case SelectedCakeIdField => a.selectedCakeId == b.selectedCakeId
    case CandleTypeField => a.candleType == b.candleType
    case CandleCountField => a.candleCount == b.candleCount
    case DigitsField => a.digits == b.digits
    case IsExtinguishedField => a.isExtinguished == b.isExtinguished
    case ConfigCompletedField => a.configCompleted == b.configCompleted
    case IsBlowingField => a.isBlowing == b.isBlowing
    case BlowingProgressField => a.blowingProgress == b.blowingProgress
    case CustomCakesField => a.customCakes == b.customCakes
    case UserNameField => a.userName == b.userName
    case CustomMessageField => a.customMessage == b.customMessage
    case GiverNameField => a.giverName == b.giverName
  }

  /** Two store records that agree on every field are equal. */
  lemma AgreeEverywhere(a: StoreState, b: StoreState)
    requires forall f: StoreField :: Agree(a, b, f)
    ensures a == b
  {
    assert Agree(a, b, StoreField.LangField) && Agree(a, b, StoreField.SelectedCakeIdField) && Agree(a, b, StoreField.CandleTypeField);
    assert Agree(a, b, StoreField.CandleCountField) && Agree(a, b, StoreField.DigitsField) && Agree(a, b, StoreField.IsExtinguishedField);
    assert Agree(a, b, StoreField.ConfigCompletedField) && Agree(a, b, StoreField.IsBlowingField) && Agree(a, b, StoreField.BlowingProgressField);
    assert Agree(a, b, StoreField.CustomCakesField) && Agree(a, b, StoreField.UserNameField) && Agree(a, b, StoreField.CustomMessageField);
    assert Agree(a, b, StoreField.GiverNameField);
  }

  /** The field-by-field description of an update determines it. */
  lemma UpdateUnique(s: StoreState, u: StorePatch, r: StoreState)
    requires forall f: StoreField :: Mentions(u, f) ==> Holds(r, u, f)
    requires forall f: StoreField :: !Mentions(u, f) ==> Agree(r, s, f)
    ensures r == UpdateState(s, u)
  {
    var m := UpdateState(s, u);
    forall f: StoreField ensures Agree(r, m, f) {
      if Mentions(u, f) {
        assert Holds(r, u, f) && Holds(m, u, f);
      } else {
        assert Agree(r, s, f) && Agree(m, s, f);
      }
      match f
      case LangField =>
      case SelectedCakeIdField =>
      case CandleTypeField =>
      case CandleCountField =>
      case DigitsField =>
      case IsExtinguishedField =>
      case ConfigCompletedField =>
      case IsBlowingField =>
      case BlowingProgressField =>
      case CustomCakesField =>
      case UserNameField =>
      case CustomMessageField =>
      case GiverNameField =>
    }
    AgreeEverywhere(r, m);
  }

  lemma UpdateEmptyIsIdentity(s: StoreState)
    ensures UpdateState(s, Empty) == s
  {
  }

  lemma UpdateIdempotent(s: StoreState, u: StorePatch)
    ensures UpdateState(UpdateState(s, u), u) == UpdateState(s, u)
  {
  }

  /** Resetting to English restores the contents the store was created with. */
  lemma ResetToEnglishRestoresInitial(s: StoreState)
    ensures ResetState(s, En) == Initial
  {
  }

  /** The reset contents do not depend on the prior state, and resetting twice is resetting once. */
  lemma ResetIndependentAndIdempotent(s: StoreState, t: StoreState, l: Language)
    ensures ResetState(s, l) == ResetState(t, l)
    ensures ResetState(ResetState(s, l), l) == ResetState(s, l)
  {
  }

  /** A payload built as a `Partial<AppState>` never touches the three store-only fields. */
  function FromAppPatch(u: Patch): (r: StorePatch)
    ensures r.configCompleted.None? && r.blowingProgress.None? && r.giverName.None?
  {
    StorePatch(u.lang, u.selectedCakeId, u.candleType, u.candleCount, u.digits, u.isExtinguished,
               None, u.isBlowing, None, u.customCakes, u.userName, u.customMessage, None)
  }

  /** Seen through the `AppState` fields, a store update is the page's own merge. */
  function AsAppState(s: StoreState): AppState {
    AppState(s.lang, s.selectedCakeId, s.candleType, s.candleCount, s.digits, s.isExtinguished,
             s.isBlowing, s.customCakes, s.userName, s.customMessage)
  }

  lemma UpdateAgreesWithMerge(s: StoreState, u: Patch)
    ensures AsAppState(UpdateState(s, FromAppPatch(u))) == Merge(AsAppState(s), u)
    ensures var r := UpdateState(s, FromAppPatch(u));
      r.configCompleted == s.configCompleted && r.blowingProgress == s.blowingProgress && r.giverName == s.giverName
  {
  }
}
