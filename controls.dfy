/** The control panel's update payloads: the digit sanitiser, the custom-cake upload, the
    relight button, and the right-to-left flag. Each handler builds a `Partial<AppState>`
    that the page merges into its state. */
module Controls {
  import opened Wrappers
  import opened Text
  import opened Session
  import CakeScene

  /** `state.lang === 'ar'`. */
  function IsRtl(lang: Language): (r: bool)
    ensures r <==> Code(lang) == "ar"
  {
    lang == Ar
  }

  /** `r` can be obtained from `s` by deleting characters. */
  predicate Subsequence(r: string, s: string)
    decreases |s|
  {
    if r == [] then true
    else if s == [] then false
    else if r[0] == s[0] then Subsequence(r[1..], s[1..])
    else Subsequence(r, s[1..])
  }

  /** `value.replace(/[^0-9]/g, '')`: the characters of `s` that are ASCII digits, in order. */
  function SanitizeDigits(s: string): (r: string)
    ensures AllDigits(r)
    ensures Subsequence(r, s)
    ensures forall c :: multiset(r)[c] == if IsDigit(c) then multiset(s)[c] else 0
  {
    if s == [] then []
    else
      var rest := SanitizeDigits(s[1..]);
      assert s == [s[0]] + s[1..];
      if IsDigit(s[0]) then [s[0]] + rest else rest
  }

  /** A string of digits passes through the sanitiser unchanged. */
  lemma {:induction false} SanitizeKeepsDigitStrings(s: string)
    requires AllDigits(s)
    ensures SanitizeDigits(s) == s
  {
    if s != [] {
      SanitizeKeepsDigitStrings(s[1..]);
    }
  }

  /** Sanitising twice is sanitising once. */
  lemma SanitizeIdempotent(s: string)
    ensures SanitizeDigits(SanitizeDigits(s)) == SanitizeDigits(s)
  {
    SanitizeKeepsDigitStrings(SanitizeDigits(s));
  }

  /** The digit field's `onChange` payload: it names `digits` alone, holding the input's digits. */
  function DigitsPatch(input: string): (u: Patch)
    ensures forall f: Field :: Mentions(u, f) <==> f == DigitsField
    ensures u.digits == Some(SanitizeDigits(input))
  {
    NoChange.(digits := Some(SanitizeDigits(input)))
  }

  /** Typing in the digit field changes only `digits`, and only to digits. */
  lemma DigitsPatchEffect(st: AppState, input: string)
    ensures Merge(st, DigitsPatch(input)) == st.(digits := SanitizeDigits(input))
    ensures AllDigits(Merge(st, DigitsPatch(input)).digits)
  {
  }

  /** `custom-${Date.now()}`, with the clock reading passed in. */
  function CustomCakeId(now: nat): (id: string)
    ensures StartsWith(id, CakeScene.CustomPrefix)
  {
    var id := CakeScene.CustomPrefix + Decimal(now);
    assert id[..|CakeScene.CustomPrefix|] == CakeScene.CustomPrefix;
    id
  }

  /** `file.type.startsWith('image/')`. */
  predicate IsImage(fileType: string) {
    StartsWith(fileType, "image/")
  }

  /** `handleFile`: no payload for a file that is not an image; otherwise, once the file has
      been read as `dataUrl` at clock reading `now`, a payload that stores it under a new
      custom id and selects that id. */
  function HandleFile(st: AppState, fileType: string, now: nat, dataUrl: string): (r: Option<Patch>)
    ensures r.None? <==> !IsImage(fileType)
  {
    if !IsImage(fileType) then None
    else
      var id := CustomCakeId(now);
      Some(NoChange.(customCakes := Some(st.customCakes[id := dataUrl]), selectedCakeId := Some(id)))
  }

  /** Uploading an image keeps every earlier custom cake, stores the new one under its id,
      selects it, leaves all other fields alone, and makes the scene use the uploaded image
      with the fixed custom geometry. */
  lemma UploadSelectsCustomCake(st: AppState, fileType: string, now: nat, dataUrl: string)
    requires IsImage(fileType)
    ensures var id := CustomCakeId(now);
            var s := Merge(st, HandleFile(st, fileType, now, dataUrl).value);
      && s.selectedCakeId == id
      && s.customCakes.Keys == st.customCakes.Keys + {id}
      && s.customCakes[id] == dataUrl
      && (forall k :: k in st.customCakes && k != id ==> s.customCakes[k] == st.customCakes[k])
      && s == st.(selectedCakeId := id, customCakes := s.customCakes)
      && CakeScene.SelectCake(s.selectedCakeId, s.customCakes) == CakeScene.Custom(id, Some(dataUrl))
      && CakeScene.SelectCake(s.selectedCakeId, s.customCakes).CandleBaseY() == 40.0
      && CakeScene.SelectCake(s.selectedCakeId, s.customCakes).CandleBaseWidth() == 50.0
  {
    var id := CustomCakeId(now);
    var s := Merge(st, HandleFile(st, fileType, now, dataUrl).value);
    CakeScene.CustomCakeImage(s.selectedCakeId, s.customCakes);
  }

  /** A file that is not an image changes nothing. */
  lemma NonImageIgnored(st: AppState, fileType: string, now: nat, dataUrl: string)
    requires !IsImage(fileType)
    ensures HandleFile(st, fileType, now, dataUrl) == None
  {
  }

  /** The relight button's payload `{ isExtinguished: false }`. */
  const RelightPatch: Patch := NoChange.(isExtinguished := Some(false))

  /** Relighting changes only `isExtinguished`, to false. */
  lemma RelightEffect(st: AppState)
    ensures Merge(st, RelightPatch) == st.(isExtinguished := false)
  {
  }
}
