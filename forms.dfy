/** The form's field store: the registered fields of the story form, their
    static initial values, and the partial update `form.setFieldsValue`. */
module Forms {
  import opened Options

  /** The registered form fields (`name=` of each form item). */
  datatype Field =
    | TextLlmProvider | ImageLlmProvider | TextLlmModel | ImageLlmModel | Resolution
    | Language | VoiceName | StoryPrompt | Segments

  /** Field values; a field missing from the map is `undefined`. Every input
      of the form produces a string, the number input included. */
  type Fields = map<Field, string>

  /** The argument of `form.setFieldsValue`: the fields it names, each with a
      new value or `undefined`. */
  type Patch = map<Field, Option<string>>

  /** The values the form starts with: the form-level `initialValues` and the
      items' `initialValue`s. */
  const InitialFields: Fields := map[
    Resolution := "1024*1024",
    TextLlmProvider := "siliconflow",
    ImageLlmProvider := "siliconflow",
    TextLlmModel := "Qwen/Qwen2.5-7B-Instruct",
    ImageLlmModel := "Kwai-Kolors/Kolors"]

  /** `a` and `b` hold the same value (or both none) for every field outside `keys`. */
  predicate AgreeExcept(a: Fields, b: Fields, keys: set<Field>) {
    forall k :: k !in keys ==> (k in a <==> k in b) && (k in a ==> a[k] == b[k])
  }

  /** `form.setFieldsValue(patch)`: each field the patch names takes its new
      value or becomes undefined; every other field keeps its value. */
  function Merge(store: Fields, patch: Patch): (r: Fields)
    ensures forall k :: k in patch ==> (k in r <==> patch[k].Some?)
    ensures forall k :: k in patch && patch[k].Some? ==> k in r && r[k] == patch[k].value
    ensures AgreeExcept(r, store, patch.Keys)
  {
    map k | k in store.Keys + patch.Keys && (k in patch ==> patch[k].Some?)
      :: if k in patch then patch[k].value else store[k]
  }

  /** The length guard of the provider effect: the text catalog has a third
      entry and the image catalog a second one. */
  predicate ProvidersUsable(text: seq<string>, image: seq<string>) {
    |text| > 2 && |image| > 1
  }

  /** The patch the provider effect applies once the catalog has arrived:
      the third text provider and the second image provider, or nothing when
      the guard fails. It never names a field other than the two providers. */
  function ProviderDefaults(text: seq<string>, image: seq<string>): (patch: Patch)
    ensures patch.Keys <= {TextLlmProvider, ImageLlmProvider}
    ensures (TextLlmProvider in patch || ImageLlmProvider in patch) <==> ProvidersUsable(text, image)
    ensures ProvidersUsable(text, image) ==>
              patch == map[TextLlmProvider := Some(text[2]), ImageLlmProvider := Some(image[1])]
  {
    if ProvidersUsable(text, image) then
      map[TextLlmProvider := Some(text[2]), ImageLlmProvider := Some(image[1])]
    else
      map[]
  }

  /** Applied to any store, the provider defaults write `text[2]` and
      `image[1]` exactly when the guard holds, and change nothing else. */
  lemma ProviderDefaultsEffect(store: Fields, text: seq<string>, image: seq<string>)
    ensures var r := Merge(store, ProviderDefaults(text, image));
      AgreeExcept(r, store, {TextLlmProvider, ImageLlmProvider}) &&
      (ProvidersUsable(text, image) ==>
         r == store[TextLlmProvider := text[2]][ImageLlmProvider := image[1]]) &&
      (!ProvidersUsable(text, image) ==> r == store)
  {
  }

  /** On the initial store both providers read "siliconflow" unless the guard
      holds, in which case they read `text[2]` and `image[1]`. */
  lemma ProviderDefaultsOnInitial(text: seq<string>, image: seq<string>)
    ensures var r := Merge(InitialFields, ProviderDefaults(text, image));
      r[TextLlmProvider] == (if ProvidersUsable(text, image) then text[2] else "siliconflow") &&
      r[ImageLlmProvider] == (if ProvidersUsable(text, image) then image[1] else "siliconflow")
  {
  }

  /** Writing the language and then patching the voice name: the language
      holds `lang`, the voice name holds `voice` or is undefined, and no
      other field changes. */
  lemma LanguageThenVoice(store: Fields, lang: string, voice: Option<string>)
    ensures var r := Merge(store[Language := lang], map[VoiceName := voice]);
      Language in r && r[Language] == lang &&
      (VoiceName in r <==> voice.Some?) &&
      (VoiceName in r ==> r[VoiceName] == voice.value) &&
      AgreeExcept(r, store, {Language, VoiceName})
  {
    var picked := store[Language := lang];
    assert AgreeExcept(picked, store, {Language});
  }

  /** What `onFinish` may assume: the validation layer let the values through,
      so every field is set (all of them are `required`) and none is empty. */
  predicate Validated(f: Fields) {
    forall k: Field :: k in f && f[k] != ""
  }
}
