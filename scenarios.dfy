/** Scenarios of the controller on concrete catalogs and responses. */
module Scenarios {
  import opened Options
  import opened Voices
  import opened Forms
  import opened Generation
  import opened StoryForm

  /** A stand-in for the voice selector, used only in these scenarios: the voices
      whose name starts with the language code, in catalog order. */
  function LocalePrefix(lang: string, all: seq<string>): seq<string>
  {
    if all == [] then []
    else if |lang| <= |all[0]| && all[0][..|lang|] == lang then [all[0]] + LocalePrefix(lang, all[1..])
    else LocalePrefix(lang, all[1..])
  }

  const Catalog := ["en-US-Voice1-Female", "en-US-Voice1-Male", "ja-JP-Voice2-Female"]

  /** The stand-in selector keeps the two en-US voices of the catalog. */
  lemma EnUsVoices()
    ensures LocalePrefix("en-US", Catalog) == ["en-US-Voice1-Female", "en-US-Voice1-Male"]
  {
    var c0, c1, c2 := Catalog[0], Catalog[1], Catalog[2];
    assert c0[..5] == "en-US" && c1[..5] == "en-US" && c2[..5] == "ja-JP" != "en-US";
    var last: seq<string> := [c2];
    var tail: seq<string> := [c1, c2];
    assert LocalePrefix("en-US", last) == [] by {
      assert last[1..] == [];
    }
    assert LocalePrefix("en-US", tail) == [c1] by {
      assert tail[1..] == last;
    }
    assert Catalog[1..] == tail;
  }

  /** `Voices.CanonicalizeStripsFemale` with the marked name passed in as a
      separate argument. With concrete strings, `x + FemaleMarker` and the
      literal stay distinct terms for the solver, which keeps
      `EnUsCanonical` from unfolding `Canonicalize` on the literal; calling
      `CanonicalizeStripsFemale` directly there is not stable. */
  lemma FemaleNameCanonical(x: string, v: string)
    requires Unmarked(x) && v == x + FemaleMarker
    ensures Canonicalize(v) == x
  {
    CanonicalizeStripsFemale(x);
  }

  /** The canonical name of "en-US-Voice1-Female" is "en-US-Voice1". */
  lemma EnUsCanonical()
    ensures Canonicalize("en-US-Voice1-Female") == "en-US-Voice1"
  {
    UnmarkedByDashes("en-US-Voice1");
    FemaleNameCanonical("en-US-Voice1", "en-US-Voice1-Female");
  }

  /** A language picked before the voice catalog has arrived offers nothing,
      and the catalog arriving later does not refresh the offered voices:
      they stay empty until a different language is picked. */
  method ScenarioStaleVoices() returns (offered: seq<string>, voiceSet: bool)
    ensures offered == [] && !voiceSet
  {
    var c := new Controller();
    c.OnLanguageChange("en-US", AnyLanguage);
    c.OnVoicesLoaded(Some(["v1"]));
    offered := c.nowVoiceList;
    voiceSet := VoiceName in c.fields;
  }

  /** Picking "en-US" offers the two en-US voices and defaults the voice name
      to their canonical name. */
  method ScenarioLanguage() returns (offered: seq<string>, voice: Option<string>)
    ensures offered == ["en-US-Voice1-Female", "en-US-Voice1-Male"]
    ensures voice == Some("en-US-Voice1")
  {
    var c := new Controller();
    c.OnVoicesLoaded(Some(Catalog));
    c.OnLanguageChange("en-US", LocalePrefix);
    EnUsVoices();
    EnUsCanonical();
    offered := c.nowVoiceList;
    voice := if VoiceName in c.fields then Some(c.fields[VoiceName]) else None;
  }

  /** A four-entry text catalog and a two-entry image catalog default the
      providers to the third and second entries. */
  method ScenarioProviders() returns (text: string, image: string)
    ensures text == "c" && image == "y"
  {
    var c := new Controller();
    c.OnProvidersLoaded(["a", "b", "c", "d"], ["x", "y"]);
    text, image := c.fields[TextLlmProvider], c.fields[ImageLlmProvider];
  }

  /** A stand-in selector that offers the whole catalog for every language. */
  function AnyLanguage(lang: string, all: seq<string>): seq<string> {
    all
  }

  /** A controller whose form passes validation: a one-voice catalog loaded,
      a language picked, and prompt and segments typed in. */
  method ReadyController() returns (c: Controller)
    ensures fresh(c) && c.Valid() && Validated(c.fields)
    ensures c.videoUrl == None && c.loading == Cleared && c.pending == 0
  {
    c := new Controller();
    c.OnVoicesLoaded(Some(["v1"]));
    c.OnLanguageChange("en-US", AnyLanguage);
    assert Unmarked("v1");
    ghost var picked := c.fields;
    c.OnInput(StoryPrompt, "a cat learns to fly");
    c.OnInput(Segments, "3");
    InputsKeepInitial(picked, c.fields, "a cat learns to fly", "3");
    FilledFormValidated(c.fields);
  }

  /** Typing into the prompt and segment inputs leaves the static initial
      values in place. */
  lemma InputsKeepInitial(picked: Fields, f: Fields, prompt: string, segments: string)
    requires AgreeExcept(picked, InitialFields, {Language, VoiceName})
    requires f == picked[StoryPrompt := prompt][Segments := segments]
    ensures forall k :: k in InitialFields ==> k in f && f[k] == InitialFields[k]
  {
  }

  /** A store that still holds the static initial values and has the four
      visible fields filled in passes validation. */
  lemma FilledFormValidated(f: Fields)
    requires forall k :: k in InitialFields ==> k in f && f[k] == InitialFields[k]
    requires Language in f && f[Language] != ""
    requires VoiceName in f && f[VoiceName] != ""
    requires StoryPrompt in f && f[StoryPrompt] != ""
    requires Segments in f && f[Segments] != ""
    ensures Validated(f)
  {
    forall k: Field ensures k in f && f[k] != "" {
      match k
      case Language | VoiceName | StoryPrompt | Segments =>
      case TextLlmProvider | ImageLlmProvider | TextLlmModel | ImageLlmModel | Resolution =>
        assert k in InitialFields;
    }
  }

  /** A response carrying a video URL puts it in the slot and raises the
      success toast. */
  method ScenarioVideo() returns (slot: Option<string>, toast: Option<Notice>, loading: Loading)
    ensures slot == Some("http://v/1.mp4")
    ensures toast == Some(SuccessNotice("Generate Video Success"))
    ensures loading == Cleared
  {
    var c := ReadyController();
    var request := c.Submit();
    c.OnGenerateResolved(GenerateResponse(Some(true), None, Some("http://v/1.mp4")));
    slot, toast, loading := c.videoUrl, c.notice, c.loading;
  }

  /** `success: false` with a message raises an error toast carrying the
      message and leaves the slot empty. */
  method ScenarioApplicationFailure() returns (slot: Option<string>, toast: Option<Notice>)
    ensures slot == None
    ensures toast == Some(ErrorNotice("Generate Video Failed: quota exceeded", 10))
  {
    var c := ReadyController();
    var request := c.Submit();
    c.OnGenerateResolved(GenerateResponse(Some(false), Some("quota exceeded"), None));
    assert FailurePrefix + "quota exceeded" == "Generate Video Failed: quota exceeded";
    slot, toast := c.videoUrl, c.notice;
  }

  /** A rejection without a message falls back to its stringification, leaves
      the slot empty, and leaves the loading message on screen although no
      request is pending any more. */
  method ScenarioTransportFailure() returns (c: Controller, slot: Option<string>, toast: Option<Notice>, loading: Loading)
    ensures c.pending == 0
    ensures slot == None
    ensures toast == Some(ErrorNotice("Generate Video Failed: {}", 10))
    ensures loading == Shown("Generating Video, please wait...", 0)
  {
    c := ReadyController();
    var request := c.Submit();
    c.OnGenerateRejected(Rejection(None, "{}"));
    assert FailurePrefix + "{}" == "Generate Video Failed: {}";
    slot, toast, loading := c.videoUrl, c.notice, c.loading;
  }

  /** Submitting twice before any response issues two requests, both carrying
      the validated values; both stay pending. */
  method ScenarioDoubleSubmit() returns (c: Controller, first: Fields, second: Fields)
    ensures first == second && Validated(first)
    ensures c.pending == 2
  {
    c := ReadyController();
    first := c.Submit();
    second := c.Submit();
  }
}
