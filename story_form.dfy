/** The story form's controller: the field store, the voice lists, the
    provider catalog, the video slot and the notification state, with one
    method per event the component reacts to. */
module StoryForm {
  import opened Options
  import opened Voices
  import opened Forms
  import opened Generation

  /** `getSelectVoiceList(language, allVoices)`: the voices offered for a
      language. Its rule is not part of this model; callers supply it. */
  type VoiceSelector = (string, seq<string>) -> seq<string>

  class Controller {
    /** The form's field values. */
    var fields: Fields
    /** The whole voice catalog and the voices offered for the current language. */
    var allVoiceList: seq<string>
    var nowVoiceList: seq<string>
    /** The provider catalog. */
    var textProviders: seq<string>
    var imageProviders: seq<string>
    /** The video slot of the shared store. */
    var videoUrl: Option<string>
    /** The loading indicator and the last success or error toast. */
    var loading: Loading
    var notice: Option<Notice>
    /** Generation requests issued and not yet settled. */
    ghost var pending: nat

    /** The slot never holds an empty URL, and a set voice name is always the
        value of one of the options currently offered. */
    ghost predicate Valid()
      reads this
    {
      (videoUrl.Some? ==> videoUrl.value != "") &&
      (VoiceName in fields ==> Offered(fields[VoiceName], nowVoiceList))
    }

    /** Mount: static initial values, empty catalogs, empty slot, no toast. */
    constructor ()
      ensures Valid()
      ensures fields == InitialFields
      ensures allVoiceList == [] && nowVoiceList == []
      ensures textProviders == [] && imageProviders == []
      ensures videoUrl == None && loading == Cleared && notice == None && pending == 0
    {
      fields := InitialFields;
      allVoiceList, nowVoiceList := [], [];
      textProviders, imageProviders := [], [];
      videoUrl, loading, notice := None, Cleared, None;
      pending := 0;
    }

    /** The provider catalog arrives: it is stored, and the provider effect
        writes `text[2]` and `image[1]` into the two provider fields when
        the length guard holds; otherwise the fields are left alone. */
    method OnProvidersLoaded(text: seq<string>, image: seq<string>)
      requires Valid()
      modifies this
      ensures Valid()
      ensures textProviders == text && imageProviders == image
      ensures ProvidersUsable(text, image) ==>
                fields == old(fields)[TextLlmProvider := text[2]][ImageLlmProvider := image[1]]
      ensures !ProvidersUsable(text, image) ==> fields == old(fields)
      ensures allVoiceList == old(allVoiceList) && nowVoiceList == old(nowVoiceList)
      ensures videoUrl == old(videoUrl) && loading == old(loading) && notice == old(notice)
      ensures pending == old(pending)
    {
      textProviders, imageProviders := text, image;
      ProviderDefaultsEffect(fields, text, image);
      fields := Merge(fields, ProviderDefaults(text, image));
    }

    /** The voice catalog arrives: it replaces the stored catalog only when it
        is present and non-empty. Neither the offered voices nor any field
        changes. */
    method OnVoicesLoaded(voices: Option<seq<string>>)
      requires Valid()
      modifies this
      ensures Valid()
      ensures allVoiceList == if voices.Some? && |voices.value| > 0 then voices.value else old(allVoiceList)
      ensures fields == old(fields) && nowVoiceList == old(nowVoiceList)
      ensures textProviders == old(textProviders) && imageProviders == old(imageProviders)
      ensures videoUrl == old(videoUrl) && loading == old(loading) && notice == old(notice)
      ensures pending == old(pending)
    {
      if voices.Some? && |voices.value| > 0 {
        allVoiceList := voices.value;
      }
    }

    /** A different language is picked: the field takes the language, the
        offered voices become `select(lang, allVoiceList)`, and the voice name
        becomes the canonical first offered voice, or undefined when none is
        offered. No other field changes. The select reports a change only
        when its value differs from the current one, so picking the language
        already selected is no event at all. */
    method OnLanguageChange(lang: string, select: VoiceSelector)
      requires Valid()
      requires Language !in fields || fields[Language] != lang
      modifies this
      ensures Valid()
      ensures nowVoiceList == select(lang, old(allVoiceList))
      ensures Language in fields && fields[Language] == lang
      ensures VoiceName in fields <==> |nowVoiceList| > 0
      ensures VoiceName in fields ==> fields[VoiceName] == Canonicalize(nowVoiceList[0])
      ensures AgreeExcept(fields, old(fields), {Language, VoiceName})
      ensures allVoiceList == old(allVoiceList)
      ensures textProviders == old(textProviders) && imageProviders == old(imageProviders)
      ensures videoUrl == old(videoUrl) && loading == old(loading) && notice == old(notice)
      ensures pending == old(pending)
    {
      // The form item records the selected value before the select's own
      // change handler runs.
      var voiceList := select(lang, allVoiceList);
      var voice := DefaultVoice(voiceList);
      LanguageThenVoice(fields, lang, voice);
      nowVoiceList := voiceList;
      fields := Merge(fields[Language := lang], map[VoiceName := voice]);
    }

    /** The user picks the `i`-th offered voice: the voice name becomes that
        option's value, the canonical form of its displayed name. */
    method OnVoiceSelect(i: nat)
      requires Valid()
      requires i < |nowVoiceList|
      modifies this
      ensures Valid()
      ensures fields == old(fields)[VoiceName := Canonicalize(old(nowVoiceList)[i])]
      ensures nowVoiceList == old(nowVoiceList) && allVoiceList == old(allVoiceList)
      ensures textProviders == old(textProviders) && imageProviders == old(imageProviders)
      ensures videoUrl == old(videoUrl) && loading == old(loading) && notice == old(notice)
      ensures pending == old(pending)
    {
      fields := fields[VoiceName := VoiceOptions(nowVoiceList)[i].value];
    }

    /** The user edits the prompt or the segment count: that field takes the
        input's text. */
    method OnInput(k: Field, text: string)
      requires Valid()
      requires k == StoryPrompt || k == Segments
      modifies this
      ensures Valid()
      ensures fields == old(fields)[k := text]
      ensures nowVoiceList == old(nowVoiceList) && allVoiceList == old(allVoiceList)
      ensures textProviders == old(textProviders) && imageProviders == old(imageProviders)
      ensures videoUrl == old(videoUrl) && loading == old(loading) && notice == old(notice)
      ensures pending == old(pending)
    {
      fields := fields[k := text];
    }

    /** `onFinish` on validated values: shows the indefinite loading message
        and issues one generation request carrying the field values. Nothing
        stops a second submission while one is pending. */
    method Submit() returns (request: Fields)
      requires Valid()
      requires Validated(fields)
      modifies this
      ensures Valid()
      ensures request == old(fields)
      ensures loading == Shown(LoadingText, 0)
      ensures pending == old(pending) + 1
      ensures fields == old(fields)
      ensures nowVoiceList == old(nowVoiceList) && allVoiceList == old(allVoiceList)
      ensures textProviders == old(textProviders) && imageProviders == old(imageProviders)
      ensures videoUrl == old(videoUrl) && notice == old(notice)
    {
      loading := Shown(LoadingText, 0);
      request := fields;
      pending := pending + 1;
    }

    /** The generation request resolves. The loading indicator is cleared
        first. On `success === false` the error toast carries the server's
        message (or the fallback) and the slot is unchanged; otherwise a
        success toast is raised and the slot takes `data.video_url` exactly
        when it is truthy. */
    method OnGenerateResolved(resp: GenerateResponse)
      requires Valid()
      requires pending > 0
      modifies this
      ensures Valid()
      ensures loading == Cleared
      ensures Rejected(resp) ==>
                notice == Some(ErrorNotice(FailurePrefix + OrElse(resp.message, FallbackMessage), ErrorSeconds)) &&
                videoUrl == old(videoUrl)
      ensures !Rejected(resp) ==> notice == Some(SuccessNotice(SuccessText))
      ensures !Rejected(resp) && Truthy(resp.videoUrl) ==> videoUrl == resp.videoUrl
      ensures !Rejected(resp) && !Truthy(resp.videoUrl) ==> videoUrl == old(videoUrl)
      ensures pending == old(pending) - 1
      ensures fields == old(fields)
      ensures nowVoiceList == old(nowVoiceList) && allVoiceList == old(allVoiceList)
      ensures textProviders == old(textProviders) && imageProviders == old(imageProviders)
    {
      pending := pending - 1;
      loading := Cleared;
      if Rejected(resp) {
        // The `then` handler throws; its `catch` raises the toast.
        ApplicationFailureNotice(resp);
        notice := Some(CaughtNotice(ThrownError(resp)));
      } else {
        notice := Some(SuccessNotice(SuccessText));
        videoUrl := SlotAfterSuccess(videoUrl, resp);
      }
    }

    /** The generation request is rejected: an error toast with the error's
        message, or its stringification; the slot is unchanged and the
        loading indicator is NOT cleared. */
    method OnGenerateRejected(err: Rejection)
      requires Valid()
      requires pending > 0
      modifies this
      ensures Valid()
      ensures notice == Some(ErrorNotice(FailurePrefix + OrElse(err.message, err.stringified), ErrorSeconds))
      ensures loading == old(loading) && videoUrl == old(videoUrl)
      ensures pending == old(pending) - 1
      ensures fields == old(fields)
      ensures nowVoiceList == old(nowVoiceList) && allVoiceList == old(allVoiceList)
      ensures textProviders == old(textProviders) && imageProviders == old(imageProviders)
    {
      pending := pending - 1;
      notice := Some(CaughtNotice(err));
    }
  }
}
