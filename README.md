# Story form controller

A Dafny model of the story form of story-flicks' web front end
(`frontend/src/components/StoryFrom/index.tsx`): the component that gathers
the settings for a generated video (narration language, voice, prompt, segment
count, and hidden provider, model and resolution fields), fills defaults from
two catalogs that arrive asynchronously, and submits one generation request
whose outcome is shown as a toast and, on success, as the current video.

The component is modelled as a class, `StoryForm.Controller`, whose fields are
the component's state:

- `fields`: the form's field store, a map from the nine registered fields to
  their string values (a missing key is `undefined`);
- `allVoiceList` and `nowVoiceList`: the voice catalog and the voices offered
  for the selected language;
- `textProviders` and `imageProviders`: the provider catalog;
- `videoUrl`: the video slot of the shared store;
- `loading` and `notice`: the loading indicator (cleared, or shown with a text
  and a duration, 0 meaning until destroyed) and the last success or error toast.

Each event the component reacts to is one method. The asynchronous services
(`getLLMProviders`, `getVoiceList`, `generateVideo`) are not modelled: what
they deliver is the argument of the method for that event
(`OnProvidersLoaded`, `OnVoicesLoaded`, `OnGenerateResolved`,
`OnGenerateRejected`). The voice filter `getSelectVoiceList` is a function
argument of `OnLanguageChange` whose rule is left open. Events run one after
another, as method calls.

The pure parts are functions. `Text.ReplaceFirst` is JavaScript's
`String.prototype.replace` with a string pattern and a replacement without `$`
sequences: only the first occurrence is replaced. Indices count characters,
not UTF-16 code units. `Voices.Canonicalize` is the gender stripping
`v.replace('-Female', '').replace('-Male', '')` built from it.
`Forms.Merge` is `form.setFieldsValue`. `Forms.ProviderDefaults` is the
provider effect's guarded patch. `Generation` holds the mapping of a response
or rejection to a toast.

`Controller.Valid()` is the object invariant. It says two things. The video
slot never holds an empty URL. A voice name that is set is always the value
of one of the voice options currently offered. Every method keeps it.

Points where the code behaves differently from what a reader might expect,
and which the model follows:

- `Canonicalize` removes the first occurrence of each marker anywhere in the
  name, not only a trailing suffix, and it is not idempotent:
  "a-Fe-Femalemale" becomes "a-Female" and then "a"
  (`Voices.CanonicalizeNotIdempotent`). For a name made of an unmarked stem
  plus one marker, it does strip exactly that marker
  (`Voices.CanonicalizeStripsFemale`, `Voices.CanonicalizeStripsMale`).
- There is no single-flight guard. `Submit` may run while another request is
  pending (`Scenarios.ScenarioDoubleSubmit`).
- The loading indicator is not retired on a transport rejection. It stays on
  screen after the error toast (`Scenarios.ScenarioTransportFailure`). It is
  cleared on every resolved response, including `success === false`.
- Picking a language also writes the `language` field. The form item records
  the value before the select's own change handler runs.
- The select reports a change only when a different language is picked, so
  `OnLanguageChange` requires that the language differs from the current one.
  Re-picking the selected language does nothing, which keeps a voice the user
  picked. It also means a voice catalog arriving after a language was picked
  is not offered until a different language is chosen
  (`Scenarios.ScenarioStaleVoices`).
- Two segment bounds exist: 1 to 10 in the validation rule and 1 to 8 on the
  input. Neither is modelled (see Left out).

## Model

| member | source | states |
|---|---|---|
| `Options.OrElse` | frontend/src/components/StoryFrom/index.tsx:71-80 | JavaScript's logical or on an optional string: the first operand when present and non-empty, else the second; empty only when the first is falsy and the second empty |
| `Text.IndexFrom` | frontend/src/components/StoryFrom/index.tsx:168 | the result is an occurrence of the pattern at or after `from`, and no occurrence lies between `from` and it (none at all past `from` when the result is none) |
| `Text.IndexOf` | frontend/src/components/StoryFrom/index.tsx:168 | a result exists exactly when the pattern occurs, and it is the leftmost occurrence |
| `Text.ReplaceFirst` | frontend/src/components/StoryFrom/index.tsx:168 | a string without the pattern is returned unchanged; otherwise the leftmost occurrence alone is replaced and the length changes by the difference of pattern and replacement |
| `Text.NoEarlyOccurrence` | frontend/src/components/StoryFrom/index.tsx:168 | appending a dash-led tail to a string free of a dash-led marker creates no occurrence of the marker starting inside the original string |
| `Text.FirstAtSuffix` | frontend/src/components/StoryFrom/index.tsx:168 | in `x + marker` with `x` free of the marker, the leftmost occurrence is the appended one |
| `Text.AbsentAfterShortTail` | frontend/src/components/StoryFrom/index.tsx:168 | appending "-Male" to a name free of "-Female" leaves it free of "-Female" (any dash-led tail shorter than the dash-led marker) |
| `Voices.Canonicalize` | frontend/src/components/StoryFrom/index.tsx:168 | the name comes back unchanged if and only if it holds neither "-Female" nor "-Male"; the result is never longer than the name |
| `Voices.CanonicalizeStripsFemale` | frontend/src/components/StoryFrom/index.tsx:168 | X + "-Female" maps to X when X holds neither marker |
| `Voices.CanonicalizeStripsMale` | frontend/src/components/StoryFrom/index.tsx:168 | X + "-Male" maps to X when X holds neither marker |
| `Voices.SampleFirstPass` | frontend/src/components/StoryFrom/index.tsx:168 | "a-Fe-Femalemale" maps to "a-Female" (only the first "-Female" is removed) |
| `Voices.SampleSecondPass` | frontend/src/components/StoryFrom/index.tsx:168 | "a-Female" maps to "a" |
| `Voices.CanonicalizeNotIdempotent` | frontend/src/components/StoryFrom/index.tsx:168 | canonicalizing twice differs from once: "a-Fe-Femalemale" gives "a-Female", which gives "a" |
| `Voices.UnmarkedByDashes` | frontend/src/components/StoryFrom/index.tsx:168 | a name in which no dash is followed by 'F' or 'M' holds neither marker |
| `Voices.VoiceOptions` | frontend/src/components/StoryFrom/index.tsx:186-192 | one option per offered voice, in order; each option displays the voice name and its value is `Canonicalize` of that displayed name |
| `Voices.DefaultVoice` | frontend/src/components/StoryFrom/index.tsx:168 | the default voice exists exactly when the list is non-empty, and then it is the first option's value, hence an offered value |
| `Forms.Merge` | frontend/src/components/StoryFrom/index.tsx:57-60 | `setFieldsValue`: every field the patch names takes its new value or becomes undefined; every other field is unchanged |
| `Forms.ProviderDefaults` | frontend/src/components/StoryFrom/index.tsx:56-60 | the patch names only the two provider fields; it is non-empty if and only if the text list has more than 2 entries and the image list more than 1, and then it writes `text[2]` and `image[1]` |
| `Forms.ProviderDefaultsEffect` | frontend/src/components/StoryFrom/index.tsx:56-60 | applied to any store: no field other than the two providers changes; with the guard they become `text[2]` and `image[1]`, without it the store is unchanged |
| `Forms.ProviderDefaultsOnInitial` | frontend/src/components/StoryFrom/index.tsx:117-126 | on the initial store both providers read "siliconflow" unless the guard holds, and `text[2]`, `image[1]` when it does |
| `Generation.ThrownError` | frontend/src/components/StoryFrom/index.tsx:70-71 | on `success === false` the thrown error's message is the server's message when non-empty, otherwise "Generate Video Failed"; it is never empty |
| `Generation.CaughtNotice` | frontend/src/components/StoryFrom/index.tsx:79-80 | the catch handler's toast is a 10-second error starting with "Generate Video Failed: ", followed by the error's message, or by its stringification when the message is absent or empty |
| `Generation.ApplicationFailureNotice` | frontend/src/components/StoryFrom/index.tsx:69-80 | an application failure's toast is "Generate Video Failed: " + (message or "Generate Video Failed"), for 10 seconds |
| `Generation.SlotAfterSuccess` | frontend/src/components/StoryFrom/index.tsx:75-77 | after success the slot is `data.video_url` exactly when that is present and non-empty, else its previous value; the slot never becomes empty |
| `StoryForm.Controller.constructor` | frontend/src/components/StoryFrom/index.tsx:28-36 | mount: the static initial field values, empty voice lists and provider catalog, empty slot, no loading indicator and no toast |
| `StoryForm.Controller.OnProvidersLoaded` | frontend/src/components/StoryFrom/index.tsx:39-62 | the catalog is stored; the fields become `text[2]`/`image[1]` in the two provider fields exactly when the length guard holds, and are otherwise unchanged; nothing else changes |
| `StoryForm.Controller.OnVoicesLoaded` | frontend/src/components/StoryFrom/index.tsx:45-52 | the catalog replaces `allVoiceList` only if present and non-empty; offered voices, fields and everything else unchanged |
| `StoryForm.Controller.OnLanguageChange` | frontend/src/components/StoryFrom/index.tsx:158-170 | for a language different from the current one: offered voices become `select(lang, allVoiceList)`; `language` becomes `lang`; `voice_name` is set exactly when the offered list is non-empty, to `Canonicalize` of its first entry; no other field and no other state changes |
| `StoryForm.Controller.OnVoiceSelect` | frontend/src/components/StoryFrom/index.tsx:185-194 | picking the i-th offered voice sets `voice_name` to `Canonicalize` of its name; nothing else changes |
| `StoryForm.Controller.OnInput` | frontend/src/components/StoryFrom/index.tsx:196-209 | typing into the prompt or segments input sets that field to the text; nothing else changes |
| `StoryForm.Controller.Submit` | frontend/src/components/StoryFrom/index.tsx:64-67 | on validated values: the loading indicator shows "Generating Video, please wait..." with duration 0, one request carrying the field values is issued, nothing else changes; no guard against a pending request |
| `StoryForm.Controller.OnGenerateResolved` | frontend/src/components/StoryFrom/index.tsx:68-80 | the loading indicator is cleared; on `success === false` the error toast reads "Generate Video Failed: " + (message or "Generate Video Failed") and the slot is unchanged; otherwise a success toast, and the slot takes `data.video_url` exactly when it is non-empty |
| `StoryForm.Controller.OnGenerateRejected` | frontend/src/components/StoryFrom/index.tsx:79-82 | error toast "Generate Video Failed: " + (message or stringification); slot and loading indicator unchanged |
| `Scenarios.EnUsCanonical` | frontend/src/components/StoryFrom/index.tsx:168 | "en-US-Voice1-Female" canonicalizes to "en-US-Voice1" |
| `Scenarios.ScenarioStaleVoices` | frontend/src/components/StoryFrom/index.tsx:46-48 | a language picked before the catalog arrives offers no voice and sets no voice name, and the catalog arriving afterwards does not change that |
| `Scenarios.ScenarioLanguage` | frontend/src/components/StoryFrom/index.tsx:164-170 | with a selector offering the en-US voices, picking "en-US" offers the two en-US voices and sets the voice name to "en-US-Voice1" |
| `Scenarios.ScenarioProviders` | frontend/src/components/StoryFrom/index.tsx:55-62 | catalogs ["a","b","c","d"] and ["x","y"] default the providers to "c" and "y" |
| `Scenarios.ScenarioVideo` | frontend/src/components/StoryFrom/index.tsx:64-78 | a response with a video URL puts it in the slot, shows the success toast and clears the loading indicator |
| `Scenarios.ScenarioApplicationFailure` | frontend/src/components/StoryFrom/index.tsx:69-80 | `success: false` with "quota exceeded" gives the toast "Generate Video Failed: quota exceeded" and leaves the slot empty |
| `Scenarios.ScenarioTransportFailure` | frontend/src/components/StoryFrom/index.tsx:79-82 | a rejection without a message shows its stringification, leaves the slot empty and the loading message on screen with no request pending |
| `Scenarios.ScenarioDoubleSubmit` | frontend/src/components/StoryFrom/index.tsx:64-67 | two submissions without a response in between both issue the same validated request and leave two requests pending |

`Scenarios.LocalePrefix` and `Scenarios.AnyLanguage` are stand-ins for the
voice filter, used only by the scenarios. `Scenarios.ReadyController`,
`Scenarios.EnUsVoices`, `Scenarios.FemaleNameCanonical`, `Forms.LanguageThenVoice`,
`Scenarios.InputsKeepInitial`, `Scenarios.FilledFormValidated`,
`Voices.SampleFirstFemale`, `Voices.SampleNoMale` and `Voices.MarkersDashLed`
are proof helpers.

## Left out

- JSX rendering, layout, the inline style block and the video element (lines 89-262): presentation only.
- `t(...)` label lookup and `console.log`: no effect on state.
- The failure handlers of the two catalog fetches (lines 42-44 and 50-52) only log. A failed fetch is modelled by the load method not being called.
- `getLLMProviders`, `getVoiceList` and `generateVideo` are not part of this model. What they resolve to is the argument of the matching method. For `generateVideo` a resolved value of `undefined` is the response with all three properties absent, which behaves the same; for `getVoiceList` it is the `None` argument, which the guard at index.tsx:47 ignores.
- StoryForm.Controller.OnProvidersLoaded assumes a catalog with both lists. An undefined response, a response without the text list, or one without the image list whose text list has more than two entries makes the source throw (index.tsx:56, 62). A missing image list next to a text list of at most two entries behaves like `image == []`.
- `Text.ReplaceFirst` inserts the replacement as it stands: JavaScript's `$&`, `$$`, `` $` `` and `$'` patterns are not expanded, and indices count characters rather than UTF-16 code units. The one call site (index.tsx:168) uses an empty replacement and ASCII markers, where the two agree.
- `getSelectVoiceList` (`frontend/src/utils/index`) is not part of this model. It is a function parameter, and its filtering rule is not assumed.
- Form validation belongs to the form library. `Submit` requires that every registered field is set and non-empty. The `min: 1, max: 10` rule, the input's `min={1} max={8}`, and `onFinishFailed` (which only logs) are not modelled.
- `JSON.stringify` of an arbitrary rejection is opaque: the rejection carries its stringified text. For the error thrown on `success === false` it is "{}", and it never shows because that error's message is non-empty.
- Toast timing and stacking: toasts closing after their duration, several toasts on screen at once, and `message.destroy()` removing earlier toasts. `notice` records only the last success or error toast.
- Exceptions thrown by library calls inside the `then` handler (`message.success`, `setVideoUrl`) would also reach the `catch`. They are not modelled.
- React effect scheduling and the order of the two mount-time fetches. Events are sequential method calls. The provider effect's run at mount sees empty lists and changes nothing, so the constructor covers it.
- The shared video store is a plain field. Its initial value is taken as empty, because the store's source file is not part of this model.
- The `remember: true` initial value (line 108) belongs to no form item, so it is never part of the submitted values. `FieldType` members that have no form item (`test_mode`, `task_id`, `image_style`, `voice_rate`) are not modelled.
- Every input yields a string, so `segments` is a string here. The `number` in `FieldType` is not enforced by the input.
