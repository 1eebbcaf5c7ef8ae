/** Voice names and their canonical (gender-stripped) form, as the voice
    selector of the story form computes them. */
module Voices {
  import opened Options
  import opened Text

  const FemaleMarker := "-Female"
  const MaleMarker := "-Male"

  /** Neither gender marker occurs anywhere in `v`. */
  predicate Unmarked(v: string) {
    !Contains(v, FemaleMarker) && !Contains(v, MaleMarker)
  }

  /** `v.replace('-Female', '').replace('-Male', '')`: the first occurrence of
      "-Female" is removed, then the first occurrence of "-Male" in what is
      left. A name is returned unchanged exactly when it holds neither marker,
      and the result is never longer than the name. */
  function Canonicalize(v: string): (r: string)
    ensures r == v <==> Unmarked(v)
    ensures |r| <= |v|
  {
    ReplaceFirst(ReplaceFirst(v, FemaleMarker, ""), MaleMarker, "")
  }

  lemma MarkersDashLed()
    ensures DashLed(FemaleMarker) && DashLed(MaleMarker)
  {
  }

  /** A name X + "-Female", with X holding neither marker, is mapped to X. */
  lemma CanonicalizeStripsFemale(x: string)
    requires Unmarked(x)
    ensures Canonicalize(x + FemaleMarker) == x
  {
    MarkersDashLed();
    FirstAtSuffix(x, FemaleMarker);
    assert (x + FemaleMarker)[..|x|] == x;
    assert ReplaceFirst(x + FemaleMarker, FemaleMarker, "") == x;
  }

  /** A name X + "-Male", with X holding neither marker, is mapped to X. */
  lemma CanonicalizeStripsMale(x: string)
    requires Unmarked(x)
    ensures Canonicalize(x + MaleMarker) == x
  {
    MarkersDashLed();
    AbsentAfterShortTail(x, MaleMarker, FemaleMarker);
    FirstAtSuffix(x, MaleMarker);
    assert (x + MaleMarker)[..|x|] == x;
  }

  /** The leftmost "-Female" in "a-Fe-Femalemale" is the one at index 4. */
  lemma SampleFirstFemale()
    ensures FirstAt("a-Fe-Femalemale", FemaleMarker, 4)
  {
    var s := "a-Fe-Femalemale";
    assert s[4..11] == FemaleMarker;
    forall j: nat | j < 4 ensures !OccursAt(s, FemaleMarker, j) {
      if j == 1 {
        assert s[j..j + 7][3] == s[4] != FemaleMarker[3];
      } else {
        assert s[j..j + 7][0] == s[j] != '-';
      }
    }
  }

  /** "a-Female" holds no "-Male". */
  lemma SampleNoMale()
    ensures !Contains("a-Female", MaleMarker)
  {
    var s := "a-Female";
    forall i: nat | i <= |s| ensures !OccursAt(s, MaleMarker, i) {
      if i + 5 <= |s| {
        if i == 1 {
          assert s[i..i + 5][1] == s[2] != MaleMarker[1];
        } else {
          assert s[i..i + 5][0] == s[i] != '-';
        }
      }
    }
  }

  /** The first pass over "a-Fe-Femalemale" removes the "-Female" at index 4
      and finds no "-Male" in what is left. */
  lemma SampleFirstPass()
    ensures Canonicalize("a-Fe-Femalemale") == "a-Female"
  {
    var s := "a-Fe-Femalemale";
    SampleFirstFemale();
    var t := ReplaceFirst(s, FemaleMarker, "");
    assert t == s[..4] + s[11..];
    assert t == "a-Female";
    SampleNoMale();
  }

  /** The second pass over "a-Female" removes its "-Female". */
  lemma SampleSecondPass()
    ensures Canonicalize("a-Female") == "a"
  {
    assert Unmarked("a");
    CanonicalizeStripsFemale("a");
    assert "a" + FemaleMarker == "a-Female";
  }

  /** Canonicalize only strips the first occurrence of each marker, so it is
      not idempotent: removing "-Female" from the middle of a name can
      assemble a new "-Female", which a second pass then removes. */
  lemma CanonicalizeNotIdempotent()
    ensures Canonicalize(Canonicalize("a-Fe-Femalemale")) != Canonicalize("a-Fe-Femalemale")
    ensures Canonicalize("a-Fe-Femalemale") == "a-Female"
    ensures Canonicalize("a-Female") == "a"
  {
    SampleFirstPass();
    SampleSecondPass();
  }

  /** A name in which no dash is followed by 'F' or 'M' holds neither marker. */
  lemma UnmarkedByDashes(s: string)
    requires forall i :: 0 <= i < |s| - 1 && s[i] == '-' ==> s[i + 1] != 'F' && s[i + 1] != 'M'
    ensures Unmarked(s)
  {
    forall i: nat | i <= |s| ensures !OccursAt(s, FemaleMarker, i) && !OccursAt(s, MaleMarker, i) {
      if i + 2 <= |s| {
        assert s[i..i + 2] == [s[i], s[i + 1]];
      }
    }
  }

  /** One option of the voice selector: its key and displayed `display` text are the
      catalog name, its submitted value the canonical name. */
  datatype VoiceOption = VoiceOption(display: string, value: string)

  /** The selector's options for the current voice list, one per entry,
      in list order. */
  function VoiceOptions(voices: seq<string>): (opts: seq<VoiceOption>)
    ensures |opts| == |voices|
    ensures forall i :: 0 <= i < |voices| ==> opts[i].display == voices[i]
    ensures forall i :: 0 <= i < |voices| ==> opts[i].value == Canonicalize(opts[i].display)
  {
    if voices == [] then []
    else [VoiceOption(voices[0], Canonicalize(voices[0]))] + VoiceOptions(voices[1..])
  }

  /** `v` is the value of one of the options offered for `voices`. */
  predicate Offered(v: string, voices: seq<string>) {
    exists i :: 0 <= i < |voices| && VoiceOptions(voices)[i].value == v
  }

  /** `voiceList[0]?.replace('-Female', '').replace('-Male', '')`: the voice
      picked by default for a voice list is the first option's value, and
      there is none (undefined) for an empty list. */
  function DefaultVoice(voices: seq<string>): (r: Option<string>)
    ensures r.Some? <==> |voices| > 0
    ensures r.Some? ==> r.value == VoiceOptions(voices)[0].value && Offered(r.value, voices)
  {
    if |voices| > 0 then Some(Canonicalize(voices[0])) else None
  }
}
