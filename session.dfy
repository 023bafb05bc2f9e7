/**
 * The widget state of the dashboard: one slider per catalogue asset, keyed
 * "sl_" + name, initialised to zero, and reset from a preset whenever the
 * mode, the profile or the thesis selection changes.
 */
module Session {
  import opened Wrappers

  const Manual: string := "Manual"
  const Automatic: string := "Automático"
  const Assisted: string := "Assistido"

  /** A preset allocation: weights by asset name. */
  type Preset = map<string, real>

  /** The state key of an asset's slider. */
  function SliderKey(name: string): string
  {
    "sl_" + name
  }

  lemma SliderKeyInjective(a: string, b: string)
    ensures SliderKey(a) == SliderKey(b) <==> a == b
  {
    if SliderKey(a) == SliderKey(b) {
      assert a == SliderKey(a)[3..];
      assert b == SliderKey(b)[3..];
    }
  }

  /** A selection counts only when it is present and not empty. */
  predicate Selected(o: Option<string>)
  {
    o.Some? && o.value != ""
  }

  /**
   * The preset the mode calls for: the selected profile's weights in automatic
   * mode, the selected thesis's weights in assisted mode, no weights otherwise;
   * a selection that names no preset fails with that name.
   */
  function PresetFor(mode: Option<string>, profile: Option<string>, thesis: Option<string>,
                     profiles: map<string, Preset>, theses: map<string, Preset>): (r: Result<Preset, string>)
    ensures r.Failure? <==>
              (mode == Some(Automatic) && Selected(profile) && profile.value !in profiles) ||
              (mode == Some(Assisted) && Selected(thesis) && thesis.value !in theses)
    ensures r.Failure? && mode == Some(Automatic) ==> r.error == profile.value
    ensures r.Failure? && mode == Some(Assisted) ==> r.error == thesis.value
    ensures r.Success? && r.value != map[] ==>
              (mode == Some(Automatic) && Selected(profile) && r.value == profiles[profile.value]) ||
              (mode == Some(Assisted) && Selected(thesis) && r.value == theses[thesis.value])
    ensures mode == Some(Automatic) && Selected(profile) && profile.value in profiles ==>
              r == Success(profiles[profile.value])
    ensures mode == Some(Assisted) && Selected(thesis) && thesis.value in theses ==>
              r == Success(theses[thesis.value])
    ensures (mode != Some(Automatic) || !Selected(profile)) && (mode != Some(Assisted) || !Selected(thesis)) ==>
              r == Success(map[])
  {
    if mode == Some(Automatic) then
      if Selected(profile) then
        if profile.value in profiles then Success(profiles[profile.value]) else Failure(profile.value)
      else Success(map[])
    else if mode == Some(Assisted) then
      if Selected(thesis) then
        if thesis.value in theses then Success(theses[thesis.value]) else Failure(thesis.value)
      else Success(map[])
    else Success(map[])
  }

  /** An asset's weight in a preset, zero when the preset leaves it out. */
  function WeightOrZero(pesos: Preset, name: string): real
  {
    if name in pesos then pesos[name] else 0.0
  }

  /** The sliders after setting each named asset's slider to its preset weight, in order. */
  function Assigned(sliders: map<string, real>, names: seq<string>, pesos: Preset): map<string, real>
  {
    if names == [] then sliders
    else
      var k := names[|names| - 1];
      Assigned(sliders, names[..|names| - 1], pesos)[SliderKey(k) := WeightOrZero(pesos, k)]
  }

  /**
   * After assignment every named asset's slider holds its preset weight or zero,
   * every other key keeps its value, and only the named sliders are added.
   */
  lemma {:induction false} AssignedSpec(sliders: map<string, real>, names: seq<string>, pesos: Preset)
    ensures forall k :: k in names ==>
              SliderKey(k) in Assigned(sliders, names, pesos) && Assigned(sliders, names, pesos)[SliderKey(k)] == WeightOrZero(pesos, k)
    ensures forall key :: key in sliders && (forall k :: k in names ==> key != SliderKey(k)) ==>
              key in Assigned(sliders, names, pesos) && Assigned(sliders, names, pesos)[key] == sliders[key]
    ensures Assigned(sliders, names, pesos).Keys == sliders.Keys + (set k | k in names :: SliderKey(k))
  {
    if names != [] {
      var p, last := names[..|names| - 1], names[|names| - 1];
      AssignedSpec(sliders, p, pesos);
      assert forall k :: k in names <==> k in p || k == last;
      forall k | k in names
        ensures Assigned(sliders, names, pesos)[SliderKey(k)] == WeightOrZero(pesos, k)
      {
        SliderKeyInjective(k, last);
      }
      assert (set k | k in names :: SliderKey(k)) == (set k | k in p :: SliderKey(k)) + {SliderKey(last)};
    }
  }

  /** The sliders after giving every named asset without a slider one at zero. */
  function Initialised(sliders: map<string, real>, names: seq<string>): map<string, real>
  {
    if names == [] then sliders
    else
      var prev := Initialised(sliders, names[..|names| - 1]);
      var key := SliderKey(names[|names| - 1]);
      if key in prev then prev else prev[key := 0.0]
  }

  /** Initialisation adds a zero slider for each named asset that lacks one and changes no existing value. */
  lemma {:induction false} InitialisedSpec(sliders: map<string, real>, names: seq<string>)
    ensures forall key :: key in sliders ==> key in Initialised(sliders, names) && Initialised(sliders, names)[key] == sliders[key]
    ensures forall k :: k in names && SliderKey(k) !in sliders ==>
              SliderKey(k) in Initialised(sliders, names) && Initialised(sliders, names)[SliderKey(k)] == 0.0
    ensures Initialised(sliders, names).Keys == sliders.Keys + (set k | k in names :: SliderKey(k))
  {
    if names != [] {
      var p, last := names[..|names| - 1], names[|names| - 1];
      InitialisedSpec(sliders, p);
      assert forall k :: k in names <==> k in p || k == last;
      assert (set k | k in names :: SliderKey(k)) == (set k | k in p :: SliderKey(k)) + {SliderKey(last)};
      forall k | k in names && SliderKey(k) !in sliders
        ensures Initialised(sliders, names)[SliderKey(k)] == 0.0
      {
        SliderKeyInjective(k, last);
      }
    }
  }

  /** An absent selection, or a mode that is neither automatic nor assisted, zeroes every named slider. */
  lemma MissingSelectionZeroes(mode: Option<string>, profile: Option<string>, thesis: Option<string>,
                               profiles: map<string, Preset>, theses: map<string, Preset>,
                               sliders: map<string, real>, names: seq<string>)
    requires mode != Some(Automatic) || !Selected(profile)
    requires mode != Some(Assisted) || !Selected(thesis)
    ensures PresetFor(mode, profile, thesis, profiles, theses) == Success(map[])
    ensures forall k :: k in names ==>
              SliderKey(k) in Assigned(sliders, names, map[]) && Assigned(sliders, names, map[])[SliderKey(k)] == 0.0
  {
    AssignedSpec(sliders, names, map[]);
  }

  /** The part of the dashboard's session state the slider logic reads and writes. */
  class SessionState {
    var mode: Option<string>
    var profile: Option<string>
    var thesis: Option<string>
    var sliders: map<string, real>

    constructor (mode: Option<string>, profile: Option<string>, thesis: Option<string>, sliders: map<string, real>)
      ensures this.mode == mode && this.profile == profile && this.thesis == thesis && this.sliders == sliders
    {
      this.mode := mode;
      this.profile := profile;
      this.thesis := thesis;
      this.sliders := sliders;
    }

    /** The start-up loop: every asset without a slider gets one at zero. */
    method InitSliders(names: seq<string>)
      modifies this
      ensures sliders == Initialised(old(sliders), names)
      ensures mode == old(mode) && profile == old(profile) && thesis == old(thesis)
    {
      for i := 0 to |names|
        invariant sliders == Initialised(old(sliders), names[..i])
        invariant mode == old(mode) && profile == old(profile) && thesis == old(thesis)
      {
        assert names[..i + 1][..i] == names[..i];
        var key := SliderKey(names[i]);
        if key !in sliders {
          sliders := sliders[key := 0.0];
        }
      }
      assert names[..|names|] == names;
    }

    /**
     * `atualizar_reativo`: outside manual mode, set every asset's slider to the
     * weight the selected preset gives it, or zero; a selection naming no preset
     * fails before any slider changes.
     */
    method Refresh(names: seq<string>, profiles: map<string, Preset>, theses: map<string, Preset>)
        returns (o: Outcome<string>)
      modifies this
      ensures mode == old(mode) && profile == old(profile) && thesis == old(thesis)
      ensures old(mode) == Some(Manual) ==> o == Pass && sliders == old(sliders)
      ensures old(mode) != Some(Manual) ==>
        var preset := PresetFor(old(mode), old(profile), old(thesis), profiles, theses);
        (preset.Failure? ==> o == Fail(preset.error) && sliders == old(sliders)) &&
        (preset.Success? ==> o == Pass && sliders == Assigned(old(sliders), names, preset.value))
    {
      var pesos: Preset := map[];
      if mode == Some(Automatic) {
        if profile.Some? && profile.value != "" {
          if profile.value !in profiles {
            return Fail(profile.value);
          }
          pesos := profiles[profile.value];
        }
      } else if mode == Some(Assisted) {
        if thesis.Some? && thesis.value != "" {
          if thesis.value !in theses {
            return Fail(thesis.value);
          }
          pesos := theses[thesis.value];
        }
      }
      if mode == Some(Manual) {
        return Pass;
      }
      assert PresetFor(mode, profile, thesis, profiles, theses) == Success(pesos);
      for i := 0 to |names|
        invariant sliders == Assigned(old(sliders), names[..i], pesos)
        invariant mode == old(mode) && profile == old(profile) && thesis == old(thesis)
      {
        assert names[..i + 1][..i] == names[..i];
        sliders := sliders[SliderKey(names[i]) := WeightOrZero(pesos, names[i])];
      }
      assert names[..|names|] == names;
      o := Pass;
    }
  }
}
