/**
  The home page's trip form: its initial state, the preference toggle, the
  preset cards and the rule that enables the submit button.
 */
module HomePage {
  import opened Seqs

  datatype TravelForm = TravelForm(
    agentName: string, destination: string, days: int, budget: string,
    travelers: int, preferences: seq<string>, extraRequirements: string)

  /** The form's state when the page opens. */
  function InitialForm(): (f: TravelForm)
    ensures f.agentName == "我的周末旅行" && f.days == 2 && f.travelers == 2
    ensures f.destination == "" && f.budget == "" && f.extraRequirements == "" && f.preferences == []
  {
    TravelForm("我的周末旅行", "", 2, "", 2, [], "")
  }

  /** The submit button is disabled while the destination is empty. */
  predicate SubmitDisabled(f: TravelForm)
  {
    f.destination == ""
  }

  lemma InitialSubmitDisabled()
    ensures SubmitDisabled(InitialForm())
  {
  }

  function Differs(value: string): string -> bool
  {
    (p: string) => p != value
  }

  /** `handlePreferenceToggle`: a chosen value is removed (every copy), another one is appended. */
  function TogglePreference(f: TravelForm, value: string): TravelForm
  {
    f.(preferences := if value in f.preferences then Filter(f.preferences, Differs(value))
                      else f.preferences + [value])
  }

  /**
    Toggling changes only `preferences`: a present value disappears with all
    its copies and the rest stay in order; an absent value goes to the end.
   */
  lemma ToggleEffect(f: TravelForm, value: string)
    ensures var g := TogglePreference(f, value);
      && g == f.(preferences := g.preferences)
      && (value in f.preferences ==>
            && value !in g.preferences
            && IsSubsequence(g.preferences, f.preferences)
            && forall p :: p != value ==> (p in g.preferences <==> p in f.preferences))
      && (value !in f.preferences ==> g.preferences == f.preferences + [value])
  {
    if value in f.preferences {
      FilterMembers(f.preferences, Differs(value));
      FilterIsSubsequence(f.preferences, Differs(value));
    }
  }

  /** Toggling an absent value twice gives the form back. */
  lemma ToggleTwiceRestores(f: TravelForm, value: string)
    requires value !in f.preferences
    ensures TogglePreference(TogglePreference(f, value), value) == f
  {
    var prefs := f.preferences + [value];
    assert value in prefs;
    FilterAppend(f.preferences, [value], Differs(value));
    FilterAll(f.preferences, Differs(value));
    assert Filter([value], Differs(value)) == [];
  }

  /** A preference button of page.tsx: `labelText` is its `label` (a reserved word in Dafny), `value` its `value`. */
  datatype PreferenceOption = PreferenceOption(labelText: string, value: string)

  /** The preference buttons; a button is lit when its `value` is in `preferences`. */
  const PreferenceOptions: seq<PreferenceOption> := [
    PreferenceOption("美食", "food"), PreferenceOption("户外", "outdoor"),
    PreferenceOption("购物", "shopping"), PreferenceOption("文化", "culture"),
    PreferenceOption("放松", "relax"), PreferenceOption("冒险", "adventure"),
    PreferenceOption("亲子", "family")]

  predicate Selected(f: TravelForm, o: PreferenceOption)
  {
    o.value in f.preferences
  }

  datatype Preset = Preset(title: string, destination: string, days: int, budget: string, preferences: seq<string>)

  /** The preset cards as written: their preferences are button labels. */
  const PresetExamples: seq<Preset> := [
    Preset("上海2天美食之旅", "上海", 2, "3000元", ["美食"]),
    Preset("成都周末户外放松", "成都", 3, "2500元", ["户外", "美食"]),
    Preset("京都3天文化体验", "京都", 3, "5000元", ["文化", "购物"])]

  /** `loadPreset`: the card's destination, days, budget and preferences replace the form's. */
  function LoadPreset(f: TravelForm, p: Preset): TravelForm
  {
    f.(destination := p.destination, days := p.days, budget := p.budget, preferences := p.preferences)
  }

  /**
    A preset overwrites exactly its four fields and keeps the name, the
    travellers and the extra requirements; a second preset replaces the first altogether.
   */
  lemma LoadPresetEffect(f: TravelForm, p: Preset, q: Preset)
    ensures var g := LoadPreset(f, p);
      && g.agentName == f.agentName && g.travelers == f.travelers && g.extraRequirements == f.extraRequirements
      && g.destination == p.destination && g.days == p.days && g.budget == p.budget && g.preferences == p.preferences
      && LoadPreset(g, q) == LoadPreset(f, q)
  {
  }

  /**
    As written, loading a preset lights no preference button, although the
    card names preferences that have buttons.
   */
  lemma PresetLightsNoButton(f: TravelForm, i: nat)
    requires i < |PresetExamples|
    ensures forall o :: o in PreferenceOptions ==> !Selected(LoadPreset(f, PresetExamples[i]), o)
    ensures exists o :: o in PreferenceOptions && o.labelText in PresetExamples[i].preferences
  {
    assert PreferenceOptions[0].labelText == "美食" && PreferenceOptions[3].labelText == "文化";
    if i == 0 || i == 1 {
      assert PreferenceOptions[0].labelText in PresetExamples[i].preferences;
    } else {
      assert PreferenceOptions[3].labelText in PresetExamples[i].preferences;
    }
  }

  /** The button value for a label, or the label itself when no button has it. */
  function ValueOfLabel(want: string, options: seq<PreferenceOption>): string
  {
    if options == [] then want
    else if options[0].labelText == want then options[0].value
    else ValueOfLabel(want, options[1..])
  }

  function ValuesOfLabels(labels: seq<string>): seq<string>
  {
    if labels == [] then [] else [ValueOfLabel(labels[0], PreferenceOptions)] + ValuesOfLabels(labels[1..])
  }

  /** A preset card with its preferences written as button values. */
  function CorrectedPreset(p: Preset): Preset
  {
    p.(preferences := ValuesOfLabels(p.preferences))
  }

  /** The preset cards with button values, as the buttons expect them. */
  function Presets(): (ps: seq<Preset>)
    ensures |ps| == |PresetExamples|
  {
    [CorrectedPreset(PresetExamples[0]), CorrectedPreset(PresetExamples[1]), CorrectedPreset(PresetExamples[2])]
  }

  lemma CorrectedPresetValues()
    ensures Presets()[0].preferences == ["food"]
    ensures Presets()[1].preferences == ["outdoor", "food"]
    ensures Presets()[2].preferences == ["culture", "shopping"]
  {
    var opts := PreferenceOptions;
    assert ValueOfLabel("美食", opts) == "food";
    assert ValueOfLabel("户外", opts) == "outdoor";
    assert ValueOfLabel("文化", opts) == "culture";
    assert ValueOfLabel("购物", opts) == "shopping";
  }

  /** Exactly the buttons whose labels are in `labels` are lit by `prefs`. */
  predicate LightsExactly(prefs: seq<string>, labels: seq<string>)
  {
    forall k :: 0 <= k < |PreferenceOptions| ==>
      (PreferenceOptions[k].value in prefs <==> PreferenceOptions[k].labelText in labels)
  }

  lemma LightsFirstPreset()
    ensures LightsExactly(["food"], ["美食"])
  {
    var opts := PreferenceOptions;
    forall k | 0 <= k < |opts| ensures opts[k].value in ["food"] <==> opts[k].labelText in ["美食"] {
      assert k == 0 || opts[k].value[0] != 'f' || opts[k].value[1] != 'o';
      assert k == 0 || opts[k].labelText[0] != '美';
    }
  }

  lemma LightsSecondPreset()
    ensures LightsExactly(["outdoor", "food"], ["户外", "美食"])
  {
    var opts := PreferenceOptions;
    forall k | 0 <= k < |opts| ensures opts[k].value in ["outdoor", "food"] <==> opts[k].labelText in ["户外", "美食"] {
      if k == 2 {
        assert opts[k].labelText[0] == '购';
      } else if k == 3 {
        assert opts[k].labelText[0] == '文';
      } else if k == 4 {
        assert opts[k].labelText[0] == '放';
      } else if k == 5 {
        assert opts[k].labelText[0] == '冒';
      } else if k == 6 {
        assert opts[k].labelText[0] == '亲';
      }
    }
  }

  lemma LightsThirdPreset()
    ensures LightsExactly(["culture", "shopping"], ["文化", "购物"])
  {
    var opts := PreferenceOptions;
    forall k | 0 <= k < |opts| ensures opts[k].value in ["culture", "shopping"] <==> opts[k].labelText in ["文化", "购物"] {
      assert k == 2 || k == 3 || (opts[k].value[0] != 'c' && opts[k].value[0] != 's');
      assert k == 2 || k == 3 || (opts[k].labelText[0] != '文' && opts[k].labelText[0] != '购');
    }
  }

  /** With the corrected cards a preset lights exactly the buttons whose names it lists. */
  lemma CorrectedPresetLightsItsButtons(f: TravelForm, i: nat)
    requires i < |Presets()|
    ensures forall k :: 0 <= k < |PreferenceOptions| ==>
      (Selected(LoadPreset(f, Presets()[i]), PreferenceOptions[k]) <==> PreferenceOptions[k].labelText in PresetExamples[i].preferences)
    ensures LoadPreset(f, Presets()[i]).destination == PresetExamples[i].destination
    ensures !SubmitDisabled(LoadPreset(f, Presets()[i]))
  {
    CorrectedPresetValues();
    if i == 0 {
      LightsFirstPreset();
    } else if i == 1 {
      LightsSecondPreset();
    } else {
      LightsThirdPreset();
    }
  }
}
