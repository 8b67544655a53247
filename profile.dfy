/**
 * The profile page: a nested form record edited field by field, the edit
 * toggle, and the small display rules (skill-target message, achievement
 * badge, preference button labels, the add-skill box).
 */
module Profile {
  import opened Common
  import opened Text

  /** A value held in the form: the mock record mixes text, numbers, flags and lists. */
  datatype FieldValue = TextValue(text: string) | NumberValue(number: int) | FlagValue(flag: bool) | ListValue(items: seq<string>)

  /** One section of the form (`personalInfo`, `education`, ...): field name to value. */
  type Section = map<string, FieldValue>

  /** The `formData` record: section name to section. */
  type FormData = map<string, Section>

  /**
   * `{ ...prev, [section]: { ...prev[section], [field]: value } }`. Spreading a
   * missing section spreads nothing, so an unknown section name yields a new
   * section holding just the one field.
   */
  function WithField(form: FormData, section: string, field: string, value: string): (r: FormData)
    ensures section in r && field in r[section] && r[section][field] == TextValue(value)
    ensures r.Keys == form.Keys + {section}
    ensures forall s :: s in form && s != section ==> r[s] == form[s]
    ensures section in form ==> r[section].Keys == form[section].Keys + {field}
    ensures section in form ==> forall f :: f in form[section] && f != field ==> r[section][f] == form[section][f]
    ensures section !in form ==> r[section].Keys == {field}
  {
    var current := if section in form then form[section] else map[];
    form[section := current[field := TextValue(value)]]
  }

  /** Writing a field twice keeps only the second value. */
  lemma WithFieldOverwrites(form: FormData, section: string, field: string, a: string, b: string)
    ensures WithField(WithField(form, section, field, a), section, field, b) == WithField(form, section, field, b)
  {
    var once := WithField(form, section, field, b);
    var twice := WithField(WithField(form, section, field, a), section, field, b);
    assert twice[section].Keys == once[section].Keys;
    assert twice[section] == once[section];
    assert twice.Keys == once.Keys;
  }

  /** Writing the value a field already holds changes nothing. */
  lemma WithFieldUnchanged(form: FormData, section: string, field: string, a: string)
    requires section in form && field in form[section] && form[section][field] == TextValue(a)
    ensures WithField(form, section, field, a) == form
  {
    var w := WithField(form, section, field, a);
    assert w[section] == form[section];
  }

  /** The skill card's caption: target reached, or how many percentage points remain. */
  datatype TargetMessage = TargetAchieved | ToTarget(gap: int)

  function SkillMessage(score: int, target: int): (m: TargetMessage)
    ensures m == TargetAchieved <==> score >= target
    ensures m.ToTarget? ==> m.gap > 0 && score + m.gap == target
  {
    if score >= target then TargetAchieved else ToTarget(target - score)
  }

  /** The remaining gap shrinks as the score rises, until the target is reached. */
  lemma SkillMessageMonotone(a: int, b: int, target: int)
    requires a <= b
    ensures SkillMessage(a, target) == TargetAchieved ==> SkillMessage(b, target) == TargetAchieved
    ensures SkillMessage(b, target).ToTarget? ==> SkillMessage(a, target).ToTarget? && SkillMessage(b, target).gap <= SkillMessage(a, target).gap
  {
  }

  /** The achievement badge: 'milestone' and 'performance' have their own variants, any other type is outlined. */
  function AchievementBadge(kind: string): (v: BadgeVariant)
    ensures v == Default <==> kind == "milestone"
    ensures v == Secondary <==> kind == "performance"
    ensures v == Outline <==> kind != "milestone" && kind != "performance"
  {
    if kind == "milestone" then Default else if kind == "performance" then Secondary else Outline
  }

  /** JavaScript truthiness of a form value: the empty string, zero and `false` are falsy; any list is truthy. */
  predicate Truthy(v: FieldValue)
  {
    match v
    case TextValue(t) => t != []
    case NumberValue(n) => n != 0
    case FlagValue(b) => b
    case ListValue(_) => true
  }

  /** A notification preference's button offers the opposite of its current setting. */
  function PreferenceLabel(enabled: bool): (caption: string)
    ensures caption == "Disable" || caption == "Enable"
    ensures caption == "Disable" <==> enabled
  {
    if enabled then "Disable" else "Enable"
  }

  /** A key press in the add-skill box holding `input`: the text the box holds afterwards. */
  function AddSkillKey(key: string, input: string): (text: string)
    ensures text == [] <==> input == [] || (key == "Enter" && Trim(input) != [])
    ensures text != [] ==> text == input
  {
    if key == "Enter" && Trim(input) != [] then [] else input
  }

  class ProfilePage {
    var isEditing: bool
    var formData: FormData
    /** The text in the add-skill box. The box exists only in edit mode and comes back empty. */
    var skillInput: string

    /** Outside edit mode there is no add-skill box, so it holds no text. */
    ghost predicate Valid()
      reads this
    {
      !isEditing ==> skillInput == []
    }

    constructor (initial: FormData)
      ensures Valid()
      ensures !isEditing && formData == initial && skillInput == []
    {
      isEditing := false;
      formData := initial;
      skillInput := [];
    }

    /**
     * The header button ("Edit Profile" / "Save Changes"): flips the edit mode.
     * Leaving edit mode removes the add-skill box together with its text.
     */
    method ToggleEdit()
      requires Valid()
      modifies this`isEditing, this`skillInput
      ensures Valid()
      ensures isEditing == !old(isEditing)
      ensures skillInput == []
    {
      isEditing := !isEditing;
      skillInput := [];
    }

    /** `handleSaveProfile`: leaves edit mode; the form is only logged, not changed. */
    method HandleSaveProfile()
      requires Valid()
      modifies this`isEditing, this`skillInput
      ensures Valid()
      ensures !isEditing && skillInput == []
    {
      isEditing := false;
      skillInput := [];
    }

    /** Typing into the add-skill box, which is only on screen in edit mode. */
    method TypeSkill(text: string)
      requires Valid()
      modifies this`skillInput
      ensures Valid()
      ensures skillInput == if old(isEditing) then text else old(skillInput)
    {
      if isEditing {
        skillInput := text;
      }
    }

    /**
     * A key press in the add-skill box, only in edit mode: Enter on text that is
     * not blank empties the box. Adding the skill is left undone, so the form,
     * skills included, never changes.
     */
    method SkillKeyPress(key: string)
      requires Valid()
      modifies this`skillInput
      ensures Valid()
      ensures old(isEditing) && key == "Enter" && Trim(old(skillInput)) != [] ==> skillInput == []
      ensures !(old(isEditing) && key == "Enter" && Trim(old(skillInput)) != []) ==> skillInput == old(skillInput)
    {
      if isEditing {
        skillInput := AddSkillKey(key, skillInput);
      }
    }

    /**
     * Typing `value` into the input bound to `section.field`. The inputs are
     * disabled outside edit mode, so the form only changes while editing.
     */
    method EditField(section: string, field: string, value: string)
      modifies this`formData
      ensures old(isEditing) ==> formData == WithField(old(formData), section, field, value)
      ensures !old(isEditing) ==> formData == old(formData)
    {
      if isEditing {
        formData := WithField(formData, section, field, value);
      }
    }

    /**
     * The caption on a preference's button: `formData.preferences[name]` tested
     * for truthiness. A missing entry reads as `undefined`, which is falsy.
     */
    function PreferenceButton(name: string): (caption: string)
      requires "preferences" in formData
      reads this
      ensures caption == "Disable" <==> name in formData["preferences"] && Truthy(formData["preferences"][name])
      ensures caption == "Enable" <==> !(name in formData["preferences"] && Truthy(formData["preferences"][name]))
    {
      var prefs := formData["preferences"];
      PreferenceLabel(name in prefs && Truthy(prefs[name]))
    }
  }

  /** A page whose form holds a preference flag on shows "Disable" on its button, and "Enable" when it is off. */
  method PreferenceScenario(form: FormData, name: string, on: bool) returns (caption: string)
    requires "preferences" in form
    ensures caption == (if on then "Disable" else "Enable")
  {
    var prefs := form["preferences"][name := FlagValue(on)];
    var page := new ProfilePage(form["preferences" := prefs]);
    caption := page.PreferenceButton(name);
  }

  /**
   * The add-skill box: text typed outside edit mode goes nowhere; in edit mode
   * Enter on non-blank text empties the box, and the form stays as it was.
   */
  method SkillBoxScenario(form: FormData, text: string) returns (typedOutside: string, afterEnter: string, formAfter: FormData)
    requires Trim(text) != []
    ensures typedOutside == [] && afterEnter == [] && formAfter == form
  {
    var page := new ProfilePage(form);
    page.TypeSkill(text);
    typedOutside := page.skillInput;
    page.ToggleEdit();
    page.TypeSkill(text);
    page.SkillKeyPress("Enter");
    afterEnter := page.skillInput;
    formAfter := page.formData;
  }

  /** Edits made while not editing are lost; after toggling on, they land and leave other fields alone. */
  method EditModeScenario(form: FormData, section: string, field: string, other: string, value: string)
    returns (before: FormData, after: FormData)
    requires section in form && field in form[section] && other in form[section] && other != field
    ensures before == form
    ensures section in after && field in after[section] && other in after[section]
    ensures after[section][field] == TextValue(value) && after[section][other] == form[section][other]
  {
    var page := new ProfilePage(form);
    page.EditField(section, field, value);
    before := page.formData;
    page.ToggleEdit();
    page.EditField(section, field, value);
    after := page.formData;
  }
}
