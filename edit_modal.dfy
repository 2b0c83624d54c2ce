/**
 * The marker edit modal: it copies `defaultValues` into its fields whenever
 * it is open and that prop changes, reports every industry change, and hands
 * `{label, location, industry}` to its parent on submit.
 */
module EditModal {
  import opened Wrappers
  import opened MarkerData

  /** A prop value read from a plain object: a missing key reads as undefined. */
  function Prop(obj: map<string, string>, key: string): Option<string> {
    if key in obj then Some(obj[key]) else None
  }

  /** `obj.key || ""`. */
  function PropOrEmpty(obj: map<string, string>, key: string): (v: string)
    ensures key !in obj ==> v == ""
    ensures key in obj ==> v == obj[key]
  {
    Prop(obj, key).GetOr("")
  }

  /** A callback the modal makes into its parent. */
  datatype Callback = OnSubmit(values: FormData) | OnClose | OnIndustryChange(industry: string)

  class EditForm {
    var labelText: string
    var location: string
    var industry: string
    /**
     * The `defaultValues` prop; None when the parent passes none, so that the
     * default `{}` is a new object at every render.
     */
    const defaultValues: Option<map<string, string>>

    constructor (defaultValues: Option<map<string, string>>)
      ensures labelText == "" && location == "" && industry == ""
      ensures this.defaultValues == defaultValues
    {
      labelText, location, industry := "", "", "";
      this.defaultValues := defaultValues;
    }

    function Fields(): (string, string, string)
      reads this
    {
      (labelText, location, industry)
    }

    /** The browser's `required` check on the three inputs: none may be empty. */
    predicate Complete()
      reads this
    {
      labelText != "" && location != "" && industry != ""
    }

    /** The prefill effect: while open, each field takes its default, or "" where there is none. */
    method PrefillEffect(isOpen: bool, defaults: map<string, string>)
      modifies this
      ensures isOpen ==> Fields() == (PropOrEmpty(defaults, "label"), PropOrEmpty(defaults, "location"),
                                      PropOrEmpty(defaults, "industry"))
      ensures !isOpen ==> Fields() == old(Fields())
    {
      if isOpen {
        labelText := PropOrEmpty(defaults, "label");
        location := PropOrEmpty(defaults, "location");
        industry := PropOrEmpty(defaults, "industry");
      }
    }

    /**
     * The render that follows a change of the open modal's own state. The
     * prefill effect runs again only when its `defaultValues` dependency is
     * a new object, which is the case exactly when the parent passes none;
     * it then empties every field.
     */
    method Rerender()
      modifies this
      ensures defaultValues.None? ==> Fields() == ("", "", "")
      ensures defaultValues.Some? ==> Fields() == old(Fields())
    {
      if defaultValues.None? {
        PrefillEffect(true, map[]);
      }
    }

    /** Typing into the name input, and the render that follows. */
    method TypeLabel(v: string)
      modifies this
      ensures defaultValues.None? ==> Fields() == ("", "", "")
      ensures defaultValues.Some? ==> Fields() == (v, old(location), old(industry))
    {
      labelText := v;
      Rerender();
    }

    /** Typing into the address input, and the render that follows. */
    method TypeLocation(v: string)
      modifies this
      ensures defaultValues.None? ==> Fields() == ("", "", "")
      ensures defaultValues.Some? ==> Fields() == (old(labelText), v, old(industry))
    {
      location := v;
      Rerender();
    }

    /**
     * Picking an industry, and the renders that follow: the industry effect
     * reports each change of the industry, so without `defaultValues` the
     * parent hears the pick and then "" once the prefill has emptied it.
     */
    method PickIndustry(v: string) returns (calls: seq<Callback>)
      modifies this
      ensures defaultValues.None? ==> Fields() == ("", "", "")
      ensures defaultValues.Some? ==> Fields() == (old(labelText), old(location), v)
      ensures calls == (if v != old(industry) then [OnIndustryChange(v)] else [])
                       + (if defaultValues.None? && v != "" then [OnIndustryChange("")] else [])
    {
      calls := if v != industry then [OnIndustryChange(v)] else [];
      industry := v;
      Rerender();
      if v != industry {
        calls := calls + [OnIndustryChange(industry)];
      }
    }

    /** The industry effect on mount: `onIndustryChange` receives the current industry. */
    method IndustryEffect() returns (calls: seq<Callback>)
      ensures calls == [OnIndustryChange(industry)]
    {
      calls := [OnIndustryChange(industry)];
    }

    /**
     * Save Changes: the browser submits only when all three required fields
     * are filled; then `onSubmit` gets exactly name, address and industry and
     * no marker type, and the modal does not close itself.
     */
    method Submit() returns (calls: seq<Callback>)
      ensures Complete() ==> calls == [OnSubmit(ThreeFields(labelText, location, industry))]
      ensures !Complete() ==> calls == []
      ensures forall c | c in calls :: c.OnSubmit? && c.values.markerType.None?
    {
      calls := if Complete() then [OnSubmit(ThreeFields(labelText, location, industry))] else [];
    }

    /** Cancel: `onClose`, and never `onSubmit`. */
    method Cancel() returns (calls: seq<Callback>)
      ensures calls == [OnClose]
    {
      calls := [OnClose];
    }
  }

  /**
   * Opening the modal without `defaultValues`, filling in every field and
   * saving: each input is emptied again by the render that follows it, so
   * the required check blocks the submit and the parent hears nothing but
   * the industry effect.
   */
  method FillWithoutDefaults(name: string, address: string, industry: string)
    returns (industryCalls: seq<Callback>, saveCalls: seq<Callback>, fields: (string, string, string))
    requires industry != ""
    ensures industryCalls == [OnIndustryChange(""), OnIndustryChange(industry), OnIndustryChange("")]
    ensures saveCalls == []
    ensures fields == ("", "", "")
  {
    var modal := new EditForm(None);
    modal.PrefillEffect(true, map[]);
    industryCalls := modal.IndustryEffect();
    modal.TypeLabel(name);
    modal.TypeLocation(address);
    var picked := modal.PickIndustry(industry);
    industryCalls := industryCalls + picked;
    saveCalls := modal.Submit();
    fields := modal.Fields();
  }

  /**
   * With `defaultValues` passed (the business page), typing survives the
   * render and a filled-in form is submitted with what was typed.
   */
  method FillWithDefaults(defaults: map<string, string>, name: string, address: string, industry: string)
    returns (saveCalls: seq<Callback>)
    requires name != "" && address != "" && industry != ""
    ensures saveCalls == [OnSubmit(ThreeFields(name, address, industry))]
  {
    var modal := new EditForm(Some(defaults));
    modal.PrefillEffect(true, defaults);
    modal.TypeLabel(name);
    modal.TypeLocation(address);
    var picked := modal.PickIndustry(industry);
    saveCalls := modal.Submit();
  }
}
