/**
 * The marker form modal, in its two copies: the admin map's copy, which
 * reports industry changes and follows an `initialIndustry` prop, and the
 * older copy, which does neither. Both collect a name, an address and an
 * industry, ask for confirmation, and only then hand the values to the parent.
 */
module FormModal {
  import opened Wrappers
  import opened MarkerData

  /** A callback the form makes into its parent, in call order. */
  datatype Callback = OnSubmit(values: FormData) | OnClose | OnIndustryChange(industry: string)

  class MarkerForm {
    var labelText: string
    var location: string
    var industry: string
    /** Showing the confirmation step. */
    var confirming: bool
    /** This copy reports industry changes to the parent and follows `initialIndustry`. */
    const reportsIndustry: bool

    /** The admin map's copy, mounted with `initialIndustry`. */
    constructor WithIndustry(initialIndustry: string)
      ensures reportsIndustry
      ensures labelText == "" && location == "" && industry == initialIndustry && !confirming
    {
      reportsIndustry := true;
      labelText, location, industry, confirming := "", "", initialIndustry, false;
    }

    /** The older copy, with no industry callback. */
    constructor Plain()
      ensures !reportsIndustry
      ensures labelText == "" && location == "" && industry == "" && !confirming
    {
      reportsIndustry := false;
      labelText, location, industry, confirming := "", "", "", false;
    }

    /** The form's state, for stating what a handler leaves alone. */
    function Fields(): (string, string, string, bool)
      reads this
    {
      (labelText, location, industry, confirming)
    }

    /** The values the form submits: exactly name, address and industry. */
    function Values(): FormData
      reads this
    {
      ThreeFields(labelText, location, industry)
    }

    /** The browser's `required` check on the three inputs: none may be empty. */
    predicate Complete()
      reads this
    {
      labelText != "" && location != "" && industry != ""
    }

    /** `resetForm`: all three fields empty, back to the editing step. */
    method ResetForm()
      modifies this
      ensures Fields() == ("", "", "", false)
    {
      labelText, location, industry, confirming := "", "", "", false;
    }

    /** Typing into the name input. */
    method TypeLabel(v: string)
      modifies this
      ensures Fields() == (v, old(location), old(industry), old(confirming))
    {
      labelText := v;
    }

    /** Typing into the address input. */
    method TypeLocation(v: string)
      modifies this
      ensures Fields() == (old(labelText), v, old(industry), old(confirming))
    {
      location := v;
    }

    /** Picking an industry: stored, and reported with the same value by the admin map's copy. */
    method HandleIndustryChange(v: string) returns (calls: seq<Callback>)
      modifies this
      ensures Fields() == (old(labelText), old(location), v, old(confirming))
      ensures calls == if reportsIndustry then [OnIndustryChange(v)] else []
    {
      industry := v;
      calls := if reportsIndustry then [OnIndustryChange(v)] else [];
    }

    /** The effect on `initialIndustry`: the industry follows it, or becomes "" when it is falsy. */
    method InitialIndustryEffect(initialIndustry: Option<string>)
      requires reportsIndustry
      modifies this
      ensures Fields() == (old(labelText), old(location), initialIndustry.GetOr(""), old(confirming))
    {
      industry := initialIndustry.GetOr("");
    }

    /** Continue: a complete form moves to the confirmation step and submits nothing; an incomplete one is held back. */
    method Continue() returns (calls: seq<Callback>)
      modifies this
      ensures calls == []
      ensures Fields() == (old(labelText), old(location), old(industry), old(confirming) || old(Complete()))
    {
      calls := [];
      if Complete() {
        confirming := true;
      }
    }

    /** Back: return to editing with the values kept. */
    method Back()
      modifies this
      ensures Fields() == (old(labelText), old(location), old(industry), false)
    {
      confirming := false;
    }

    /**
     * Confirm & Save: `onSubmit` with the values, then a reset, then `onClose`,
     * with nothing waited for in between.
     */
    method FinalSubmit() returns (calls: seq<Callback>)
      modifies this
      ensures calls == [OnSubmit(old(Values())), OnClose]
      ensures Fields() == ("", "", "", false)
    {
      calls := [OnSubmit(Values())];
      ResetForm();
      calls := calls + [OnClose];
    }

    /** Cancel: reset and `onClose`, never `onSubmit`. */
    method Cancel() returns (calls: seq<Callback>)
      modifies this
      ensures calls == [OnClose]
      ensures Fields() == ("", "", "", false)
    {
      ResetForm();
      calls := [OnClose];
    }
  }

  /**
   * Filling in the admin map's copy and saving: the industry choice is
   * reported to the parent, Continue only opens the confirmation, and
   * Confirm & Save submits the three values and then closes.
   */
  method FillAndSave(initialIndustry: string, name: string, address: string, industry: string)
    returns (industryCalls: seq<Callback>, continueCalls: seq<Callback>, saveCalls: seq<Callback>)
    requires name != "" && address != "" && industry != ""
    ensures industryCalls == [OnIndustryChange(industry)]
    ensures continueCalls == []
    ensures saveCalls == [OnSubmit(ThreeFields(name, address, industry)), OnClose]
  {
    var form := new MarkerForm.WithIndustry(initialIndustry);
    form.TypeLabel(name);
    form.TypeLocation(address);
    industryCalls := form.HandleIndustryChange(industry);
    continueCalls := form.Continue();
    saveCalls := form.FinalSubmit();
  }
}
