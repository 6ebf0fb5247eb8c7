/**
 * The approval stage: the sanction step, where the applicant accepts the
 * loan agreement, and the disbursement step, where four checklist items must
 * be ticked before disbursement can be initiated.
 */
module ApprovalStage {

  import opened Js
  import opened MultiStageForm

  /** The checklist items disbursement waits for. */
  const RequiredItems: seq<string> := ["agreementSigned", "bankVerified", "kycComplete", "termsAccepted"]

  /** The amount shown when the form has none. */
  const DefaultAmount: Value := Num(Finite(25000, 0))

  /**
   * The checklist as a map: the stored object, or an empty map when the
   * field is falsy or not an object.
   */
  function ChecklistOf(data: FormData): map<string, Value> {
    var v := Get(data, "finalChecklist");
    if v.Obj? then v.fields else map[]
  }

  /** The checklist written after toggling `item`: a copy with that item negated. */
  function Toggled(data: FormData, item: string): Value {
    var c := ChecklistOf(data);
    Obj(c[item := Bool(!Truthy(Get(c, item)))])
  }

  /** `allChecklistItemsComplete`: every required item is truthy. */
  predicate AllChecklistItemsComplete(data: FormData) {
    forall i :: 0 <= i < |RequiredItems| ==> Truthy(Get(ChecklistOf(data), RequiredItems[i]))
  }

  /** The amount on the offer card. */
  function DisplayedAmount(data: FormData): (v: Value)
    ensures Truthy(Get(data, "loanAmount")) ==> v == Get(data, "loanAmount")
    ensures !Truthy(Get(data, "loanAmount")) ==> v == DefaultAmount
  {
    Or(Get(data, "loanAmount"), DefaultAmount)
  }

  /** A toggle flips the truthiness of its item and leaves every other item as it was. */
  lemma ToggleFlipsOneItem(data: FormData, item: string)
    ensures var after := Toggled(data, item);
      after.Obj?
      && Truthy(Get(after.fields, item)) == !Truthy(Get(ChecklistOf(data), item))
      && forall k :: k != item ==> Get(after.fields, k) == Get(ChecklistOf(data), k)
  {
  }

  /** Toggling twice restores the item's truthiness; an absent item goes to true, then false. */
  lemma ToggleTwiceRestores(data: FormData, item: string)
    ensures var once := data["finalChecklist" := Toggled(data, item)];
      var twice := Toggled(once, item);
      Truthy(Get(twice.fields, item)) == Truthy(Get(ChecklistOf(data), item))
      && (item !in ChecklistOf(data) ==> Get(Toggled(data, item).fields, item) == Bool(true) && Get(twice.fields, item) == Bool(false))
  {
    var once := data["finalChecklist" := Toggled(data, item)];
    assert Get(once, "finalChecklist") == Toggled(data, item);
  }

  /** Completion is exactly the four required items being truthy. */
  lemma AllCompleteIff(data: FormData)
    ensures var c := ChecklistOf(data);
      AllChecklistItemsComplete(data) <==>
        Truthy(Get(c, "agreementSigned")) && Truthy(Get(c, "bankVerified"))
        && Truthy(Get(c, "kycComplete")) && Truthy(Get(c, "termsAccepted"))
  {
    var c := ChecklistOf(data);
    if Truthy(Get(c, "agreementSigned")) && Truthy(Get(c, "bankVerified"))
       && Truthy(Get(c, "kycComplete")) && Truthy(Get(c, "termsAccepted")) {
      forall i | 0 <= i < |RequiredItems|
        ensures Truthy(Get(c, RequiredItems[i]))
      {
        assert i == 0 || i == 1 || i == 2 || i == 3;
      }
    }
    if AllChecklistItemsComplete(data) {
      assert Truthy(Get(c, RequiredItems[0])) && Truthy(Get(c, RequiredItems[1]));
      assert Truthy(Get(c, RequiredItems[2])) && Truthy(Get(c, RequiredItems[3]));
    }
  }

  /** Items outside the required four never affect completion, even when toggled. */
  lemma OtherItemsAreIgnored(data: FormData, item: string)
    requires item !in RequiredItems
    ensures AllChecklistItemsComplete(data["finalChecklist" := Toggled(data, item)]) <==> AllChecklistItemsComplete(data)
  {
    var after := data["finalChecklist" := Toggled(data, item)];
    assert Get(after, "finalChecklist") == Toggled(data, item);
    forall i | 0 <= i < |RequiredItems|
      ensures Get(ChecklistOf(after), RequiredItems[i]) == Get(ChecklistOf(data), RequiredItems[i])
    {
      assert RequiredItems[i] != item;
    }
  }

  /** Ticking each required item once, starting from no checklist, completes it. */
  lemma TickingAllFourCompletes(data: FormData)
    requires Get(data, "finalChecklist") == Undefined
    ensures var d1 := data["finalChecklist" := Toggled(data, "agreementSigned")];
      var d2 := d1["finalChecklist" := Toggled(d1, "bankVerified")];
      var d3 := d2["finalChecklist" := Toggled(d2, "kycComplete")];
      var d4 := d3["finalChecklist" := Toggled(d3, "termsAccepted")];
      AllChecklistItemsComplete(d4) && !AllChecklistItemsComplete(d3)
  {
    var d1 := data["finalChecklist" := Toggled(data, "agreementSigned")];
    var d2 := d1["finalChecklist" := Toggled(d1, "bankVerified")];
    var d3 := d2["finalChecklist" := Toggled(d2, "kycComplete")];
    var d4 := d3["finalChecklist" := Toggled(d3, "termsAccepted")];
    assert ChecklistOf(d1) == map["agreementSigned" := Bool(true)];
    assert ChecklistOf(d2) == map["agreementSigned" := Bool(true), "bankVerified" := Bool(true)];
    assert ChecklistOf(d3) == map["agreementSigned" := Bool(true), "bankVerified" := Bool(true), "kycComplete" := Bool(true)];
    assert Get(ChecklistOf(d3), RequiredItems[3]) == Undefined;
    AllCompleteIff(d4);
  }

  /** The two steps' local state beside one instance of the form hook. */
  class ApprovalPanel {
    const form: FormSession
    var agreementAccepted: bool
    var disbursementInitiated: bool

    /**
     * Both flags start false: the agreement flag is initialised on the first
     * render, before the hook has loaded the saved draft.
     */
    constructor (form: FormSession)
      ensures this.form == form && !agreementAccepted && !disbursementInitiated
    {
      this.form := form;
      agreementAccepted := false;
      disbursementInitiated := false;
    }

    /** "Continue to Disbursement" waits for the agreement. */
    predicate ContinueToDisbursementEnabled()
      reads this
    {
      agreementAccepted
    }

    /** "Initiate Disbursement" is shown until pressed and enabled once the checklist is complete. */
    predicate InitiateDisbursementEnabled()
      reads this, form
    {
      !disbursementInitiated && AllChecklistItemsComplete(form.formData)
    }

    method HandleChecklistChange(item: string)
      requires form.Valid()
      modifies form
      ensures form.Valid()
      ensures form.State() == FieldUpdated(old(form.State()), "finalChecklist", Toggled(old(form.formData), item))
    {
      var current := ChecklistOf(form.formData);
      current := current[item := Bool(!Truthy(Get(current, item)))];
      form.UpdateField("finalChecklist", Obj(current));
    }

    /** Accept the agreement, stamping the given signing date. */
    method HandleAcceptAgreement(signedDate: string)
      requires form.Valid()
      modifies this, form
      ensures form.Valid() && agreementAccepted && disbursementInitiated == old(disbursementInitiated)
      ensures form.State() ==
        FieldUpdated(FieldUpdated(old(form.State()), "agreementAccepted", Bool(true)), "agreementSignedDate", Str(signedDate))
    {
      agreementAccepted := true;
      form.UpdateField("agreementAccepted", Bool(true));
      form.UpdateField("agreementSignedDate", Str(signedDate));
    }

    /** A press of "Initiate Disbursement", which takes effect only while the button is enabled; nothing resets it. */
    method PressInitiateDisbursement()
      modifies this
      ensures disbursementInitiated == (old(disbursementInitiated) || AllChecklistItemsComplete(form.formData))
      ensures old(disbursementInitiated) ==> disbursementInitiated
      ensures agreementAccepted == old(agreementAccepted)
    {
      if InitiateDisbursementEnabled() {
        disbursementInitiated := true;
      }
    }
  }
}
