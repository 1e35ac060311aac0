/** The farm profile form: its validation rules and the produce-type
    buttons. The buttons toggle a list of their own, which the form's values
    do not include; the submit below validates the selection the farmer sees. */
module FarmerProfile {
  import opened Wrappers
  import FilterSidebar

  datatype ProfileForm = ProfileForm(
    farmName: string,
    location: string,
    contactEmail: string,
    contactPhone: string,
    description: Option<string>,
    produceTypes: seq<string>)

  /** `formSchema`: farm name and location of at least two characters, a phone
      number of at least ten, at least one produce type; the description is
      optional. */
  predicate FormValid(values: ProfileForm)
  {
    && |values.farmName| >= 2
    && |values.location| >= 2
    && |values.contactPhone| >= 10
    && |values.produceTypes| >= 1
  }

  /** The form's default values. */
  const DefaultValues: ProfileForm := ProfileForm(
    "Green Valley Farm",
    "Riverside County, California",
    "contact@greenvalleyfarm.com",
    "(555) 123-4567",
    Some("Family-owned organic farm specializing in seasonal vegetables and fruits. We use sustainable farming practices and no artificial pesticides."),
    ["vegetables", "fruits"])

  /** The buttons' initial selection. */
  const InitialSelection: seq<string> := ["vegetables"]

  /** Each rule rejects on its own: shortening any one field below its minimum
      makes valid values invalid. */
  lemma EachRuleRejects(values: ProfileForm)
    requires FormValid(values)
    ensures !FormValid(values.(farmName := values.farmName[..1]))
    ensures !FormValid(values.(location := values.location[..1]))
    ensures !FormValid(values.(contactPhone := values.contactPhone[..9]))
    ensures !FormValid(values.(produceTypes := []))
  {
  }

  /** The submit as written: the resolver validates the form's values, which the
      produce-type buttons never change. */
  function SubmittedAsWritten(values: ProfileForm, selection: seq<string>): (saved: Option<ProfileForm>)
    ensures saved.Some? <==> FormValid(values)
    ensures saved.Some? ==> saved.value == values
  {
    if FormValid(values) then Some(values) else None
  }

  /** With every produce type deselected the defaults still save, with the
      produce types the buttons no longer show. */
  lemma EmptySelectionStillSaves()
    ensures SubmittedAsWritten(DefaultValues, []) == Some(DefaultValues)
    ensures DefaultValues.produceTypes != []
  {
  }

  /** The submit the form evidently means: the values with the buttons'
      selection as their produce types. */
  function Submitted(values: ProfileForm, selection: seq<string>): (saved: Option<ProfileForm>)
    ensures saved.Some? <==> FormValid(values.(produceTypes := selection))
    ensures saved.Some? ==> saved.value == values.(produceTypes := selection)
  {
    var withSelection := values.(produceTypes := selection);
    if FormValid(withSelection) then Some(withSelection) else None
  }

  /** With that submit an empty selection is always rejected, and what is saved
      carries exactly the selection shown. */
  lemma EmptySelectionRejected(values: ProfileForm, selection: seq<string>)
    ensures Submitted(values, []) == None
    ensures Submitted(values, selection).Some? ==> Submitted(values, selection).value.produceTypes == selection
  {
  }

  /** The profile editor's state. */
  class ProfileEditor {
    var values: ProfileForm
    var selectedProduceTypes: seq<string>

    /** The selection never holds a produce type twice. */
    predicate Valid()
      reads this
    {
      FilterSidebar.NoDuplicates(selectedProduceTypes)
    }

    constructor ()
      ensures values == DefaultValues && selectedProduceTypes == InitialSelection
      ensures Valid()
    {
      values := DefaultValues;
      selectedProduceTypes := InitialSelection;
    }

    /** `handleProduceTypeChange(type)`: removes a selected type, appends an
        unselected one. */
    method ToggleProduceType(kind: string)
      requires Valid()
      modifies this
      ensures selectedProduceTypes == FilterSidebar.Toggled(old(selectedProduceTypes), kind)
      ensures kind in old(selectedProduceTypes) ==> kind !in selectedProduceTypes
      ensures kind !in old(selectedProduceTypes) ==> selectedProduceTypes == old(selectedProduceTypes) + [kind]
      ensures values == old(values)
      ensures Valid()
    {
      FilterSidebar.ToggleKeepsNoDuplicates(selectedProduceTypes, kind);
      selectedProduceTypes := FilterSidebar.Toggled(selectedProduceTypes, kind);
    }

    /** A field edit. */
    method SetValues(v: ProfileForm)
      modifies this
      ensures values == v && selectedProduceTypes == old(selectedProduceTypes)
    {
      values := v;
    }

    /** The save: the values with the current selection, or nothing when a
        rule fails. */
    method Submit() returns (saved: Option<ProfileForm>)
      ensures saved == Submitted(values, selectedProduceTypes)
      ensures selectedProduceTypes == [] ==> saved == None
    {
      saved := Submitted(values, selectedProduceTypes);
    }
  }
}
