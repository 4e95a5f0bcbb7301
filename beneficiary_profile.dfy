/** The beneficiary profile screen (src/components/beneficiary/BeneficiaryProfile.tsx):
    a form initialised from the member record, edit/save flags, and prev/next
    navigation over five sub-tabs. The markup is not modelled. */
module BeneficiaryProfile {
  import opened JsValues

  /** One form field: its key in `formData`, the `memberData` key it is read from, and
      the default used when that value is falsy. */
  datatype FieldSpec = FieldSpec(formKey: string, memberKey: string, default: string)

  const FormFields: seq<FieldSpec> := [
    FieldSpec("fullName", "full_name", ""),
    FieldSpec("gender", "gender", "male"),
    FieldSpec("birthDate", "birth_date", ""),
    FieldSpec("age", "age", ""),
    FieldSpec("disabilityType", "disability_type", ""),
    FieldSpec("disabilityDetails", "disability_details", ""),
    FieldSpec("disabilityCardNumber", "disability_card_number", ""),
    FieldSpec("educationLevel", "education_level", ""),
    FieldSpec("employmentStatus", "employment_status", ""),
    FieldSpec("jobTitle", "job_title", ""),
    FieldSpec("employer", "employer", ""),
    FieldSpec("monthlyIncome", "monthly_income", ""),
    FieldSpec("buildingNumber", "building_number", ""),
    FieldSpec("streetName", "street_name", ""),
    FieldSpec("district", "district", ""),
    FieldSpec("city", "city", ""),
    FieldSpec("postalCode", "postal_code", ""),
    FieldSpec("additionalNumber", "additional_number", ""),
    FieldSpec("address", "address", ""),
    FieldSpec("phone", "phone", ""),
    FieldSpec("alternativePhone", "alternative_phone", ""),
    FieldSpec("email", "email", ""),
    FieldSpec("emergencyContactName", "emergency_contact_name", ""),
    FieldSpec("emergencyContactPhone", "emergency_contact_phone", ""),
    FieldSpec("emergencyContactRelation", "emergency_contact_relation", "")
  ]

  /** `memberData?.<memberKey> || '<default>'`. */
  function FieldValue(memberData: Option<Json>, f: FieldSpec): Json {
    Or(Prop(memberData, f.memberKey), JStr(f.default))
  }

  /** `formData`, one value per entry of FormFields and in the same order. */
  type Form = seq<Json>

  /** The object literal that builds `formData` from `memberData`. */
  function InitialForm(memberData: Option<Json>): (form: Form)
    ensures |form| == |FormFields|
  {
    seq(|FormFields|, i requires 0 <= i < |FormFields| => FieldValue(memberData, FormFields[i]))
  }

  /** Each initial field is the member's value when that is truthy, otherwise the
      field's default: `'male'` for the gender and `''` for everything else. */
  lemma InitialFormMapping(memberData: Option<Json>, i: nat)
    requires i < |FormFields|
    ensures var f := FormFields[i]; var v := Prop(memberData, f.memberKey);
      && (Truthy(v) ==> InitialForm(memberData)[i] == v.value)
      && (!Truthy(v) ==> InitialForm(memberData)[i] == JStr(f.default))
      && (i == GenderField ==> f.default == "male")
      && (i != GenderField ==> f.default == "")
  {
  }

  const GenderField := 1
  const EmploymentStatusField := 8

  lemma NamedFields()
    ensures FormFields[GenderField] == FieldSpec("gender", "gender", "male")
    ensures FormFields[EmploymentStatusField] == FieldSpec("employmentStatus", "employment_status", "")
  {
  }

  /** Without member data (undefined or null) every field takes its default. */
  lemma NoMemberDataGivesDefaults(i: nat)
    requires i < |FormFields|
    ensures InitialForm(None)[i] == JStr(FormFields[i].default)
    ensures InitialForm(Some(JNull)) == InitialForm(None)
  {
  }

  /** The `useEffect` on `memberData`: rebuild the form when member data is present
      (truthy), otherwise keep it. */
  function Resync(memberData: Option<Json>, form: Form): (r: Form)
    ensures Truthy(memberData) ==> r == InitialForm(memberData)
    ensures !Truthy(memberData) ==> r == form
  {
    if Truthy(memberData) then InitialForm(memberData) else form
  }

  /** `handleInputChange`: only the named field changes. */
  function WithField(form: Form, field: nat, value: Json): (r: Form)
    requires field < |form|
    ensures |r| == |form| && r[field] == value
    ensures forall k :: 0 <= k < |form| && k != field ==> r[k] == form[k]
  {
    form[field := value]
  }

  /** Job title and employer are disabled unless `employmentStatus === 'employed'`. */
  predicate JobFieldsDisabled(form: Form)
    requires |form| == |FormFields|
  {
    form[EmploymentStatusField] != JStr("employed")
  }

  /** Editing the employment status switches the job fields; the initial form enables
      them exactly for a member whose `employment_status` is `'employed'`, so they start
      disabled when there is no member data. */
  lemma JobFieldsFollowEmploymentStatus(form: Form, value: Json, memberData: Option<Json>)
    requires |form| == |FormFields|
    ensures !JobFieldsDisabled(WithField(form, EmploymentStatusField, value)) <==> value == JStr("employed")
    ensures !JobFieldsDisabled(InitialForm(memberData)) <==>
      Prop(memberData, "employment_status") == Some(JStr("employed"))
    ensures JobFieldsDisabled(InitialForm(None))
  {
    InitialFormMapping(memberData, EmploymentStatusField);
  }

  // Sub-tab navigation.

  const TabIds: seq<string> := ["personal", "professional", "address", "contact", "documents"]

  /** `findIndex(tab => tab.id === t)`: the first index holding `t`, or -1. */
  function FindIndex(ids: seq<string>, t: string): (i: int)
    ensures -1 <= i < |ids|
    ensures i == -1 <==> t !in ids
    ensures 0 <= i ==> ids[i] == t && forall j :: 0 <= j < i ==> ids[j] != t
    decreases |ids|
  {
    if ids == [] then -1
    else if ids[0] == t then 0
    else
      var k := FindIndex(ids[1..], t);
      if k == -1 then -1 else k + 1
  }

  /** The target of the "previous" button, when it is shown (index above 0). */
  function PreviousTab(tab: string): (r: Option<string>)
    ensures r.Some? <==> FindIndex(TabIds, tab) > 0
    ensures r.Some? ==> r.value in TabIds && FindIndex(TabIds, r.value) == FindIndex(TabIds, tab) - 1
  {
    var i := FindIndex(TabIds, tab);
    if i > 0 then Some(TabIds[i - 1]) else None
  }

  /** The target of the "next" button, when it is shown (index below the last). */
  function NextTab(tab: string): (r: Option<string>)
    ensures r.Some? <==> FindIndex(TabIds, tab) < |TabIds| - 1
    ensures r.Some? ==> r.value in TabIds && FindIndex(TabIds, r.value) == FindIndex(TabIds, tab) + 1
  {
    var i := FindIndex(TabIds, tab);
    if i < |TabIds| - 1 then Some(TabIds[i + 1]) else None
  }

  lemma TabIdsDistinct()
    ensures forall i, j :: 0 <= i < j < |TabIds| ==> TabIds[i] != TabIds[j]
  {
  }

  /** Going back and then forward, or forward and then back, returns to the same tab. */
  lemma PreviousNextRoundTrip(tab: string)
    ensures PreviousTab(tab).Some? ==> NextTab(PreviousTab(tab).value) == Some(tab)
    ensures tab in TabIds && NextTab(tab).Some? ==> PreviousTab(NextTab(tab).value) == Some(tab)
  {
  }

  /** The first tab offers no "previous", the last no "next"; an unknown tab offers only
      "next", which leads to the first tab. */
  lemma NavigationEnds(tab: string)
    ensures PreviousTab("personal") == None && NextTab("personal") == Some("professional")
    ensures NextTab("documents") == None && PreviousTab("documents") == Some("contact")
    ensures tab !in TabIds ==> PreviousTab(tab) == None && NextTab(tab) == Some("personal")
  {
  }

  datatype Section = Personal | Professional | AddressSection | Contact | Documents

  /** `renderActiveTab`: an unknown sub-tab renders the personal section. */
  function RenderActiveTab(tab: string): (s: Section)
    ensures tab !in TabIds ==> s == Personal
    ensures tab in TabIds ==> s == [Personal, Professional, AddressSection, Contact, Documents][FindIndex(TabIds, tab)]
  {
    match tab
    case "personal" => Personal
    case "professional" => Professional
    case "address" => AddressSection
    case "contact" => Contact
    case "documents" => Documents
    case _ => Personal
  }

  /** The component's state. `activeSubTab` belongs to the parent; a tab request through
      `onChangeSubTab` is modelled as the parent switching to that tab. */
  class Profile {
    var formData: Form
    var editMode: bool
    var isSaving: bool
    var isLoading: bool
    var activeSubTab: string

    /** Every form field is present. */
    predicate Valid()
      reads this
    {
      |formData| == |FormFields|
    }

    /** Mounting: the form from `memberData`, both flags off, and the loading effect
        for the first sub-tab started. */
    constructor (memberData: Option<Json>, tab: string)
      ensures Valid()
      ensures formData == InitialForm(memberData)
      ensures !editMode && !isSaving && isLoading && activeSubTab == tab
    {
      formData := InitialForm(memberData);
      editMode, isSaving, isLoading := false, false, true;
      activeSubTab := tab;
    }

    /** The end of the 500 ms loading effect. */
    method LoadingDone()
      modifies this
      ensures !isLoading
      ensures formData == old(formData) && editMode == old(editMode)
      ensures isSaving == old(isSaving) && activeSubTab == old(activeSubTab)
    {
      isLoading := false;
    }

    /** The effect on `memberData`. */
    method SyncMemberData(memberData: Option<Json>)
      requires Valid()
      modifies this
      ensures Valid()
      ensures formData == Resync(memberData, old(formData))
      ensures editMode == old(editMode) && isSaving == old(isSaving)
      ensures isLoading == old(isLoading) && activeSubTab == old(activeSubTab)
    {
      if Truthy(memberData) {
        formData := InitialForm(memberData);
      }
    }

    method HandleInputChange(field: nat, value: Json)
      requires Valid() && field < |FormFields|
      modifies this
      ensures Valid()
      ensures formData == WithField(old(formData), field, value)
      ensures editMode == old(editMode) && isSaving == old(isSaving)
      ensures isLoading == old(isLoading) && activeSubTab == old(activeSubTab)
    {
      formData := formData[field := value];
    }

    /** The "edit" button (true) and the "cancel" button (false). */
    method SetEditMode(on: bool)
      modifies this`editMode
      ensures editMode == on
    {
      editMode := on;
    }

    /** `handleSaveChanges` up to its `await`: the saving flag goes on. */
    method BeginSave()
      modifies this`isSaving
      ensures isSaving
    {
      isSaving := true;
    }

    /** `handleSaveChanges` after its `await`: on success edit mode ends; in every case
        (`finally`) the saving flag goes off. */
    method FinishSave(succeeded: bool)
      modifies this`isSaving, this`editMode
      ensures !isSaving
      ensures editMode == (if succeeded then false else old(editMode))
    {
      if succeeded {
        editMode := false;
      }
      isSaving := false;
    }

    /** A tab click: switch to `tab` and leave edit mode; a different tab restarts the
        loading effect. */
    method SelectTab(tab: string)
      modifies this`activeSubTab, this`editMode, this`isLoading
      ensures activeSubTab == tab && !editMode
      ensures isLoading == (old(isLoading) || tab != old(activeSubTab))
    {
      if tab != activeSubTab {
        isLoading := true;
      }
      activeSubTab, editMode := tab, false;
    }

    /** The "previous" button, when shown. */
    method GoPrevious()
      requires PreviousTab(activeSubTab).Some?
      modifies this`activeSubTab, this`editMode, this`isLoading
      ensures activeSubTab == PreviousTab(old(activeSubTab)).value && !editMode
      ensures activeSubTab in TabIds && isLoading
    {
      var target := PreviousTab(activeSubTab).value;
      TabIdsDistinct();
      SelectTab(target);
    }

    /** The "next" button, when shown. */
    method GoNext()
      requires NextTab(activeSubTab).Some?
      modifies this`activeSubTab, this`editMode, this`isLoading
      ensures activeSubTab == NextTab(old(activeSubTab)).value && !editMode
      ensures activeSubTab in TabIds && isLoading
    {
      var target := NextTab(activeSubTab).value;
      SelectTab(target);
    }
  }
}
