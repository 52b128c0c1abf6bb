/** Client code driving the components through the onboarding, start-up, add,
    missing-selection and scan flows; each assertion follows from the components'
    contracts alone. */
module Scenarios {
  import opened Records
  import opened App
  import AddMedModal
  import ScannerModal
  import ProfileForm

  /** Onboarding: the form submits nothing until name and age are filled in; the submitted
      draft is stored as entered and opens the dashboard. */
  method Onboard()
  {
    var form := new ProfileForm.FormState();
    var submitted := form.HandleSubmit();
    assert submitted == None;
    form.HandleChange(ProfileForm.Name, "Jane Doe");
    form.HandleChange(ProfileForm.Age, "42");
    submitted := form.HandleSubmit();
    assert submitted == Some(ProfileDraft("Jane Doe", "42", "", ""));

    var app := new AppState();
    var payload, reload := app.CompleteProfile(submitted.value, SaveOk);
    assert app.view == DashboardView && reload;
    assert app.profile == Some(Entered(submitted.value));
    assert payload.allergies == [] && payload.conditions == [];
  }

  /** A profile with a name resolves start-up to the dashboard and asks for the list;
      an empty profile keeps onboarding. */
  method StartUp(jane: ProfileBody, empty: ProfileBody)
    requires jane.name == Some("Jane Doe") && empty.name == None
  {
    var app := new AppState();
    var reload := app.CheckProfile(ProfileOk(Some(jane)));
    assert app.view == DashboardView && reload && !app.loading;
    assert app.profile == Some(Fetched(jane));

    var other := new AppState();
    reload := other.CheckProfile(ProfileOk(Some(empty)));
    assert other.view == OnboardingView && !reload && !other.loading;

    var offline := new AppState();
    reload := offline.CheckProfile(ProfileThrew);
    assert offline.view == OnboardingView && offline.profile == None && !offline.loading;
  }

  /** The add form's two steps feed the root: a checked draft whose reply carries a
      medication is submitted without a confirmation and ends up first in the list. */
  method AddThroughModal(nowIso: string, m: Medication, earlier: seq<Medication>)
  {
    var app := new AppState();
    app.LoadMedications(Answered(Some(earlier)));
    app.OpenAddModal();

    var modal := new AddMedModal.AddMedState(nowIso);
    modal.Edit(AddMedModal.DrugName, "Aspirin");
    modal.Edit(AddMedModal.Dosage, "81mg");
    var reply := AddReply(Some(m), None, None);
    var sent := modal.CheckSafety(Answered(Some(reply)));
    assert sent.Some? && !modal.AddButtonDisabled();
    var submitted := modal.Submit(false);
    assert submitted == Some(modal.form);

    app.SubmitMedication(submitted.value, Answered(Some(reply)));
    assert app.medications == [m] + earlier && !app.showAddModal;
  }

  /** A CRITICAL reply leaves the list alone and closes the modal; a network failure
      leaves both alone. */
  method AddRefused(earlier: seq<Medication>, message: Option<string>)
  {
    var app := new AppState();
    app.LoadMedications(Answered(Some(earlier)));
    app.OpenAddModal();
    app.SubmitMedication(MedDraft("a", "b", "Once daily", "", ""), Answered(Some(AddReply(None, Some(Critical), message))));
    assert app.medications == earlier && !app.showAddModal;

    app.OpenAddModal();
    app.SubmitMedication(MedDraft("a", "b", "Once daily", "", ""), Threw);
    assert app.medications == earlier && app.showAddModal;
  }

  /** Selecting an id that is not in the list renders no detail panel rather than failing;
      going back keeps the selection. */
  method MissingSelection(meds: seq<Medication>, id: string)
    requires forall i :: 0 <= i < |meds| ==> meds[i].id != id
  {
    var app := new AppState();
    var reload := app.CheckProfile(ProfileOk(Some(ProfileBody(Some("Jane"), [], []))));
    app.LoadMedications(Answered(Some(meds)));
    reload := app.ClickMedication(id);
    assert app.Render() == Page(NoPanel, false, false);
    reload := app.Back();
    assert reload && app.selectedMedId == Some(id);
  }

  /** A failed scan shows the error beside the picker; a retried scan that succeeds shows
      the result alone, and using it closes the scanner after handing the data over. */
  method ScanTwice(d: ScannerModal.Extracted)
  {
    var scanner := new ScannerModal.ScannerState();
    scanner.HandleFileSelect(true, Threw);
    assert scanner.ErrorShown() && scanner.PickerShown();
    scanner.HandleFileSelect(true, Answered(Some(d)));
    assert scanner.ResultShown() && !scanner.ErrorShown();
    var calls := scanner.UseData();
    assert calls == [ScannerModal.UseExtracted(d), ScannerModal.Close];
  }
}
