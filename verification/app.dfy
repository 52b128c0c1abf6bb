/** The application root: the current view, the medication list, the profile, the two
    modal flags, the selected medication and the loading flag, and the handlers that
    update them from the replies of the remote service. */
module App {
  import opened Records
  import opened Text

  datatype View = OnboardingView | DashboardView | DetailView

  /** The profile-get call: it threw, answered with a non-2xx status, or answered 2xx
      with a body (`None`: the body was JSON `null`). */
  datatype ProfileReply = ProfileThrew | ProfileNotOk | ProfileOk(body: Option<ProfileBody>)

  /** The profile-update call: it threw, answered with a non-2xx status, or succeeded. */
  datatype SaveReply = SaveThrew | SaveNotOk | SaveOk

  /** The profile sent to profile-update. `age` is the raw text that the client coerces
      with `Number`, which is not modelled. */
  datatype ProfilePayload = ProfilePayload(name: string, age: string, allergies: seq<string>, conditions: seq<string>)

  /** The body of a translate reply. */
  datatype TranslateReply = TranslateReply(translation: Option<string>)

  /** What occupies the page below the modals. */
  datatype MainPanel = ProfileFormPanel | DashboardPanel | DetailPanel(med: Medication) | NoPanel

  /** What the root renders: the spinner while loading, otherwise a page. */
  datatype Screen = Spinner | Page(main: MainPanel, addModal: bool, scanModal: bool)

  /** Shaping of the comma-separated allergies or conditions text: the empty text gives the
      empty list, any other text its comma-separated pieces, each trimmed, in order. */
  function ShapeList(s: string): (r: seq<string>)
    ensures s == "" <==> r == []
    ensures s != "" ==> |r| == Occurrences(s, ',') + 1
    ensures forall i :: 0 <= i < |r| ==> r[i] == Trim(Split(s, ',')[i])
    ensures forall i :: 0 <= i < |r| ==> ',' !in r[i]
  {
    if s == "" then []
    else
      var pieces := Split(s, ',');
      forall i | 0 <= i < |pieces| ensures ',' !in Trim(pieces[i]) {
        TrimKeepsOut(pieces[i], ',');
      }
      seq(|pieces|, i requires 0 <= i < |pieces| => Trim(pieces[i]))
  }

  /** Text made only of white space still has one (empty) entry, not none. */
  lemma ShapeListOfBlank(s: string)
    requires s != ""
    requires forall i :: 0 <= i < |s| ==> IsSpace(s[i])
    ensures ShapeList(s) == [""]
  {
    assert ',' !in s by {
      assert forall i :: 0 <= i < |s| ==> s[i] != ',';
    }
    SplitWithoutSeparator(s, ',');
    TrimAllSpace(s);
  }

  /** Shaping undoes a comma join of already-trimmed, comma-free entries. */
  lemma {:induction false} ShapeListOfJoin(entries: seq<string>)
    requires |entries| >= 1 && entries != [""]
    requires forall i :: 0 <= i < |entries| ==> ',' !in entries[i] && Trim(entries[i]) == entries[i]
    ensures ShapeList(Join(entries, ',')) == entries
  {
    SplitJoin(entries, ',');
    // the joined text is not empty: `split` of the empty text is [""], which entries is not
    assert Split(Join(entries, ','), ',') == entries;
  }

  /** The onboarding example: "peanuts, shellfish" is sent as ["peanuts", "shellfish"]. */
  lemma ShapeListExample(s: string)
    requires s == "peanuts, shellfish"
    ensures ShapeList(s) == ["peanuts", "shellfish"]
  {
    ExampleSplit(s, "peanuts", " shellfish");
    TrimUnique("peanuts", "peanuts", 0);
    ExampleTrim(" shellfish", "shellfish");
  }

  lemma ExampleSplit(s: string, first: string, second: string)
    requires s == "peanuts, shellfish" && first == "peanuts" && second == " shellfish"
    ensures Split(s, ',') == [first, second]
  {
    assert s == first + [','] + second;
    SplitJoin([first, second], ',');
  }

  lemma ExampleTrim(padded: string, word: string)
    requires padded == " shellfish" && word == "shellfish"
    ensures Trim(padded) == word
  {
    assert padded[1..10] == word;
    TrimUnique(word, padded, 1);
  }

  /** The profile-update body built from the onboarding draft. */
  function ShapeProfile(d: ProfileDraft): (p: ProfilePayload)
    ensures p.name == d.name && p.age == d.age
    ensures p.allergies == ShapeList(d.allergies) && p.conditions == ShapeList(d.conditions)
  {
    ProfilePayload(d.name, d.age, ShapeList(d.allergies), ShapeList(d.conditions))
  }

  /** Whether a profile-get reply resolves start-up to the dashboard: a 2xx reply whose
      body has a non-empty `name`. */
  predicate ResolvesToDashboard(reply: ProfileReply) {
    reply.ProfileOk? && reply.body.Some? && reply.body.value.name.Some? && reply.body.value.name.value != ""
  }

  /** The profile stored from a 2xx profile-get body (`null` stores no profile). */
  function StoredProfile(body: Option<ProfileBody>): (p: Option<Profile>)
    ensures p.Some? <==> body.Some?
    ensures p.Some? ==> p.value == Fetched(body.value)
  {
    match body
    case Some(b) => Some(Fetched(b))
    case None => None
  }

  /** The value `handleTranslate` resolves to: the reply's `translation`, or nothing when
      the call threw or its body was `null`. */
  function TranslationOf(reply: Call<Option<TranslateReply>>): (t: Option<string>)
    ensures reply.Threw? ==> t.None?
    ensures reply.Answered? && reply.body.None? ==> t.None?
    ensures reply.Answered? && reply.body.Some? ==> t == reply.body.value.translation
    ensures t.Some? ==> reply.Answered? && reply.body.Some? && reply.body.value.translation == t
  {
    match reply
    case Answered(Some(b)) => b.translation
    case _ => None
  }

  /** `medications.find(m => m.id === selectedMedId)`: the first medication with that id. */
  function FindById(meds: seq<Medication>, id: Option<string>): (r: Option<Medication>)
    ensures r.None? <==> forall i :: 0 <= i < |meds| ==> Some(meds[i].id) != id
    ensures r.Some? ==> exists i :: 0 <= i < |meds| && meds[i] == r.value && Some(meds[i].id) == id
                                    && forall j :: 0 <= j < i ==> Some(meds[j].id) != id
  {
    if meds == [] then None
    else if Some(meds[0].id) == id then Some(meds[0])
    else
      var r := FindById(meds[1..], id);
      assert forall i :: 1 <= i < |meds| ==> meds[i] == meds[1..][i - 1];
      if r.Some? then
        var i :| 0 <= i < |meds[1..]| && meds[1..][i] == r.value && Some(meds[1..][i].id) == id
                  && forall j :: 0 <= j < i ==> Some(meds[1..][j].id) != id;
        assert meds[i + 1] == r.value;
        r
      else r
  }

  /** A view change that the list-reload effect reacts to: the view changed, to the dashboard. */
  predicate ReloadTriggered(before: View, after: View) {
    before != after && after == DashboardView
  }

  class AppState {
    var view: View
    var medications: seq<Medication>
    var profile: Option<Profile>
    var showAddModal: bool
    var showScanModal: bool
    var selectedMedId: Option<string>
    var loading: bool

    /** The detail view is only ever entered with a medication selected. */
    ghost predicate Valid()
      reads this
    {
      view == DetailView ==> selectedMedId.Some?
    }

    constructor ()
      ensures Valid()
      ensures view == OnboardingView && medications == [] && profile == None
      ensures !showAddModal && !showScanModal && selectedMedId == None && loading
    {
      view := OnboardingView;
      medications := [];
      profile := None;
      showAddModal := false;
      showScanModal := false;
      selectedMedId := None;
      loading := true;
    }

    /** `checkProfile`: a 2xx reply stores its body as the profile and moves to the
        dashboard when the body has a name; every outcome ends loading. */
    method CheckProfile(reply: ProfileReply) returns (reload: bool)
      requires Valid()
      modifies this`profile, this`view, this`loading
      ensures Valid()
      ensures !loading
      ensures profile == (if reply.ProfileOk? then StoredProfile(reply.body) else old(profile))
      ensures view == (if ResolvesToDashboard(reply) then DashboardView else old(view))
      ensures reload == ReloadTriggered(old(view), view)
    {
      var before := view;
      if reply.ProfileOk? {
        profile := StoredProfile(reply.body);
        // a `null` body makes reading `data.name` throw, which the catch swallows
        if reply.body.Some? && reply.body.value.name.Some? && reply.body.value.name.value != "" {
          view := DashboardView;
        }
      }
      loading := false;
      reload := ReloadTriggered(before, view);
    }

    /** `loadMedications`: the list is replaced wholesale by the body, or emptied by a `null`
        body; a failed call leaves it as it was. */
    method LoadMedications(reply: Call<Option<seq<Medication>>>)
      modifies this`medications
      ensures medications == (if reply.Answered? then reply.body.GetOr([]) else old(medications))
    {
      if reply.Answered? {
        medications := reply.body.GetOr([]);
      }
    }

    /** `handleProfileComplete`: sends the shaped draft; on success stores the draft itself,
        untransformed, and moves to the dashboard; on failure changes nothing. */
    method CompleteProfile(data: ProfileDraft, reply: SaveReply) returns (payload: ProfilePayload, reload: bool)
      requires Valid()
      modifies this`profile, this`view
      ensures Valid()
      ensures payload == ShapeProfile(data)
      ensures reply.SaveOk? ==> profile == Some(Entered(data)) && view == DashboardView
      ensures !reply.SaveOk? ==> profile == old(profile) && view == old(view)
      ensures reload == ReloadTriggered(old(view), view)
    {
      var before := view;
      payload := ShapeProfile(data);
      if reply.SaveOk? {
        profile := Some(Entered(data));
        view := DashboardView;
      }
      reload := ReloadTriggered(before, view);
    }

    /** `handleAddMedSubmit`: `med` is sent to the add endpoint. A reply carrying a
        medication prepends it; CRITICAL and any other reply leave the list; all three close
        the add modal. A failed call, or a `null` body (reading `result.medication` throws),
        changes nothing. */
    method SubmitMedication(med: MedDraft, reply: Call<Option<AddReply>>)
      modifies this`medications, this`showAddModal
      ensures reply.Answered? && reply.body.Some? ==>
        !showAddModal &&
        medications == match ClassifyAdd(reply.body.value)
                       case Added(m) => [m] + old(medications)
                       case _ => old(medications)
      ensures !(reply.Answered? && reply.body.Some?) ==>
        medications == old(medications) && showAddModal == old(showAddModal)
    {
      if reply.Answered? && reply.body.Some? {
        var outcome := ClassifyAdd(reply.body.value);
        if outcome.Added? {
          medications := [outcome.medication] + medications;
        }
        showAddModal := false;
      }
    }

    /** The dashboard's + button. */
    method OpenAddModal()
      modifies this`showAddModal
      ensures showAddModal
    {
      showAddModal := true;
    }

    /** The add modal's Cancel. */
    method CloseAddModal()
      modifies this`showAddModal
      ensures !showAddModal
    {
      showAddModal := false;
    }

    /** The dashboard's scan button. */
    method OpenScanModal()
      modifies this`showScanModal
      ensures showScanModal
    {
      showScanModal := true;
    }

    /** The scanner's close button. */
    method CloseScanModal()
      modifies this`showScanModal
      ensures !showScanModal
    {
      showScanModal := false;
    }

    /** A dashboard row click: selects that id and opens the detail view. */
    method ClickMedication(id: string) returns (reload: bool)
      requires Valid()
      modifies this`selectedMedId, this`view
      ensures Valid()
      ensures selectedMedId == Some(id) && view == DetailView
      ensures !reload
    {
      var before := view;
      selectedMedId := Some(id);
      view := DetailView;
      reload := ReloadTriggered(before, view);
    }

    /** The detail view's Back: returns to the dashboard and keeps the selection. */
    method Back() returns (reload: bool)
      requires Valid()
      modifies this`view
      ensures Valid()
      ensures view == DashboardView
      ensures reload <==> old(view) != DashboardView
    {
      var before := view;
      view := DashboardView;
      reload := ReloadTriggered(before, view);
    }

    /** `selectedMed`. */
    function SelectedMed(): (r: Option<Medication>)
      reads this
      ensures r.Some? ==> r.value in medications && Some(r.value.id) == selectedMedId
      ensures r.None? <==> forall i :: 0 <= i < |medications| ==> Some(medications[i].id) != selectedMedId
    {
      FindById(medications, selectedMedId)
    }

    /** What the root renders. */
    function Render(): (s: Screen)
      reads this
      ensures s.Spinner? <==> loading
      ensures s.Page? ==> s.addModal == showAddModal && s.scanModal == showScanModal
      ensures s.Page? ==> (s.main.ProfileFormPanel? <==> view == OnboardingView)
      ensures s.Page? ==> (s.main.DashboardPanel? <==> view == DashboardView)
      ensures s.Page? ==> (s.main.DetailPanel? <==> view == DetailView && SelectedMed().Some?)
      ensures s.Page? && s.main.DetailPanel? ==> s.main.med in medications && Some(s.main.med.id) == selectedMedId
      ensures s.Page? ==> (s.main.NoPanel? <==> view == DetailView && SelectedMed().None?)
    {
      if loading then Spinner
      else
        var main := match view
          case OnboardingView => ProfileFormPanel
          case DashboardView => DashboardPanel
          case DetailView => (match SelectedMed() case Some(m) => DetailPanel(m) case None => NoPanel);
        Page(main, showAddModal, showScanModal)
    }
  }

  /** An empty detail page only ever happens with a medication selected: its id is missing
      from the list, not absent. */
  lemma EmptyDetailHasSelection(a: AppState)
    requires a.Valid()
    ensures a.Render() == Page(NoPanel, a.showAddModal, a.showScanModal) ==>
      a.selectedMedId.Some? && forall i :: 0 <= i < |a.medications| ==> Some(a.medications[i].id) != a.selectedMedId
  {
  }

  /** The row a user clicks on the dashboard always resolves: its id is in the list. */
  lemma RowClickResolves(meds: seq<Medication>, i: nat)
    requires i < |meds|
    ensures FindById(meds, Some(meds[i].id)).Some?
  {
  }

  /** An added medication is found by its id right after the add, even when an older entry
      has the same id: the new one is first. */
  lemma AddedMedicationIsFirst(r: AddReply, earlier: seq<Medication>)
    requires r.medication.Some?
    ensures FindById([r.medication.value] + earlier, Some(r.medication.value.id)) == r.medication
  {
  }
}
