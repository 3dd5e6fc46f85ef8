/**
 * The state machine of the onboarding screen of the current revision: the
 * selection, the favourite chosen in the dialog, and the `isSaving` latch
 * around the commit that ends onboarding.
 */
module Onboarding {
  import opened Wrappers
  import opened Seqs
  import opened ServiceModel
  import opened ServiceRegistry
  import opened SettingsStore
  import opened AppState

  /** Tapping a row: remove the service if selected, add it otherwise. */
  function Toggled(selected: set<ServiceId>, id: ServiceId): (r: set<ServiceId>)
    ensures id in r <==> id !in selected
    ensures forall other :: other != id ==> (other in r <==> other in selected)
  {
    if id in selected then selected - {id} else selected + {id}
  }

  /** `favourite?.takeIf { it in newSet }`. */
  function KeptFavorite(favorite: Option<ServiceId>, newSet: set<ServiceId>): (r: Option<ServiceId>)
  {
    if favorite.Some? && favorite.value in newSet then favorite else None
  }

  /** `firstSelected`: the first selected service in `ServiceRegistry.all` order. */
  function FirstSelected(selected: set<ServiceId>): (r: Option<ServiceId>)
    ensures r.Some? ==> r.value in selected
    ensures r.None? <==> selected == {}
  {
    FirstInDisplayOrder(selected)
  }

  /** No service before `firstSelected` in display order is selected. */
  lemma FirstSelectedIsFirst(selected: set<ServiceId>)
    ensures FirstSelected(selected).Some? ==>
      exists k :: 0 <= k < |DisplayOrder| && DisplayOrder[k] == FirstSelected(selected).value &&
                  (forall j :: 0 <= j < k ==> DisplayOrder[j] !in selected)
  {
    var k := FirstIn(DisplayOrder, selected);
    if k != -1 {
      assert DisplayOrder[k] == FirstSelected(selected).value;
    }
  }

  function IsSelectedIn(selected: set<ServiceId>): (r: AppService -> bool) {
    (s: AppService) => s.id in selected
  }

  /** For each group, the selected services of it; groups with none selected are skipped. */
  function SelectedGroups(groups: seq<(ServiceCategory, seq<AppService>)>, selected: set<ServiceId>): (r: seq<(ServiceCategory, seq<AppService>)>) {
    if groups == [] then []
    else
      var inCategory := Filter(groups[0].1, IsSelectedIn(selected));
      (if inCategory == [] then [] else [(groups[0].0, inCategory)]) + SelectedGroups(groups[1..], selected)
  }

  /** The favourite dialog's category sections. */
  function FavoriteDialogGroups(selected: set<ServiceId>): (r: seq<(ServiceCategory, seq<AppService>)>) {
    SelectedGroups(GroupedByCategory(), selected)
  }

  /** The choices the favourite dialog offers: "not set", then every service it lists. */
  function FavoriteDialogOptions(selected: set<ServiceId>): (r: seq<Option<ServiceId>>)
  {
    [None] + OptionsOf(Members(FavoriteDialogGroups(selected)))
  }

  function OptionsOf(services: seq<AppService>): (r: seq<Option<ServiceId>>)
    ensures |r| == |services|
    ensures forall i :: 0 <= i < |r| ==> r[i] == Some(services[i].id)
  {
    if services == [] then [] else [Some(services[0].id)] + OptionsOf(services[1..])
  }

  lemma {:induction false} SelectedGroupsMembers(groups: seq<(ServiceCategory, seq<AppService>)>, selected: set<ServiceId>)
    ensures Members(SelectedGroups(groups, selected)) == Filter(Members(groups), IsSelectedIn(selected))
    ensures forall i :: 0 <= i < |SelectedGroups(groups, selected)| ==> SelectedGroups(groups, selected)[i].1 != []
  {
    if groups != [] {
      SelectedGroupsMembers(groups[1..], selected);
      var p := IsSelectedIn(selected);
      var inCategory := Filter(groups[0].1, p);
      var head: seq<(ServiceCategory, seq<AppService>)> := if inCategory == [] then [] else [(groups[0].0, inCategory)];
      var rest := SelectedGroups(groups[1..], selected);
      FilterConcat(groups[0].1, Members(groups[1..]), p);
      MembersOfConcat(head, rest);
      if inCategory != [] {
        assert Members(head) == inCategory + [] by {
          assert head[1..] == [];
        }
      }
    }
  }

  lemma {:induction false} MembersOfConcat(a: seq<(ServiceCategory, seq<AppService>)>, b: seq<(ServiceCategory, seq<AppService>)>)
    ensures Members(a + b) == Members(a) + Members(b)
  {
    if a == [] {
      assert a + b == b;
    } else {
      assert (a + b)[0] == a[0];
      assert (a + b)[1..] == a[1..] + b;
      MembersOfConcat(a[1..], b);
    }
  }

  /** The favourite dialog's sections hold exactly the selected services, in display order, and none is empty. */
  lemma FavoriteDialogGroupsAreSelection(selected: set<ServiceId>)
    ensures Members(FavoriteDialogGroups(selected)) == Filter(All, IsSelectedIn(selected))
    ensures forall i :: 0 <= i < |FavoriteDialogGroups(selected)| ==> FavoriteDialogGroups(selected)[i].1 != []
  {
    SelectedGroupsMembers(GroupedByCategory(), selected);
    GroupsConcatenateToAll();
  }

  /** The favourite dialog offers "not set" first and then exactly the selected services. */
  lemma FavoriteDialogListsSelection(selected: set<ServiceId>)
    ensures forall i :: 1 <= i < |FavoriteDialogOptions(selected)| ==>
      FavoriteDialogOptions(selected)[i].Some? && FavoriteDialogOptions(selected)[i].value in selected
    ensures forall id :: id in selected ==> Some(id) in FavoriteDialogOptions(selected)
  {
    var listed := Filter(All, IsSelectedIn(selected));
    assert FavoriteDialogOptions(selected) == [None] + OptionsOf(listed) by {
      FavoriteDialogGroupsAreSelection(selected);
    }
    assert forall id: ServiceId :: id in Ids(All) by {
      AllIdsAreDisplayOrder();
      DisplayOrderIsPermutation();
    }
    SelectionIsListed(All, selected);
    OptionsAreListed(listed, selected);
  }

  /** Filtering a list that holds every service by the selection lists every selected service, and only those. */
  lemma SelectionIsListed(services: seq<AppService>, selected: set<ServiceId>)
    requires forall id: ServiceId :: id in Ids(services)
    ensures forall i :: 0 <= i < |Filter(services, IsSelectedIn(selected))| ==> Filter(services, IsSelectedIn(selected))[i].id in selected
    ensures forall id :: id in selected ==>
      exists j :: 0 <= j < |Filter(services, IsSelectedIn(selected))| && Filter(services, IsSelectedIn(selected))[j].id == id
  {
    var listed := Filter(services, IsSelectedIn(selected));
    FilterMembers(services, IsSelectedIn(selected));
    forall id | id in selected ensures exists j :: 0 <= j < |listed| && listed[j].id == id {
      assert id in Ids(services);
      var k :| 0 <= k < |services| && Ids(services)[k] == id;
      assert services[k] in listed;
      var j :| 0 <= j < |listed| && listed[j] == services[k];
    }
  }

  /** "Not set" followed by one choice per listed service offers exactly the listed services. */
  lemma OptionsAreListed(listed: seq<AppService>, selected: set<ServiceId>)
    requires forall i :: 0 <= i < |listed| ==> listed[i].id in selected
    requires forall id :: id in selected ==> exists j :: 0 <= j < |listed| && listed[j].id == id
    ensures forall i :: 1 <= i < |[None] + OptionsOf(listed)| ==>
      ([None] + OptionsOf(listed))[i].Some? && ([None] + OptionsOf(listed))[i].value in selected
    ensures forall id :: id in selected ==> Some(id) in [None] + OptionsOf(listed)
  {
    var options: seq<Option<ServiceId>> := [None] + OptionsOf(listed);
    forall i | 1 <= i < |options| ensures options[i].Some? && options[i].value in selected {
      assert options[i] == OptionsOf(listed)[i - 1];
    }
    forall id | id in selected ensures Some(id) in options {
      var j :| 0 <= j < |listed| && listed[j].id == id;
      assert options[j + 1] == OptionsOf(listed)[j];
    }
  }

  /** The remembered state of the onboarding screen and the view model it commits through. */
  class OnboardingScreen {
    const viewModel: AppStateViewModel
    var selectedServices: set<ServiceId>
    var selectedFavorite: Option<ServiceId>
    var isSaving: bool
    var navigatedToMain: bool

    /** The favourite is always one of the selected services. */
    predicate Valid()
      reads this
    {
      selectedFavorite.Some? ==> selectedFavorite.value in selectedServices
    }

    /** The Start button is enabled iff something is selected and no save is running. */
    function ButtonEnabled(): (r: bool)
      reads this
    {
      selectedServices != {} && !isSaving
    }

    constructor(vm: AppStateViewModel)
      ensures viewModel == vm
      ensures selectedServices == {} && selectedFavorite == None && !isSaving && !navigatedToMain
      ensures Valid()
    {
      viewModel := vm;
      selectedServices := {};
      selectedFavorite := None;
      isSaving := false;
      navigatedToMain := false;
    }

    /** `onSelectedServicesChange`: the new selection; the favourite survives only if still selected. */
    method OnSelectedServicesChange(newSet: set<ServiceId>)
      modifies this
      ensures selectedServices == newSet
      ensures selectedFavorite == KeptFavorite(old(selectedFavorite), newSet)
      ensures isSaving == old(isSaving) && navigatedToMain == old(navigatedToMain)
      ensures Valid()
    {
      selectedServices := newSet;
      selectedFavorite := KeptFavorite(selectedFavorite, newSet);
    }

    /** Tapping a service row in the services dialog. */
    method ToggleRow(id: ServiceId)
      modifies this
      ensures selectedServices == Toggled(old(selectedServices), id)
      ensures selectedFavorite == KeptFavorite(old(selectedFavorite), selectedServices)
      ensures isSaving == old(isSaving) && navigatedToMain == old(navigatedToMain)
      ensures Valid()
    {
      OnSelectedServicesChange(Toggled(selectedServices, id));
    }

    /** The services dialog's reset button: nothing selected and so no favourite. */
    method Reset()
      modifies this
      ensures selectedServices == {} && selectedFavorite == None
      ensures isSaving == old(isSaving) && navigatedToMain == old(navigatedToMain)
      ensures Valid()
    {
      OnSelectedServicesChange({});
    }

    /** Picking a row of the favourite dialog. */
    method SelectFavorite(choice: Option<ServiceId>)
      requires choice in FavoriteDialogOptions(selectedServices)
      modifies this
      ensures selectedFavorite == choice
      ensures selectedServices == old(selectedServices) && isSaving == old(isSaving) && navigatedToMain == old(navigatedToMain)
      ensures Valid()
    {
      FavoriteDialogListsSelection(selectedServices);
      selectedFavorite := choice;
    }

    /**
     * The Start button's click handler: with a first selected service and no
     * save running, latch `isSaving`, commit, then go to the main screen on
     * success or release the latch on failure.
     */
    method PressStart() returns (committed: Option<Outcome>)
      modifies this, viewModel, viewModel.repo
      ensures committed.None? <==> old(selectedServices) == {} || old(isSaving)
      ensures committed.None? ==>
        isSaving == old(isSaving) && navigatedToMain == old(navigatedToMain) &&
        viewModel.repo.State() == old(viewModel.repo.State()) && viewModel.messages == old(viewModel.messages)
      ensures committed.Some? ==>
        var c := CompleteOnboardingRun(old(viewModel.repo.State()), old(selectedServices), FirstSelected(old(selectedServices)).value);
        committed.value == c.outcome &&
        viewModel.repo.State() == c.store && viewModel.messages == old(viewModel.messages) + c.emitted &&
        isSaving == (c.outcome == Pass) && navigatedToMain == (old(navigatedToMain) || c.outcome == Pass)
      ensures selectedServices == old(selectedServices) && selectedFavorite == old(selectedFavorite)
      ensures viewModel.uiState == old(viewModel.uiState)
      ensures viewModel.themeMode == old(viewModel.themeMode) && viewModel.loadedCatalogViewMode == old(viewModel.loadedCatalogViewMode)
    {
      var firstSelected := FirstSelected(selectedServices);
      if firstSelected.None? || isSaving {
        return None;
      }
      isSaving := true;
      var res := viewModel.CompleteOnboarding(selectedServices, firstSelected.value);
      if res == Pass {
        navigatedToMain := true;
      } else {
        isSaving := false;
      }
      committed := Some(res);
    }
  }

  /** The button rule and the handler's guard agree: the handler commits exactly when the button is enabled. */
  lemma StartGuardMatchesButton(selected: set<ServiceId>, isSaving: bool)
    ensures (FirstSelected(selected).Some? && !isSaving) <==> (selected != {} && !isSaving)
  {
  }
}
