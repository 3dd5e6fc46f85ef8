/**
 * The decision logic of the main services screen of the current revision: which
 * service is shown, which services the dock lists and when it is shown, and what
 * Back does. Time is the integer `now` the caller passes (milliseconds).
 */
module MainScreen {
  import opened Wrappers
  import opened Seqs
  import opened ServiceModel
  import opened ServiceRegistry
  import opened SettingsStore
  import opened AppState

  /** Two Back presses closer than this many milliseconds exit the application. */
  const ExitWindowMillis: int := 2000

  /**
   * The service on screen for a registry order `order`: the last service when
   * it is enabled, otherwise the home service.
   */
  function CurrentServiceIn(order: seq<ServiceId>, ui: AppStateUiState): (r: ServiceId) {
    if EnabledChoice(ui.lastService, ui.enabledServices) then ui.lastService.value else HomeServiceIdIn(order, ui)
  }

  /** `currentServiceId` over `ServiceRegistry.all`. */
  function CurrentServiceId(ui: AppStateUiState): (r: ServiceId) {
    CurrentServiceIn(DisplayOrder, ui)
  }

  /** With some service enabled, the one on screen is enabled. */
  lemma CurrentServiceIsEnabled(ui: AppStateUiState)
    requires ui.enabledServices != {}
    ensures CurrentServiceId(ui) in ui.enabledServices
  {
    HomeServiceIdIsEnabled(ui);
  }

  function HasIdIn(enabled: set<ServiceId>): (r: AppService -> bool) {
    (s: AppService) => s.id in enabled
  }

  function InSet(enabled: set<ServiceId>): (r: ServiceId -> bool) {
    (id: ServiceId) => id in enabled
  }

  /** `ServiceRegistry.all.filter { it.id in enabled }`. */
  function DockServices(enabled: set<ServiceId>): (r: seq<AppService>) {
    Filter(All, HasIdIn(enabled))
  }

  /** The dock bar is composed only for more than one service. */
  predicate DockVisible(enabled: set<ServiceId>) {
    |DockServices(enabled)| > 1
  }

  lemma {:induction false} IdsOfFilter(services: seq<AppService>, enabled: set<ServiceId>)
    ensures Ids(Filter(services, HasIdIn(enabled))) == Filter(Ids(services), InSet(enabled))
  {
    if services != [] {
      IdsOfFilter(services[1..], enabled);
      assert Ids(services)[1..] == Ids(services[1..]);
      var rest := Filter(services[1..], HasIdIn(enabled));
      if services[0].id in enabled {
        assert Ids([services[0]] + rest) == [services[0].id] + Ids(rest);
      }
    }
  }

  /** Restricting a duplicate-free list of every service to `enabled` gives each enabled service once. */
  lemma RestrictedOrder(order: seq<ServiceId>, enabled: set<ServiceId>)
    requires NoDuplicates(order)
    requires forall id: ServiceId :: id in order
    ensures NoDuplicates(Filter(order, InSet(enabled)))
    ensures Elements(Filter(order, InSet(enabled))) == enabled
    ensures |Filter(order, InSet(enabled))| == |enabled|
  {
    var ids := Filter(order, InSet(enabled));
    FilterNoDuplicates(order, InSet(enabled));
    FilterMembers(order, InSet(enabled));
    forall id | id in enabled ensures id in Elements(ids) {
      assert id in order;
      var k :| 0 <= k < |order| && order[k] == id;
    }
    forall id | id in Elements(ids) ensures id in enabled {
      var k :| 0 <= k < |ids| && ids[k] == id;
    }
    DistinctCardinality(ids);
  }

  /**
   * The dock lists exactly the enabled services, each once, in display order:
   * it is a subsequence of `all`, its ids are `displayOrder` restricted to the
   * enabled set, and it has one entry per enabled service.
   */
  lemma DockListsEnabledInOrder(enabled: set<ServiceId>)
    ensures IsSubsequence(DockServices(enabled), All)
    ensures Ids(DockServices(enabled)) == Filter(DisplayOrder, InSet(enabled))
    ensures NoDuplicates(Ids(DockServices(enabled)))
    ensures Elements(Ids(DockServices(enabled))) == enabled
    ensures |DockServices(enabled)| == |enabled|
  {
    FilterIsSubsequence(All, HasIdIn(enabled));
    assert Ids(DockServices(enabled)) == Filter(DisplayOrder, InSet(enabled)) by {
      IdsOfFilter(All, enabled);
      AllIdsAreDisplayOrder();
    }
    assert NoDuplicates(DisplayOrder) && forall id: ServiceId :: id in DisplayOrder by {
      DisplayOrderIsPermutation();
    }
    RestrictedOrder(DisplayOrder, enabled);
  }

  /** The dock is shown exactly when more than one service is enabled. */
  lemma DockVisibleIffSeveralEnabled(enabled: set<ServiceId>)
    ensures DockVisible(enabled) <==> |enabled| > 1
  {
    DockListsEnabledInOrder(enabled);
  }

  /** What a Back press does. */
  datatype BackAction =
    | NotHandled              // the handler is disabled while the drawer is active
    | FinishActivity
    | ShowPressAgainHint
    | ReturnHome(home: ServiceId)

  /**
   * The BackHandler's decision for the service on screen, the home service,
   * the time of the last press on home, and now.
   */
  function BackDecision(current: ServiceId, home: ServiceId, lastBackPressTime: int, now: int, drawerActive: bool): (r: BackAction) {
    if drawerActive then NotHandled
    else if current == home then
      (if now - lastBackPressTime < ExitWindowMillis then FinishActivity else ShowPressAgainHint)
    else ReturnHome(home)
  }

  /**
   * Back off the home service asks for the home service as last service; once
   * that is stored, the home service is on screen and is still the home service.
   */
  lemma ReturnHomeLandsOnHome(ui: AppStateUiState, lastBackPressTime: int, now: int)
    requires ui.enabledServices != {}
    requires CurrentServiceId(ui) != HomeServiceId(ui)
    ensures BackDecision(CurrentServiceId(ui), HomeServiceId(ui), lastBackPressTime, now, false) == ReturnHome(HomeServiceId(ui))
    ensures var next := ui.(lastService := Some(HomeServiceId(ui)));
      CurrentServiceId(next) == HomeServiceId(ui) && HomeServiceId(next) == HomeServiceId(ui)
  {
    HomeServiceIdIsEnabled(ui);
  }

  /**
   * On the home service Back exits exactly when the previous press on home was
   * less than 2000 ms ago, and otherwise shows the hint; with the drawer active
   * it is not handled at all.
   */
  lemma BackOnHomeExitsOnlyWithinWindow(home: ServiceId, lastBackPressTime: int, now: int)
    ensures BackDecision(home, home, lastBackPressTime, now, false) == FinishActivity <==> now - lastBackPressTime < 2000
    ensures BackDecision(home, home, lastBackPressTime, now, false) != FinishActivity ==>
      BackDecision(home, home, lastBackPressTime, now, false) == ShowPressAgainHint
    ensures BackDecision(home, home, lastBackPressTime, now, true) == NotHandled
  {
  }

  /** Off the home service Back never exits: it returns to the home service. */
  lemma BackOffHomeReturnsHome(current: ServiceId, home: ServiceId, lastBackPressTime: int, now: int)
    requires current != home
    ensures BackDecision(current, home, lastBackPressTime, now, false) == ReturnHome(home)
  {
  }

  /** The screen's own state and the view model it calls. */
  class ServicesMainScreen {
    const viewModel: AppStateViewModel
    var lastBackPressTime: int
    var finished: bool
    var hintsShown: nat

    constructor(vm: AppStateViewModel)
      ensures viewModel == vm && lastBackPressTime == 0 && !finished && hintsShown == 0
    {
      viewModel := vm;
      lastBackPressTime := 0;
      finished := false;
      hintsShown := 0;
    }

    /** The BackHandler: exit, or remember the press and show the hint, or go to the home service. */
    method OnBack(now: int, drawerActive: bool) returns (action: BackAction)
      modifies this, viewModel, viewModel.repo
      ensures action == BackDecision(CurrentServiceId(old(viewModel.uiState)), HomeServiceId(old(viewModel.uiState)), old(lastBackPressTime), now, drawerActive)
      ensures lastBackPressTime == (if action == ShowPressAgainHint then now else old(lastBackPressTime))
      ensures finished == (old(finished) || action == FinishActivity)
      ensures hintsShown == old(hintsShown) + (if action == ShowPressAgainHint then 1 else 0)
      ensures action.ReturnHome? ==>
        var s := SaveStep(SetLastServiceRun(old(viewModel.repo.State()), Some(action.home)));
        viewModel.repo.State() == s.store && viewModel.messages == old(viewModel.messages) + s.emitted
      ensures !action.ReturnHome? ==>
        viewModel.repo.State() == old(viewModel.repo.State()) && viewModel.messages == old(viewModel.messages)
      ensures viewModel.uiState == old(viewModel.uiState)
      ensures viewModel.themeMode == old(viewModel.themeMode) && viewModel.loadedCatalogViewMode == old(viewModel.loadedCatalogViewMode)
    {
      action := BackDecision(CurrentServiceId(viewModel.uiState), HomeServiceId(viewModel.uiState), lastBackPressTime, now, drawerActive);
      if drawerActive {
        return;
      }
      var ui := viewModel.uiState;
      var home := HomeServiceId(ui);
      if CurrentServiceId(ui) == home {
        if now - lastBackPressTime < ExitWindowMillis {
          finished := true;
        } else {
          lastBackPressTime := now;
          hintsShown := hintsShown + 1;
        }
      } else {
        viewModel.SetLastService(Some(home));
      }
    }

    /** Selecting a dock item stores it as the last service. */
    method SelectDockItem(id: ServiceId)
      modifies viewModel, viewModel.repo
      ensures var s := SaveStep(SetLastServiceRun(old(viewModel.repo.State()), Some(id)));
        viewModel.repo.State() == s.store && viewModel.messages == old(viewModel.messages) + s.emitted
      ensures viewModel.uiState == old(viewModel.uiState)
      ensures viewModel.themeMode == old(viewModel.themeMode) && viewModel.loadedCatalogViewMode == old(viewModel.loadedCatalogViewMode)
    {
      viewModel.SetLastService(Some(id));
    }
  }

  /**
   * Two Back presses on the home service at `t1` and then `t2`, starting from a
   * remembered press at `t0` at least 2000 ms before `t1`: the first only shows
   * the hint, and the second exits exactly when it comes less than 2000 ms after the first.
   */
  lemma DoublePressExits(home: ServiceId, t0: int, t1: int, t2: int)
    requires t1 - t0 >= 2000
    ensures BackDecision(home, home, t0, t1, false) == ShowPressAgainHint
    ensures BackDecision(home, home, t1, t2, false) == FinishActivity <==> t2 - t1 < 2000
  {
  }

  /** A dock selection, once stored, is what the screen shows. */
  lemma SelectedDockItemIsShown(st: Store, ui: AppStateUiState, id: ServiceId)
    requires id in ui.enabledServices
    requires !NextFails(st.ioFaults)
    ensures LastOf(SetLastServiceRun(st, Some(id)).store.prefs) == Some(id)
    ensures CurrentServiceId(ui.(lastService := Some(id))) == id
  {
    ScalarWritesReadBack(st.prefs, Some(id), true, true);
  }
}
