/**
 * The decision logic embedded in the older revision's navigation file: the
 * home service, the bootstrap screen's route choice, the onboarding screen's
 * selection and Start sequence, the main screen's current service and Back
 * handling, and the dock's split into a left part, an optional middle item and
 * a right part. Time is the integer `now` the caller passes (milliseconds).
 */
module LegacyNavigation {
  import opened Wrappers
  import opened Seqs
  import opened ServiceModel
  import opened SettingsStore
  import opened AppState
  import opened LegacyAppState
  import LegacyRegistry
  import MainScreen

  // ---- home service and routes ----

  /**
   * `homeServiceId()` over the older `ServiceRegistry.all`, whose ids are
   * `ServiceId.entries` (`LegacyRegistry.AllInDeclarationOrder`).
   */
  function LegacyHomeServiceId(ui: AppStateUiState): (r: ServiceId) {
    HomeServiceIdIn(Entries, ui)
  }

  /**
   * The older home service: the favourite if enabled, else the last service if
   * enabled, else the first enabled service in declaration order, else DEALS;
   * with some service enabled it is enabled.
   */
  lemma LegacyHomeServiceResolution(ui: AppStateUiState)
    ensures EnabledChoice(ui.favoriteService, ui.enabledServices) ==>
      LegacyHomeServiceId(ui) == ui.favoriteService.value
    ensures !EnabledChoice(ui.favoriteService, ui.enabledServices) && EnabledChoice(ui.lastService, ui.enabledServices) ==>
      LegacyHomeServiceId(ui) == ui.lastService.value
    ensures !EnabledChoice(ui.favoriteService, ui.enabledServices) && !EnabledChoice(ui.lastService, ui.enabledServices) ==>
      (exists k :: 0 <= k < |Entries| && Entries[k] == LegacyHomeServiceId(ui) && Entries[k] in ui.enabledServices &&
                   (forall j :: 0 <= j < k ==> Entries[j] !in ui.enabledServices)) ||
      ((forall j :: 0 <= j < |Entries| ==> Entries[j] !in ui.enabledServices) && LegacyHomeServiceId(ui) == DEALS)
    ensures ui.enabledServices != {} ==> LegacyHomeServiceId(ui) in ui.enabledServices
  {
    HomeServiceIdResolution(Entries, ui);
    EntriesListEveryIdOnce();
    if ui.enabledServices != {} {
      HomeServiceIsEnabled(Entries, ui);
    }
  }

  /** `homeRoute()`: the main screen, whatever the state. */
  function LegacyHomeRoute(ui: AppStateUiState): (r: Route) {
    MainRoute
  }

  /** The route the older bootstrap screen wants for `ui`. */
  function LegacyBootstrapTarget(ui: AppStateUiState): (r: Route)
  {
    if !ui.onboardingDone then OnboardingRoute else LegacyHomeRoute(ui)
  }

  /**
   * The bootstrap screen's effect, run on every change of `ui`: the route it
   * navigates to, or `None` when `current` is already the target.
   */
  function BootstrapNavigation(ui: AppStateUiState, current: Option<Route>): (r: Option<Route>) {
    var target := LegacyBootstrapTarget(ui);
    if current == Some(target) then None else Some(target)
  }

  /**
   * The effect navigates exactly when the current route is not the target, and
   * then to the target; once there, running it again does nothing.
   */
  lemma BootstrapNavigatesOnceToTarget(ui: AppStateUiState, current: Option<Route>)
    ensures BootstrapNavigation(ui, current).None? <==> current == Some(LegacyBootstrapTarget(ui))
    ensures BootstrapNavigation(ui, current).Some? ==> BootstrapNavigation(ui, current).value == LegacyBootstrapTarget(ui)
    ensures BootstrapNavigation(ui, current).Some? ==> BootstrapNavigation(ui, BootstrapNavigation(ui, current)).None?
  {
  }

  // ---- onboarding ----

  /** `ServiceRegistry.all.firstOrNull { it.id in selected }?.id`, over the registry's ids. */
  function LegacyFirstSelected(selected: set<ServiceId>): (r: Option<ServiceId>) {
    var k := FirstIn(Entries, selected);
    if k == -1 then None else Some(Entries[k])
  }

  /**
   * The first selected service exists exactly when something is selected; it
   * is selected, and no service before it in declaration order is.
   */
  lemma LegacyFirstSelectedIsFirst(selected: set<ServiceId>)
    ensures LegacyFirstSelected(selected).None? <==> selected == {}
    ensures LegacyFirstSelected(selected).Some? ==>
      exists k :: 0 <= k < |Entries| && Entries[k] == LegacyFirstSelected(selected).value && Entries[k] in selected &&
                  (forall j :: 0 <= j < k ==> Entries[j] !in selected)
  {
    if selected != {} {
      var id :| id in selected;
      EntriesListEveryIdOnce();
      FirstInFindsMember(Entries, selected, id);
    }
  }

  /**
   * The Start handler's writes, each forwarded on its own: enabled := the
   * selection, then onboarding done, then last := `first`. Every write is
   * attempted, whether or not an earlier one threw.
   */
  function LegacyStartRun(st: Store, selected: set<ServiceId>, first: ServiceId): (r: LegacyStep) {
    var w1 := SetEnabledServicesRun(st, selected);
    var w2 := SetOnboardingDoneRun(w1.store, true);
    var w3 := SetLastServiceRun(w2.store, Some(first));
    LegacyStep(w3.store, [], w1.outcome == Fail || w2.outcome == Fail || w3.outcome == Fail)
  }

  /**
   * With a non-empty selection the Start sequence runs three transactions,
   * emits nothing, and an exception escapes exactly when one of them throws.
   * The onboarding flag is stored whenever its own write succeeds, and the
   * last service whenever the third write succeeds, whatever happened before.
   */
  lemma LegacyStartRunsEveryWrite(st: Store, selected: set<ServiceId>, first: ServiceId)
    requires selected != {}
    ensures var s := LegacyStartRun(st, selected, first);
      s.store.ioFaults == Rest(Rest(Rest(st.ioFaults))) && s.emitted == [] &&
      (s.crashed <==> NextFails(st.ioFaults) || NextFails(Rest(st.ioFaults)) || NextFails(Rest(Rest(st.ioFaults))))
    ensures !NextFails(Rest(st.ioFaults)) && !NextFails(Rest(Rest(st.ioFaults))) ==>
      OnboardingDoneOf(LegacyStartRun(st, selected, first).store.prefs)
    ensures !NextFails(Rest(Rest(st.ioFaults))) ==>
      LastOf(LegacyStartRun(st, selected, first).store.prefs) == Some(first)
  {
    var w1 := SetEnabledServicesRun(st, selected);
    var w2 := SetOnboardingDoneRun(w1.store, true);
    ScalarWritesReadBack(w2.store.prefs, Some(first), true, true);
  }

  /**
   * Without faults the Start sequence leaves the selection enabled, onboarding
   * done and `first` as last service; the bootstrap then goes to the main
   * screen, and the home service is a selected one.
   */
  lemma LegacyStartThenBootstrapGoesToMain(st: Store, selected: set<ServiceId>, first: ServiceId)
    requires selected != {}
    requires !NextFails(st.ioFaults) && !NextFails(Rest(st.ioFaults)) && !NextFails(Rest(Rest(st.ioFaults)))
    ensures var s := LegacyStartRun(st, selected, first);
      var ui := UiStateOf(s.store.prefs);
      !s.crashed && ui.enabledServices == selected && ui.onboardingDone && ui.lastService == Some(first) &&
      LegacyBootstrapTarget(ui) == MainRoute && LegacyHomeServiceId(ui) in selected
  {
    var w1 := SetEnabledServicesRun(st, selected);
    EditEnabledServicesReadsBack(st.prefs, selected);
    var w2 := SetOnboardingDoneRun(w1.store, true);
    ScalarWritesReadBack(w2.store.prefs, Some(first), true, true);
    var ui := UiStateOf(LegacyStartRun(st, selected, first).store.prefs);
    LegacyHomeServiceResolution(ui);
  }

  /** The older onboarding screen's remembered selection and the view model it writes through. */
  class LegacyOnboardingScreen {
    const viewModel: LegacyAppStateViewModel
    var selectedServices: set<ServiceId>
    var navigatedToBootstrap: bool

    constructor(vm: LegacyAppStateViewModel)
      ensures viewModel == vm && selectedServices == {} && !navigatedToBootstrap
    {
      viewModel := vm;
      selectedServices := {};
      navigatedToBootstrap := false;
    }

    /** The Start button is enabled iff something is selected. */
    function StartEnabled(): (r: bool)
      reads this
    {
      selectedServices != {}
    }

    /** Tapping a row: remove the service if selected, add it otherwise. */
    method ClickRow(id: ServiceId)
      modifies this
      ensures id in selectedServices <==> id !in old(selectedServices)
      ensures forall other :: other != id ==> (other in selectedServices <==> other in old(selectedServices))
      ensures navigatedToBootstrap == old(navigatedToBootstrap)
    {
      if id in selectedServices {
        selectedServices := selectedServices - {id};
      } else {
        selectedServices := selectedServices + {id};
      }
    }

    /** The row's checkbox: checked adds the service, unchecked removes it. */
    method CheckedChange(id: ServiceId, checked: bool)
      modifies this
      ensures selectedServices == if checked then old(selectedServices) + {id} else old(selectedServices) - {id}
      ensures navigatedToBootstrap == old(navigatedToBootstrap)
    {
      if checked {
        selectedServices := selectedServices + {id};
      } else {
        selectedServices := selectedServices - {id};
      }
    }

    /**
     * The Start button's click handler: with a first selected service, the
     * three forwarded writes and then navigation to the bootstrap route.
     */
    method PressStart() returns (started: bool)
      modifies this, viewModel, viewModel.repo
      ensures started <==> old(selectedServices) != {}
      ensures started ==> LegacyFirstSelected(old(selectedServices)).Some?
      ensures started && LegacyFirstSelected(old(selectedServices)).Some? ==>
        (var s := LegacyStartRun(old(viewModel.repo.State()), old(selectedServices), LegacyFirstSelected(old(selectedServices)).value);
         viewModel.repo.State() == s.store && viewModel.crashed == (old(viewModel.crashed) || s.crashed) && navigatedToBootstrap)
      ensures !started ==>
        viewModel.repo.State() == old(viewModel.repo.State()) && viewModel.crashed == old(viewModel.crashed) &&
        navigatedToBootstrap == old(navigatedToBootstrap)
      ensures viewModel.messages == old(viewModel.messages) && viewModel.uiState == old(viewModel.uiState)
      ensures viewModel.themeMode == old(viewModel.themeMode)
      ensures selectedServices == old(selectedServices)
    {
      LegacyFirstSelectedIsFirst(selectedServices);
      var firstSelected := LegacyFirstSelected(selectedServices);
      if firstSelected.None? {
        return false;
      }
      viewModel.SetEnabledServicesDirectly(selectedServices);
      viewModel.SetOnboardingDone(true);
      viewModel.SetLastService(firstSelected);
      navigatedToBootstrap := true;
      started := true;
    }
  }

  // ---- main screen ----

  /** `currentServiceId` of the older main screen. */
  function LegacyCurrentServiceId(ui: AppStateUiState): (r: ServiceId) {
    MainScreen.CurrentServiceIn(Entries, ui)
  }

  /**
   * The service on screen is the last service when it is enabled and otherwise
   * the home service; with some service enabled it is enabled.
   */
  lemma LegacyCurrentServiceChoice(ui: AppStateUiState)
    ensures EnabledChoice(ui.lastService, ui.enabledServices) ==> LegacyCurrentServiceId(ui) == ui.lastService.value
    ensures !EnabledChoice(ui.lastService, ui.enabledServices) ==> LegacyCurrentServiceId(ui) == LegacyHomeServiceId(ui)
    ensures ui.enabledServices != {} ==> LegacyCurrentServiceId(ui) in ui.enabledServices
  {
    LegacyHomeServiceResolution(ui);
  }

  /**
   * The revisions choose the same home service and the same service on screen
   * whenever the favourite or the last service is enabled; they can differ
   * only in the fallback, which follows each registry's order.
   */
  lemma RevisionsAgreeWhenAChoiceIsEnabled(ui: AppStateUiState)
    requires EnabledChoice(ui.favoriteService, ui.enabledServices) || EnabledChoice(ui.lastService, ui.enabledServices)
    ensures LegacyHomeServiceId(ui) == HomeServiceId(ui)
    ensures LegacyCurrentServiceId(ui) == MainScreen.CurrentServiceId(ui)
  {
  }

  /** `ServiceRegistry.all.filter { it.id in enabled }` over the older list. */
  function HasIdIn(enabled: set<ServiceId>): (r: LegacyRegistry.LegacyService -> bool) {
    (s: LegacyRegistry.LegacyService) => s.id in enabled
  }

  function LegacyDockServices(enabled: set<ServiceId>): (r: seq<LegacyRegistry.LegacyService>) {
    Filter(LegacyRegistry.All, HasIdIn(enabled))
  }

  lemma {:induction false} LegacyIdsOfFilter(services: seq<LegacyRegistry.LegacyService>, enabled: set<ServiceId>)
    ensures LegacyRegistry.Ids(Filter(services, HasIdIn(enabled))) == Filter(LegacyRegistry.Ids(services), MainScreen.InSet(enabled))
  {
    if services != [] {
      LegacyIdsOfFilter(services[1..], enabled);
      assert LegacyRegistry.Ids(services)[1..] == LegacyRegistry.Ids(services[1..]);
      var rest := Filter(services[1..], HasIdIn(enabled));
      if services[0].id in enabled {
        assert LegacyRegistry.Ids([services[0]] + rest) == [services[0].id] + LegacyRegistry.Ids(rest);
      }
    }
  }

  /**
   * The older dock lists exactly the enabled services, each once, in
   * declaration order, so it has one entry per enabled service.
   */
  lemma LegacyDockListsEnabledInOrder(enabled: set<ServiceId>)
    ensures IsSubsequence(LegacyDockServices(enabled), LegacyRegistry.All)
    ensures LegacyRegistry.Ids(LegacyDockServices(enabled)) == Filter(Entries, MainScreen.InSet(enabled))
    ensures Elements(LegacyRegistry.Ids(LegacyDockServices(enabled))) == enabled
    ensures |LegacyDockServices(enabled)| == |enabled|
  {
    FilterIsSubsequence(LegacyRegistry.All, HasIdIn(enabled));
    assert LegacyRegistry.Ids(LegacyDockServices(enabled)) == Filter(Entries, MainScreen.InSet(enabled)) by {
      LegacyIdsOfFilter(LegacyRegistry.All, enabled);
      LegacyRegistry.AllInDeclarationOrder();
    }
    EntriesListEveryIdOnce();
    MainScreen.RestrictedOrder(Entries, enabled);
  }

  /** How the dock bar lays out its items. */
  datatype DockLayout =
    | NoDock                                   // at most one service: nothing is drawn
    | Centered(left: seq<LegacyRegistry.LegacyService>, middle: Option<LegacyRegistry.LegacyService>, right: seq<LegacyRegistry.LegacyService>)
    | Scrolling(items: seq<LegacyRegistry.LegacyService>)

  /** Up to this many items are laid out without scrolling. */
  const MaxNoScroll: int := 4

  /** The dock bar's layout choice and its `take` / `drop` split. */
  function DockLayoutOf(dock: seq<LegacyRegistry.LegacyService>): (r: DockLayout) {
    var n := |dock|;
    if n <= 1 then NoDock
    else if n <= MaxNoScroll then
      var leftCount := n / 2;
      var isEven := n % 2 == 0;
      Centered(dock[..leftCount], if !isEven then Some(dock[leftCount]) else None, dock[leftCount + (if isEven then 0 else 1)..])
    else Scrolling(dock)
  }

  function OptionToSeq<T>(o: Option<T>): (r: seq<T>) {
    if o.Some? then [o.value] else []
  }

  /**
   * Nothing is drawn for at most one item, and more than four scroll. From two
   * to four items the left part, the middle item if any and the right part put
   * together are the dock in order; the sides have `n / 2` items each and the
   * middle item exists exactly when `n` is odd.
   */
  lemma DockSplitReassembles(dock: seq<LegacyRegistry.LegacyService>)
    ensures DockLayoutOf(dock) == NoDock <==> |dock| <= 1
    ensures |dock| > 4 ==> DockLayoutOf(dock) == Scrolling(dock)
    ensures 2 <= |dock| <= 4 ==> DockLayoutOf(dock).Centered?
    ensures DockLayoutOf(dock).Centered? ==>
      var l := DockLayoutOf(dock);
      l.left + OptionToSeq(l.middle) + l.right == dock &&
      |l.left| == |dock| / 2 && |l.right| == |dock| / 2 &&
      (l.middle.Some? <==> |dock| % 2 == 1)
  {
    var n := |dock|;
    if 2 <= n <= 4 {
      var k := n / 2;
      if n % 2 == 0 {
        assert dock[..k] + [] + dock[k..] == dock;
      } else {
        assert dock[..k] + [dock[k]] + dock[k + 1..] == dock;
      }
    }
  }

  /** The dock is drawn exactly when more than one service is enabled. */
  lemma LegacyDockShownIffSeveralEnabled(enabled: set<ServiceId>)
    ensures DockLayoutOf(LegacyDockServices(enabled)) != NoDock <==> |enabled| > 1
  {
    LegacyDockListsEnabledInOrder(enabled);
    DockSplitReassembles(LegacyDockServices(enabled));
  }

  /** The older main screen's own state and the view model it calls. */
  class LegacyServicesMainScreen {
    const viewModel: LegacyAppStateViewModel
    var lastBackPressTime: int
    var finished: bool
    var hintsShown: nat

    constructor(vm: LegacyAppStateViewModel)
      ensures viewModel == vm && lastBackPressTime == 0 && !finished && hintsShown == 0
    {
      viewModel := vm;
      lastBackPressTime := 0;
      finished := false;
      hintsShown := 0;
    }

    /** The BackHandler: exit, or remember the press and show the hint, or go to the home service. */
    method OnBack(now: int, drawerActive: bool) returns (action: MainScreen.BackAction)
      modifies this, viewModel, viewModel.repo
      ensures action == MainScreen.BackDecision(LegacyCurrentServiceId(old(viewModel.uiState)), LegacyHomeServiceId(old(viewModel.uiState)),
                                                old(lastBackPressTime), now, drawerActive)
      ensures lastBackPressTime == (if action == MainScreen.ShowPressAgainHint then now else old(lastBackPressTime))
      ensures finished == (old(finished) || action == MainScreen.FinishActivity)
      ensures hintsShown == old(hintsShown) + (if action == MainScreen.ShowPressAgainHint then 1 else 0)
      ensures action.ReturnHome? ==>
        var s := ForwardStep(SetLastServiceRun(old(viewModel.repo.State()), Some(action.home)));
        viewModel.repo.State() == s.store && viewModel.crashed == (old(viewModel.crashed) || s.crashed)
      ensures !action.ReturnHome? ==>
        viewModel.repo.State() == old(viewModel.repo.State()) && viewModel.crashed == old(viewModel.crashed)
      ensures viewModel.uiState == old(viewModel.uiState) && viewModel.messages == old(viewModel.messages)
      ensures viewModel.themeMode == old(viewModel.themeMode)
    {
      var ui := viewModel.uiState;
      var home := LegacyHomeServiceId(ui);
      action := MainScreen.BackDecision(LegacyCurrentServiceId(ui), home, lastBackPressTime, now, drawerActive);
      if drawerActive {
        return;
      }
      if LegacyCurrentServiceId(ui) == home {
        if now - lastBackPressTime < MainScreen.ExitWindowMillis {
          finished := true;
        } else {
          lastBackPressTime := now;
          hintsShown := hintsShown + 1;
        }
      } else {
        viewModel.SetLastService(Some(home));
      }
    }

    /** Selecting a dock item stores it as the last service. */
    method SelectDockItem(id: ServiceId)
      modifies viewModel, viewModel.repo
      ensures var s := ForwardStep(SetLastServiceRun(old(viewModel.repo.State()), Some(id)));
        viewModel.repo.State() == s.store && viewModel.crashed == (old(viewModel.crashed) || s.crashed)
      ensures viewModel.uiState == old(viewModel.uiState) && viewModel.messages == old(viewModel.messages)
      ensures viewModel.themeMode == old(viewModel.themeMode)
    {
      viewModel.SetLastService(Some(id));
    }
  }
}
