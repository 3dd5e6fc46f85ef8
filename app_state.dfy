/**
 * The application-state view model of the current revision: the resolution of
 * the home service, the guarded toggle, the pass-through setters that report
 * save failures, the three-write onboarding commit and the initial load.
 *
 * Every launched coroutine is taken to run to completion at once. The message
 * stream is the field `messages`, to which each call appends what it emits.
 */
module AppState {
  import opened Wrappers
  import opened Seqs
  import opened ServiceModel
  import opened ServiceRegistry
  import opened SettingsStore

  /** `AppStateUiState`. */
  datatype AppStateUiState = AppStateUiState(
    enabledServices: set<ServiceId>,
    favoriteService: Option<ServiceId>,
    lastService: Option<ServiceId>,
    onboardingDone: bool)

  /** The `stateIn` initial value, seen before the first emission. */
  const InitialUiState: AppStateUiState := AppStateUiState({}, None, None, false)

  /** What `combine` over the four flows emits for one preferences snapshot. */
  function UiStateOf(p: Prefs): (r: AppStateUiState) {
    AppStateUiState(EnabledOf(p), FavoriteOf(p), LastOf(p), OnboardingDoneOf(p))
  }

  function UiStateFromSettings(s: InitialSettings): (r: AppStateUiState) {
    AppStateUiState(s.enabledServices, s.favoriteService, s.lastService, s.onboardingDone)
  }

  /** `id` is present and enabled (`?.takeIf { it in enabled }`). */
  predicate EnabledChoice(id: Option<ServiceId>, enabled: set<ServiceId>) {
    id.Some? && id.value in enabled
  }

  /**
   * `homeServiceId`, for a registry order `order`: the favourite if enabled,
   * else the last service if enabled, else the first enabled service in `order`,
   * else DEALS.
   */
  function HomeServiceIdIn(order: seq<ServiceId>, ui: AppStateUiState): (r: ServiceId) {
    if EnabledChoice(ui.favoriteService, ui.enabledServices) then ui.favoriteService.value
    else if EnabledChoice(ui.lastService, ui.enabledServices) then ui.lastService.value
    else
      var k := FirstIn(order, ui.enabledServices);
      if k == -1 then DEALS else order[k]
  }

  /** `homeServiceId` over `ServiceRegistry.all`, whose ids are `displayOrder`. */
  function HomeServiceId(ui: AppStateUiState): (r: ServiceId) {
    HomeServiceIdIn(DisplayOrder, ui)
  }

  /** The resolution order of `homeServiceId`, case by case. */
  lemma HomeServiceIdResolution(order: seq<ServiceId>, ui: AppStateUiState)
    ensures EnabledChoice(ui.favoriteService, ui.enabledServices) ==>
      HomeServiceIdIn(order, ui) == ui.favoriteService.value
    ensures !EnabledChoice(ui.favoriteService, ui.enabledServices) && EnabledChoice(ui.lastService, ui.enabledServices) ==>
      HomeServiceIdIn(order, ui) == ui.lastService.value
    ensures !EnabledChoice(ui.favoriteService, ui.enabledServices) && !EnabledChoice(ui.lastService, ui.enabledServices) ==>
      (exists k :: 0 <= k < |order| && order[k] == HomeServiceIdIn(order, ui) && order[k] in ui.enabledServices &&
        forall j :: 0 <= j < k ==> order[j] !in ui.enabledServices) ||
      ((forall j :: 0 <= j < |order| ==> order[j] !in ui.enabledServices) && HomeServiceIdIn(order, ui) == DEALS)
  {
    if !EnabledChoice(ui.favoriteService, ui.enabledServices) && !EnabledChoice(ui.lastService, ui.enabledServices) {
      var k := FirstIn(order, ui.enabledServices);
      if k != -1 {
        assert order[k] == HomeServiceIdIn(order, ui);
      }
    }
  }

  /** When some service is enabled and `order` lists every service, the home service is enabled. */
  lemma HomeServiceIsEnabled(order: seq<ServiceId>, ui: AppStateUiState)
    requires forall id: ServiceId :: id in order
    requires ui.enabledServices != {}
    ensures HomeServiceIdIn(order, ui) in ui.enabledServices
  {
    if !EnabledChoice(ui.favoriteService, ui.enabledServices) && !EnabledChoice(ui.lastService, ui.enabledServices) {
      var id :| id in ui.enabledServices;
      FirstInFindsMember(order, ui.enabledServices, id);
    }
  }

  /** The same for the registry's display order. */
  lemma HomeServiceIdIsEnabled(ui: AppStateUiState)
    requires ui.enabledServices != {}
    ensures HomeServiceId(ui) in ui.enabledServices
  {
    DisplayOrderIsPermutation();
    HomeServiceIsEnabled(DisplayOrder, ui);
  }

  /** The navigation routes. */
  datatype Route = BootstrapRoute | OnboardingRoute | MainRoute | ManageServicesRoute | SettingsRoute

  /** The route the bootstrap screen navigates to once the initial state is read. */
  function BootstrapTarget(ui: AppStateUiState): (r: Route)
  {
    if !ui.onboardingDone then OnboardingRoute else MainRoute
  }

  /** The messages the view model emits (string resource names). */
  datatype Message = SettingsSaveError | SettingsLoadError | MinOneServiceRequired

  /** `.onFailure { emit(settings_save_error) }`. */
  function ReportSave(o: Outcome): (m: seq<Message>)
  {
    match o
    case Fail => [SettingsSaveError]
    case Pass => []
  }

  /** The store after a view-model call and what it emitted. */
  datatype Step = Step(store: Store, emitted: seq<Message>)

  function SaveStep(w: Written): (r: Step) {
    Step(w.store, ReportSave(w.outcome))
  }

  /**
   * `toggleService(id, enabled)` with `current` the enabled set the view model
   * holds: enabling writes `current + id`; disabling refuses (with a message and
   * no write) when at most one service is enabled, and writes `current - id`
   * otherwise.
   */
  function ToggleServiceRun(st: Store, current: set<ServiceId>, id: ServiceId, enabled: bool): (r: Step) {
    if enabled then SaveStep(SetEnabledServicesRun(st, current + {id}))
    else if |current| <= 1 then Step(st, [MinOneServiceRequired])
    else SaveStep(SetEnabledServicesRun(st, current - {id}))
  }

  /** The result of `completeOnboarding` next to the store and the messages. */
  datatype OnboardingCommit = OnboardingCommit(store: Store, emitted: seq<Message>, outcome: Outcome)

  /**
   * `completeOnboarding(selected, first)`: enabled := selected, then
   * onboardingDone := true, then last := first; the first failing write emits
   * `settings_save_error` and returns failure before the later writes run.
   */
  function CompleteOnboardingRun(st: Store, selected: set<ServiceId>, first: ServiceId): (r: OnboardingCommit) {
    var w1 := SetEnabledServicesRun(st, selected);
    if w1.outcome == Fail then OnboardingCommit(w1.store, [SettingsSaveError], Fail)
    else
      var w2 := SetOnboardingDoneRun(w1.store, true);
      if w2.outcome == Fail then OnboardingCommit(w2.store, [SettingsSaveError], Fail)
      else
        var w3 := SetLastServiceRun(w2.store, Some(first));
        if w3.outcome == Fail then OnboardingCommit(w3.store, [SettingsSaveError], Fail)
        else OnboardingCommit(w3.store, [], Pass)
  }

  /** `getInitialState`: the stored settings, or the defaults and `settings_load_error` when the read fails. */
  function GetInitialStateRun(st: Store): (r: (Store, seq<Message>, AppStateUiState)) {
    var (after, r) := GetInitialSettingsRun(st);
    if r.Failure? then (after, [SettingsLoadError], UiStateFromSettings(DefaultSettings))
    else (after, [], UiStateFromSettings(r.value))
  }

  class AppStateViewModel {
    const repo: DataStoreSettingsRepository
    var uiState: AppStateUiState
    var themeMode: string
    /** `None` until the list-view flag is first loaded. */
    var loadedCatalogViewMode: Option<bool>
    var messages: seq<Message>

    constructor(repository: DataStoreSettingsRepository)
      ensures repo == repository
      ensures uiState == InitialUiState && themeMode == "system" && loadedCatalogViewMode == None && messages == []
    {
      repo := repository;
      uiState := InitialUiState;
      themeMode := "system";
      loadedCatalogViewMode := None;
      messages := [];
    }

    /** One emission of the combined flows: the cached states take the decoded snapshot. */
    method Collect(readFails: bool)
      modifies this
      ensures uiState == UiStateOf(repo.Data(readFails))
      ensures themeMode == ThemeOf(repo.Data(readFails))
      ensures loadedCatalogViewMode == Some(CatalogListViewOf(repo.Data(readFails)))
      ensures messages == old(messages)
    {
      var p := repo.Data(readFails);
      uiState := UiStateOf(p);
      themeMode := ThemeOf(p);
      loadedCatalogViewMode := Some(CatalogListViewOf(p));
    }

    method ToggleService(id: ServiceId, enabled: bool)
      modifies this, repo
      ensures var s := ToggleServiceRun(old(repo.State()), old(uiState.enabledServices), id, enabled);
        repo.State() == s.store && messages == old(messages) + s.emitted
      ensures uiState == old(uiState) && themeMode == old(themeMode) && loadedCatalogViewMode == old(loadedCatalogViewMode)
    {
      var current := uiState.enabledServices;
      if enabled {
        var res := repo.SetEnabledServices(current + {id});
        messages := messages + ReportSave(res);
      } else {
        if |current| <= 1 {
          messages := messages + [MinOneServiceRequired];
          return;
        }
        var res := repo.SetEnabledServices(current - {id});
        messages := messages + ReportSave(res);
      }
    }

    method SetServicesCatalogListView(listView: bool)
      modifies this, repo
      ensures var s := SaveStep(SetServicesCatalogListViewRun(old(repo.State()), listView));
        repo.State() == s.store && messages == old(messages) + s.emitted
      ensures uiState == old(uiState) && themeMode == old(themeMode) && loadedCatalogViewMode == old(loadedCatalogViewMode)
    {
      var res := repo.SetServicesCatalogListView(listView);
      messages := messages + ReportSave(res);
    }

    method SetFavorite(id: Option<ServiceId>)
      modifies this, repo
      ensures var s := SaveStep(SetFavoriteRun(old(repo.State()), id));
        repo.State() == s.store && messages == old(messages) + s.emitted
      ensures uiState == old(uiState) && themeMode == old(themeMode) && loadedCatalogViewMode == old(loadedCatalogViewMode)
    {
      var res := repo.SetFavorite(id);
      messages := messages + ReportSave(res);
    }

    method SetLastService(id: Option<ServiceId>)
      modifies this, repo
      ensures var s := SaveStep(SetLastServiceRun(old(repo.State()), id));
        repo.State() == s.store && messages == old(messages) + s.emitted
      ensures uiState == old(uiState) && themeMode == old(themeMode) && loadedCatalogViewMode == old(loadedCatalogViewMode)
    {
      var res := repo.SetLastService(id);
      messages := messages + ReportSave(res);
    }

    method SetOnboardingDone(done: bool)
      modifies this, repo
      ensures var s := SaveStep(SetOnboardingDoneRun(old(repo.State()), done));
        repo.State() == s.store && messages == old(messages) + s.emitted
      ensures uiState == old(uiState) && themeMode == old(themeMode) && loadedCatalogViewMode == old(loadedCatalogViewMode)
    {
      var res := repo.SetOnboardingDone(done);
      messages := messages + ReportSave(res);
    }

    method SetEnabledServicesDirectly(services: set<ServiceId>)
      modifies this, repo
      ensures var s := SaveStep(SetEnabledServicesRun(old(repo.State()), services));
        repo.State() == s.store && messages == old(messages) + s.emitted
      ensures uiState == old(uiState) && themeMode == old(themeMode) && loadedCatalogViewMode == old(loadedCatalogViewMode)
    {
      var res := repo.SetEnabledServices(services);
      messages := messages + ReportSave(res);
    }

    method SetTheme(mode: string)
      modifies this, repo
      ensures var s := SaveStep(SetThemeRun(old(repo.State()), mode));
        repo.State() == s.store && messages == old(messages) + s.emitted
      ensures uiState == old(uiState) && themeMode == old(themeMode) && loadedCatalogViewMode == old(loadedCatalogViewMode)
    {
      var res := repo.SetTheme(mode);
      messages := messages + ReportSave(res);
    }

    method CompleteOnboarding(selected: set<ServiceId>, first: ServiceId) returns (res: Outcome)
      modifies this, repo
      ensures var c := CompleteOnboardingRun(old(repo.State()), selected, first);
        repo.State() == c.store && messages == old(messages) + c.emitted && res == c.outcome
      ensures uiState == old(uiState) && themeMode == old(themeMode) && loadedCatalogViewMode == old(loadedCatalogViewMode)
    {
      res := repo.SetEnabledServices(selected);
      if res == Fail {
        messages := messages + [SettingsSaveError];
        return;
      }
      res := repo.SetOnboardingDone(true);
      if res == Fail {
        messages := messages + [SettingsSaveError];
        return;
      }
      res := repo.SetLastService(Some(first));
      if res == Fail {
        messages := messages + [SettingsSaveError];
        return;
      }
    }

    method GetInitialState() returns (ui: AppStateUiState)
      modifies this, repo
      ensures var (after, emitted, state) := GetInitialStateRun(old(repo.State()));
        repo.State() == after && messages == old(messages) + emitted && ui == state
      ensures uiState == old(uiState) && themeMode == old(themeMode) && loadedCatalogViewMode == old(loadedCatalogViewMode)
    {
      var r := repo.GetInitialSettings();
      var s: InitialSettings;
      if r.Failure? {
        messages := messages + [SettingsLoadError];
        s := DefaultSettings;
      } else {
        s := r.value;
      }
      ui := UiStateFromSettings(s);
    }
  }

  // ---- properties ----

  /** Enabling a service writes `current + id`; it reads back when the write succeeds. */
  lemma ToggleOnWritesUnion(st: Store, current: set<ServiceId>, id: ServiceId)
    ensures var s := ToggleServiceRun(st, current, id, true);
      (NextFails(st.ioFaults) <==> s.emitted == [SettingsSaveError]) &&
      (!NextFails(st.ioFaults) ==> EnabledOf(s.store.prefs) == current + {id} && s.emitted == [])
  {
    EditEnabledServicesReadsBack(st.prefs, current + {id});
  }

  /**
   * Disabling with at most one service enabled emits `min_one_service_required`
   * and writes nothing; otherwise it writes `current - id`, which reads back.
   */
  lemma ToggleOffKeepsOneService(st: Store, current: set<ServiceId>, id: ServiceId)
    ensures |current| <= 1 ==> ToggleServiceRun(st, current, id, false) == Step(st, [MinOneServiceRequired])
    ensures |current| > 1 && !NextFails(st.ioFaults) ==>
      EnabledOf(ToggleServiceRun(st, current, id, false).store.prefs) == current - {id} &&
      ToggleServiceRun(st, current, id, false).emitted == []
    ensures |current| > 1 && NextFails(st.ioFaults) ==>
      ToggleServiceRun(st, current, id, false).store.prefs == st.prefs &&
      ToggleServiceRun(st, current, id, false).emitted == [SettingsSaveError]
  {
    if |current| > 1 {
      assert current - {id} != {} by {
        if current - {id} == {} {
          assert current <= {id};
          SubsetOfSingletonIsSmall(current, id);
        }
      }
      EditEnabledServicesReadsBack(st.prefs, current - {id});
    }
  }

  lemma SubsetOfSingletonIsSmall(s: set<ServiceId>, id: ServiceId)
    requires s <= {id}
    ensures |s| <= 1
  {
    if s != {} {
      assert s == {id};
    }
  }

  /** Each pass-through setter emits one `settings_save_error` exactly when its transaction fails, and nothing otherwise. */
  lemma SettersReportExactlyFailures(w: Written)
    ensures w.outcome == Fail ==> SaveStep(w).emitted == [SettingsSaveError]
    ensures w.outcome == Pass ==> SaveStep(w).emitted == []
    ensures SaveStep(w).store == w.store
  {
  }

  /**
   * A successful `completeOnboarding(selected, first)` leaves the selection
   * enabled (when non-empty), onboarding done and `first` as the last service,
   * and emits nothing.
   */
  lemma CompleteOnboardingSuccess(st: Store, selected: set<ServiceId>, first: ServiceId)
    ensures var c := CompleteOnboardingRun(st, selected, first);
      c.outcome == Pass ==>
        c.emitted == [] &&
        (selected != {} ==> EnabledOf(c.store.prefs) == selected) &&
        OnboardingDoneOf(c.store.prefs) && LastOf(c.store.prefs) == Some(first)
  {
    var w1 := SetEnabledServicesRun(st, selected);
    if selected != {} && w1.outcome == Pass {
      EditEnabledServicesReadsBack(st.prefs, selected);
    }
    var w2 := SetOnboardingDoneRun(w1.store, true);
    ScalarWritesReadBack(w2.store.prefs, Some(first), true, true);
  }

  /**
   * The onboarding commit fails exactly when one of the transactions it runs
   * fails; then it emits one `settings_save_error`, and a failure of the first
   * write leaves the preferences as they were.
   */
  lemma CompleteOnboardingStopsAtFirstFailure(st: Store, selected: set<ServiceId>, first: ServiceId)
    ensures var c := CompleteOnboardingRun(st, selected, first);
      (c.outcome == Fail <==> c.emitted == [SettingsSaveError]) &&
      (c.outcome == Pass <==> c.emitted == [])
    ensures selected != {} && NextFails(st.ioFaults) ==>
      CompleteOnboardingRun(st, selected, first) == OnboardingCommit(Store(st.prefs, Rest(st.ioFaults)), [SettingsSaveError], Fail)
    ensures selected != {} && !NextFails(st.ioFaults) && NextFails(Rest(st.ioFaults)) ==>
      CompleteOnboardingRun(st, selected, first) ==
        OnboardingCommit(Store(EditEnabledServices(st.prefs, selected), Rest(Rest(st.ioFaults))), [SettingsSaveError], Fail)
    ensures selected != {} && !NextFails(st.ioFaults) && !NextFails(Rest(st.ioFaults)) && NextFails(Rest(Rest(st.ioFaults))) ==>
      CompleteOnboardingRun(st, selected, first) ==
        OnboardingCommit(Store(EditOnboardingDone(EditEnabledServices(st.prefs, selected), true), Rest(Rest(Rest(st.ioFaults)))), [SettingsSaveError], Fail)
    ensures selected == {} && NextFails(st.ioFaults) ==>
      CompleteOnboardingRun(st, selected, first) == OnboardingCommit(Store(st.prefs, Rest(st.ioFaults)), [SettingsSaveError], Fail)
    ensures (forall i :: 0 <= i < |st.ioFaults| ==> !st.ioFaults[i]) ==> CompleteOnboardingRun(st, selected, first).outcome == Pass
  {
    if forall i :: 0 <= i < |st.ioFaults| ==> !st.ioFaults[i] {
      var w1 := SetEnabledServicesRun(st, selected);
      RestHasNoFaults(st.ioFaults);
      var w2 := SetOnboardingDoneRun(w1.store, true);
      RestHasNoFaults(w1.store.ioFaults);
    }
  }

  lemma RestHasNoFaults(ioFaults: seq<bool>)
    requires forall i :: 0 <= i < |ioFaults| ==> !ioFaults[i]
    ensures forall i :: 0 <= i < |Rest(ioFaults)| ==> !Rest(ioFaults)[i]
  {
    if ioFaults != [] {
      forall i | 0 <= i < |Rest(ioFaults)| ensures !Rest(ioFaults)[i] {
        assert Rest(ioFaults)[i] == ioFaults[i + 1];
      }
    }
  }

  /** `getInitialState` returns the stored settings on success and the defaults with `settings_load_error` on failure. */
  lemma GetInitialStateFallsBack(st: Store)
    ensures var (after, emitted, ui) := GetInitialStateRun(st);
      after.prefs == st.prefs &&
      (NextFails(st.ioFaults) ==> emitted == [SettingsLoadError] && ui == AppStateUiState({DEALS}, None, None, false)) &&
      (!NextFails(st.ioFaults) ==> emitted == [] && ui == UiStateOf(st.prefs))
  {
  }

  /** After a successful onboarding commit, a successful initial load sends the bootstrap to the main screen, home on an enabled service. */
  lemma OnboardingThenBootstrapGoesToMain(st: Store, selected: set<ServiceId>, first: ServiceId)
    requires selected != {}
    ensures var c := CompleteOnboardingRun(st, selected, first);
      var (after, emitted, ui) := GetInitialStateRun(c.store);
      c.outcome == Pass && !NextFails(c.store.ioFaults) ==>
        BootstrapTarget(ui) == MainRoute && ui.enabledServices == selected && HomeServiceId(ui) in selected
  {
    var c := CompleteOnboardingRun(st, selected, first);
    CompleteOnboardingSuccess(st, selected, first);
    if c.outcome == Pass && !NextFails(c.store.ioFaults) {
      var (after, emitted, ui) := GetInitialStateRun(c.store);
      assert ui == UiStateOf(c.store.prefs);
      HomeServiceIdIsEnabled(ui);
    }
  }

  /**
   * The bootstrap screen sends the user to main exactly when the initial read
   * succeeds and onboarding is stored as done; an unreadable store, which
   * falls back to the defaults, sends the user to onboarding.
   */
  lemma BootstrapFollowsStoredFlag(st: Store)
    ensures var (after, emitted, ui) := GetInitialStateRun(st);
      (BootstrapTarget(ui) == MainRoute <==> !NextFails(st.ioFaults) && OnboardingDoneOf(st.prefs)) &&
      (BootstrapTarget(ui) == OnboardingRoute <==> NextFails(st.ioFaults) || !OnboardingDoneOf(st.prefs))
  {
    GetInitialStateFallsBack(st);
  }
}
