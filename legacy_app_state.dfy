/**
 * The application-state view model of the older revision: the same state
 * record and initial value, a theme that starts as `"system"`, a guarded
 * toggle that emits a plain message string, and setters that only forward.
 *
 * Nothing here catches a failure: an exception thrown by a repository call
 * or by the flows escapes the launched coroutine. The model records that in
 * the flag `crashed` and otherwise carries on, so that what the remaining
 * calls would do stays observable.
 */
module LegacyAppState {
  import opened Wrappers
  import opened ServiceModel
  import opened SettingsStore
  import opened LegacySettingsStore
  import opened AppState

  /** The message the toggle emits when the last service would be disabled. */
  const MinOneServiceMessage: string := "В приложении должен быть включён хотя бы один сервис"

  /** The store after a view-model call, what it emitted, and whether an exception escaped. */
  datatype LegacyStep = LegacyStep(store: Store, emitted: seq<string>, crashed: bool)

  /** A forwarded repository call: no message; an escaping exception when it fails. */
  function ForwardStep(w: Written): (s: LegacyStep)
  {
    LegacyStep(w.store, [], w.outcome == Fail)
  }

  /**
   * `toggleService(id, enabled)` with `current` the enabled set the view
   * model holds: enabling writes `current + id`; disabling emits the message
   * and writes nothing when at most one service is enabled, and writes
   * `current - id` otherwise.
   */
  function LegacyToggleServiceRun(st: Store, current: set<ServiceId>, id: ServiceId, enabled: bool): (r: LegacyStep) {
    if enabled then ForwardStep(SetEnabledServicesRun(st, current + {id}))
    else if |current| <= 1 then LegacyStep(st, [MinOneServiceMessage], false)
    else ForwardStep(SetEnabledServicesRun(st, current - {id}))
  }

  class LegacyAppStateViewModel {
    const repo: LegacySettingsRepository
    var uiState: AppStateUiState
    var themeMode: string
    var messages: seq<string>
    var crashed: bool

    constructor(repository: LegacySettingsRepository)
      ensures repo == repository
      ensures uiState == InitialUiState && themeMode == "system" && messages == [] && !crashed
    {
      repo := repository;
      uiState := InitialUiState;
      themeMode := "system";
      messages := [];
      crashed := false;
    }

    /** One emission of the combined flows; a failing read escapes instead. */
    method Collect(readFails: bool)
      modifies this
      ensures readFails ==> uiState == old(uiState) && themeMode == old(themeMode) && crashed
      ensures !readFails ==> uiState == UiStateOf(repo.prefs) && themeMode == LegacyThemeOf(repo.prefs) && crashed == old(crashed)
      ensures messages == old(messages)
    {
      var p := repo.Data(readFails);
      if p.None? {
        crashed := true;
        return;
      }
      uiState := UiStateOf(p.value);
      themeMode := LegacyThemeOf(p.value);
    }

    method ToggleService(id: ServiceId, enabled: bool)
      modifies this, repo
      ensures var s := LegacyToggleServiceRun(old(repo.State()), old(uiState.enabledServices), id, enabled);
        repo.State() == s.store && messages == old(messages) + s.emitted && crashed == (old(crashed) || s.crashed)
      ensures uiState == old(uiState) && themeMode == old(themeMode)
    {
      var current := uiState.enabledServices;
      if enabled {
        var res := repo.SetEnabledServices(current + {id});
        crashed := crashed || res == Fail;
      } else {
        if |current| <= 1 {
          messages := messages + [MinOneServiceMessage];
          return;
        }
        var res := repo.SetEnabledServices(current - {id});
        crashed := crashed || res == Fail;
      }
    }

    method SetFavorite(id: Option<ServiceId>)
      modifies this, repo
      ensures var s := ForwardStep(SetFavoriteRun(old(repo.State()), id));
        repo.State() == s.store && messages == old(messages) && crashed == (old(crashed) || s.crashed)
      ensures uiState == old(uiState) && themeMode == old(themeMode)
    {
      var res := repo.SetFavorite(id);
      crashed := crashed || res == Fail;
    }

    method SetLastService(id: Option<ServiceId>)
      modifies this, repo
      ensures var s := ForwardStep(SetLastServiceRun(old(repo.State()), id));
        repo.State() == s.store && messages == old(messages) && crashed == (old(crashed) || s.crashed)
      ensures uiState == old(uiState) && themeMode == old(themeMode)
    {
      var res := repo.SetLastService(id);
      crashed := crashed || res == Fail;
    }

    method SetOnboardingDone(done: bool)
      modifies this, repo
      ensures var s := ForwardStep(SetOnboardingDoneRun(old(repo.State()), done));
        repo.State() == s.store && messages == old(messages) && crashed == (old(crashed) || s.crashed)
      ensures uiState == old(uiState) && themeMode == old(themeMode)
    {
      var res := repo.SetOnboardingDone(done);
      crashed := crashed || res == Fail;
    }

    method SetEnabledServicesDirectly(services: set<ServiceId>)
      modifies this, repo
      ensures var s := ForwardStep(SetEnabledServicesRun(old(repo.State()), services));
        repo.State() == s.store && messages == old(messages) && crashed == (old(crashed) || s.crashed)
      ensures uiState == old(uiState) && themeMode == old(themeMode)
    {
      var res := repo.SetEnabledServices(services);
      crashed := crashed || res == Fail;
    }

    method SetTheme(mode: string)
      modifies this, repo
      ensures var s := ForwardStep(LegacySetThemeRun(old(repo.State()), mode));
        repo.State() == s.store && messages == old(messages) && crashed == (old(crashed) || s.crashed)
      ensures uiState == old(uiState) && themeMode == old(themeMode)
    {
      var res := repo.SetTheme(mode);
      crashed := crashed || res == Fail;
    }
  }

  // ---- properties ----

  /** Enabling writes `current + id`, which reads back when the write succeeds; it emits nothing. */
  lemma LegacyToggleOnWritesUnion(st: Store, current: set<ServiceId>, id: ServiceId)
    ensures var s := LegacyToggleServiceRun(st, current, id, true);
      s.emitted == [] && (s.crashed <==> NextFails(st.ioFaults)) &&
      (!NextFails(st.ioFaults) ==> EnabledOf(s.store.prefs) == current + {id})
  {
    EditEnabledServicesReadsBack(st.prefs, current + {id});
  }

  /**
   * Disabling with at most one service enabled emits the message and writes
   * nothing; otherwise it writes `current - id`, which reads back, and emits nothing.
   */
  lemma LegacyToggleOffKeepsOneService(st: Store, current: set<ServiceId>, id: ServiceId)
    ensures |current| <= 1 ==> LegacyToggleServiceRun(st, current, id, false) == LegacyStep(st, [MinOneServiceMessage], false)
    ensures |current| > 1 ==> LegacyToggleServiceRun(st, current, id, false).emitted == []
    ensures |current| > 1 && !NextFails(st.ioFaults) ==>
      EnabledOf(LegacyToggleServiceRun(st, current, id, false).store.prefs) == current - {id} &&
      !LegacyToggleServiceRun(st, current, id, false).crashed
  {
    if |current| > 1 {
      assert current - {id} != {} by {
        if current - {id} == {} {
          assert current <= {id};
          SubsetOfSingletonIsSmall(current, id);
        }
      }
      EditEnabledServicesReadsBack(st.prefs, current - {id});
    }
  }

  /**
   * The two revisions' toggles write the same thing; they differ only in what
   * they report: the older one emits its message string where the newer one
   * emits `min_one_service_required`, and lets a failure escape where the
   * newer one emits `settings_save_error`.
   */
  lemma TogglesWriteAlike(st: Store, current: set<ServiceId>, id: ServiceId, enabled: bool)
    ensures LegacyToggleServiceRun(st, current, id, enabled).store == ToggleServiceRun(st, current, id, enabled).store
    ensures LegacyToggleServiceRun(st, current, id, enabled).crashed <==>
      ToggleServiceRun(st, current, id, enabled).emitted == [SettingsSaveError]
    ensures LegacyToggleServiceRun(st, current, id, enabled).emitted == [MinOneServiceMessage] <==>
      ToggleServiceRun(st, current, id, enabled).emitted == [MinOneServiceRequired]
  {
  }
}
