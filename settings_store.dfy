/**
 * The preferences-backed settings repository of the current revision.
 *
 * The stored preferences are a record of optional raw values, one per key, so
 * that unknown or stale service names can be present. Reading decodes them with
 * fallbacks; every `set*` call is one edit transaction, which can throw. Which
 * transactions throw is given by `ioFaults`, a script of upcoming outcomes
 * (head `true`: that transaction throws; an empty script: every one succeeds).
 */
module SettingsStore {
  import opened Wrappers
  import opened ServiceModel

  /**
   * One snapshot of the preferences file. `None` is an absent key.
   * Keys: enabled_services (string set), favorite_service, last_service,
   * onboarding_done, theme, services_catalog_list_view.
   */
  datatype Prefs = Prefs(
    enabledServices: Option<set<string>>,
    favoriteService: Option<string>,
    lastService: Option<string>,
    onboardingDone: Option<bool>,
    theme: Option<string>,
    catalogListView: Option<bool>)

  /** `emptyPreferences()`. */
  const EmptyPrefs: Prefs := Prefs(None, None, None, None, None, None)

  // ---- decoding ----

  /** Every stored name parses back to its identifier. */
  lemma NamesParse()
    ensures forall id: ServiceId :: ValueOf(Name(id)) == Some(id)
  {
    forall id: ServiceId ensures ValueOf(Name(id)) == Some(id) {
      ValueOfName(id, Name(id));
    }
  }

  /** `toServiceIdSet`: the identifiers whose names are in `raw`; unknown names are dropped. */
  function ToServiceIdSet(raw: set<string>): (r: set<ServiceId>)
    ensures forall id :: id in r <==> Name(id) in raw
  {
    NamesParse();
    set x | x in raw && ValueOf(x).Some? :: ValueOf(x).value
  }

  /** `set.map { it.name }.toSet()`; decoding the names gives back the set. */
  function NamesOf(ids: set<ServiceId>): (r: set<string>)
    ensures forall id :: Name(id) in r <==> id in ids
    ensures ToServiceIdSet(r) == ids
  {
    NamesParse();
    set id | id in ids :: Name(id)
  }

  /**
   * The enabled set as every reader decodes it: `{DEALS}` when the key is
   * absent, the stored set is empty or no stored name is known; otherwise the
   * known identifiers.
   */
  function DecodeEnabled(raw: Option<set<string>>): (r: set<ServiceId>)
    ensures r != {}
    ensures (raw.Some? && exists id :: Name(id) in raw.value) ==> forall id :: id in r <==> Name(id) in raw.value
    ensures !(raw.Some? && exists id :: Name(id) in raw.value) ==> r == {DEALS}
  {
    if raw.None? || raw.value == {} then {DEALS}
    else
      var decoded := ToServiceIdSet(raw.value);
      if decoded == {} then {DEALS} else decoded
  }

  /** `?.toServiceIdOrNull()` on an optional stored name. */
  function DecodeId(raw: Option<string>): (r: Option<ServiceId>)
    ensures forall id :: r == Some(id) <==> raw == Some(Name(id))
  {
    NamesParse();
    if raw.None? then None else ValueOf(raw.value)
  }

  /** `enabledServicesFlow`'s mapping. */
  function EnabledOf(p: Prefs): (r: set<ServiceId>) {
    DecodeEnabled(p.enabledServices)
  }

  /** `favoriteServiceFlow`'s mapping. */
  function FavoriteOf(p: Prefs): (r: Option<ServiceId>) {
    DecodeId(p.favoriteService)
  }

  /** `lastServiceFlow`'s mapping. */
  function LastOf(p: Prefs): (r: Option<ServiceId>) {
    DecodeId(p.lastService)
  }

  /** `onboardingDoneFlow`'s mapping: `false` when absent. */
  function OnboardingDoneOf(p: Prefs): (r: bool) {
    p.onboardingDone.GetOr(false)
  }

  /** `themeFlow`'s mapping: `"light"` when absent. */
  function ThemeOf(p: Prefs): (r: string) {
    p.theme.GetOr("light")
  }

  /** `servicesCatalogListViewFlow`'s mapping: `true` (list view) when absent. */
  function CatalogListViewOf(p: Prefs): (r: bool) {
    p.catalogListView.GetOr(true)
  }

  /** The settings the bootstrap reads once. */
  datatype InitialSettings = InitialSettings(
    enabledServices: set<ServiceId>,
    favoriteService: Option<ServiceId>,
    lastService: Option<ServiceId>,
    onboardingDone: bool)

  /** The fallback settings: only DEALS enabled, nothing chosen, onboarding pending. */
  const DefaultSettings: InitialSettings := InitialSettings({DEALS}, None, None, false)

  function InitialSettingsOf(p: Prefs): (r: InitialSettings) {
    InitialSettings(EnabledOf(p), FavoriteOf(p), LastOf(p), OnboardingDoneOf(p))
  }

  /** What the flows see: the stored snapshot, or `emptyPreferences()` when the read throws. */
  function Observed(stored: Prefs, readFails: bool): (r: Prefs) {
    if readFails then EmptyPrefs else stored
  }

  /** The favourite, if one decodes, is an enabled service. */
  predicate FavoriteEnabled(p: Prefs) {
    FavoriteOf(p).Some? ==> FavoriteOf(p).value in EnabledOf(p)
  }

  // ---- the edit blocks ----

  function EditCatalogListView(p: Prefs, listView: bool): (r: Prefs) {
    p.(catalogListView := Some(listView))
  }

  /** Store the names of `ids`, then drop a favourite that decodes to a service outside `ids`. */
  function EditEnabledServices(p: Prefs, ids: set<ServiceId>): (r: Prefs) {
    var q := p.(enabledServices := Some(NamesOf(ids)));
    var currentFavorite := DecodeId(q.favoriteService);
    if currentFavorite.Some? && currentFavorite.value !in ids then q.(favoriteService := None) else q
  }

  /** Decode the enabled set (with its fallback) and keep `value` only when it is in it. */
  function EditFavorite(p: Prefs, value: Option<ServiceId>): (r: Prefs) {
    var enabled := DecodeEnabled(p.enabledServices);
    if value.None? then p.(favoriteService := None)
    else if value.value in enabled then p.(favoriteService := Some(Name(value.value)))
    else p.(favoriteService := None)
  }

  function EditLastService(p: Prefs, value: Option<ServiceId>): (r: Prefs) {
    if value.Some? then p.(lastService := Some(Name(value.value))) else p.(lastService := None)
  }

  function EditOnboardingDone(p: Prefs, done: bool): (r: Prefs) {
    p.(onboardingDone := Some(done))
  }

  function EditTheme(p: Prefs, mode: string): (r: Prefs) {
    p.(theme := Some(mode))
  }

  // ---- transactions ----

  /** The stored preferences and the script of upcoming transaction outcomes. */
  datatype Store = Store(prefs: Prefs, ioFaults: seq<bool>)

  /** The store after a call and what the call returned. */
  datatype Written = Written(store: Store, outcome: Outcome)

  /** Whether the next transaction throws. */
  predicate NextFails(ioFaults: seq<bool>) {
    ioFaults != [] && ioFaults[0]
  }

  /** The script once one transaction has run. */
  function Rest(ioFaults: seq<bool>): (r: seq<bool>) {
    if ioFaults == [] then [] else ioFaults[1..]
  }

  /** One `dataStore.edit`: commits `edited`, or throws and keeps everything. */
  function Commit(st: Store, edited: Prefs): (r: Written) {
    if NextFails(st.ioFaults) then Written(Store(st.prefs, Rest(st.ioFaults)), Fail)
    else Written(Store(edited, Rest(st.ioFaults)), Pass)
  }

  function SetServicesCatalogListViewRun(st: Store, listView: bool): (r: Written) {
    Commit(st, EditCatalogListView(st.prefs, listView))
  }

  /** An empty set returns success before any transaction. */
  function SetEnabledServicesRun(st: Store, ids: set<ServiceId>): (r: Written) {
    if ids == {} then Written(st, Pass) else Commit(st, EditEnabledServices(st.prefs, ids))
  }

  function SetFavoriteRun(st: Store, value: Option<ServiceId>): (r: Written) {
    Commit(st, EditFavorite(st.prefs, value))
  }

  function SetLastServiceRun(st: Store, value: Option<ServiceId>): (r: Written) {
    Commit(st, EditLastService(st.prefs, value))
  }

  function SetOnboardingDoneRun(st: Store, done: bool): (r: Written) {
    Commit(st, EditOnboardingDone(st.prefs, done))
  }

  /** The themes `setTheme` accepts. */
  predicate AcceptedTheme(mode: string) {
    mode == "dark" || mode == "light"
  }

  /** Any other mode returns success before any transaction. */
  function SetThemeRun(st: Store, mode: string): (r: Written) {
    if !AcceptedTheme(mode) then Written(st, Pass) else Commit(st, EditTheme(st.prefs, mode))
  }

  /**
   * `ensureThemeInitialized`: one read (`data.first()`), then, only when no
   * theme is stored, one edit writing the theme the system flag selects.
   */
  function EnsureThemeInitializedRun(st: Store, systemIsDark: bool): (r: Written) {
    if NextFails(st.ioFaults) then Written(Store(st.prefs, Rest(st.ioFaults)), Fail)
    else
      var afterRead := Store(st.prefs, Rest(st.ioFaults));
      if st.prefs.theme.Some? then Written(afterRead, Pass)
      else Commit(afterRead, EditTheme(st.prefs, if systemIsDark then "dark" else "light"))
  }

  /** `getInitialSettings`: one read, decoded with the same rules as the flows. */
  function GetInitialSettingsRun(st: Store): (r: (Store, Result<InitialSettings>)) {
    var after := Store(st.prefs, Rest(st.ioFaults));
    if NextFails(st.ioFaults) then (after, Failure) else (after, Success(InitialSettingsOf(st.prefs)))
  }

  /** `DataStoreSettingsRepository` over an in-memory preferences snapshot. */
  class DataStoreSettingsRepository {
    var prefs: Prefs
    var ioFaults: seq<bool>

    constructor(initial: Prefs, faults: seq<bool>)
      ensures prefs == initial && ioFaults == faults
    {
      prefs := initial;
      ioFaults := faults;
    }

    function State(): (r: Store)
      reads this
    {
      Store(prefs, ioFaults)
    }

    /** `dataStoreFlow`: what a collector receives when its read does or does not throw. */
    function Data(readFails: bool): (r: Prefs)
      reads this
      ensures readFails ==> InitialSettingsOf(r) == DefaultSettings
      ensures !readFails ==> r == prefs
    {
      Observed(prefs, readFails)
    }

    method Apply(w: Written) returns (res: Outcome)
      modifies this
      ensures State() == w.store && res == w.outcome
    {
      prefs := w.store.prefs;
      ioFaults := w.store.ioFaults;
      res := w.outcome;
    }

    method SetServicesCatalogListView(listView: bool) returns (res: Outcome)
      modifies this
      ensures Written(State(), res) == SetServicesCatalogListViewRun(old(State()), listView)
    {
      res := Apply(SetServicesCatalogListViewRun(State(), listView));
    }

    method SetEnabledServices(ids: set<ServiceId>) returns (res: Outcome)
      modifies this
      ensures Written(State(), res) == SetEnabledServicesRun(old(State()), ids)
    {
      if ids == {} {
        return Pass;
      }
      var edited := EditEnabledServices(prefs, ids);
      res := Apply(Commit(State(), edited));
    }

    method SetFavorite(value: Option<ServiceId>) returns (res: Outcome)
      modifies this
      ensures Written(State(), res) == SetFavoriteRun(old(State()), value)
    {
      res := Apply(Commit(State(), EditFavorite(prefs, value)));
    }

    method SetLastService(value: Option<ServiceId>) returns (res: Outcome)
      modifies this
      ensures Written(State(), res) == SetLastServiceRun(old(State()), value)
    {
      res := Apply(Commit(State(), EditLastService(prefs, value)));
    }

    method SetOnboardingDone(done: bool) returns (res: Outcome)
      modifies this
      ensures Written(State(), res) == SetOnboardingDoneRun(old(State()), done)
    {
      res := Apply(Commit(State(), EditOnboardingDone(prefs, done)));
    }

    method SetTheme(mode: string) returns (res: Outcome)
      modifies this
      ensures Written(State(), res) == SetThemeRun(old(State()), mode)
    {
      if mode != "dark" && mode != "light" {
        return Pass;
      }
      res := Apply(Commit(State(), EditTheme(prefs, mode)));
    }

    method EnsureThemeInitialized(systemIsDark: bool) returns (res: Outcome)
      modifies this
      ensures Written(State(), res) == EnsureThemeInitializedRun(old(State()), systemIsDark)
    {
      var readFails := NextFails(ioFaults);
      ioFaults := Rest(ioFaults);
      if readFails {
        return Fail;
      }
      if prefs.theme.Some? {
        return Pass;
      }
      res := Apply(Commit(State(), EditTheme(prefs, if systemIsDark then "dark" else "light")));
    }

    method GetInitialSettings() returns (r: Result<InitialSettings>)
      modifies this
      ensures (State(), r) == GetInitialSettingsRun(old(State()))
    {
      var readFails := NextFails(ioFaults);
      ioFaults := Rest(ioFaults);
      if readFails {
        return Failure;
      }
      r := Success(InitialSettingsOf(prefs));
    }
  }

  // ---- properties ----

  /** With no key stored, or when the read fails, every reader sees the defaults. */
  lemma DefaultsWhenAbsentOrUnreadable(p: Prefs, readFails: bool)
    ensures InitialSettingsOf(EmptyPrefs) == DefaultSettings
    ensures ThemeOf(EmptyPrefs) == "light" && CatalogListViewOf(EmptyPrefs)
    ensures readFails ==> InitialSettingsOf(Observed(p, readFails)) == DefaultSettings
    ensures readFails ==> ThemeOf(Observed(p, readFails)) == "light" && CatalogListViewOf(Observed(p, readFails))
    ensures !readFails ==> Observed(p, readFails) == p
  {
    assert !(exists id :: Name(id) in {}) by {
      forall id: ServiceId ensures Name(id) !in {} {}
    }
  }

  /** A failed transaction keeps the stored preferences and reports failure. */
  lemma FailedCommitKeepsPrefs(st: Store, edited: Prefs)
    ensures NextFails(st.ioFaults) ==> Commit(st, edited) == Written(Store(st.prefs, Rest(st.ioFaults)), Fail)
    ensures !NextFails(st.ioFaults) ==> Commit(st, edited).store.prefs == edited && Commit(st, edited).outcome == Pass
    ensures |Commit(st, edited).store.ioFaults| == if st.ioFaults == [] then 0 else |st.ioFaults| - 1
  {
  }

  /** `setEnabledServices(∅)` succeeds and changes nothing, not even the fault script. */
  lemma SetEnabledServicesEmptyIsNoOp(st: Store)
    ensures SetEnabledServicesRun(st, {}) == Written(st, Pass)
  {
  }

  /**
   * After `setEnabledServices(ids)` with `ids` non-empty the enabled set reads
   * back as `ids`; the favourite key is removed exactly when it decodes to a
   * service outside `ids`; the other keys are untouched.
   */
  lemma EditEnabledServicesReadsBack(p: Prefs, ids: set<ServiceId>)
    requires ids != {}
    ensures EnabledOf(EditEnabledServices(p, ids)) == ids
    ensures EditEnabledServices(p, ids).favoriteService ==
      (if FavoriteOf(p).Some? && FavoriteOf(p).value !in ids then None else p.favoriteService)
    ensures var q := EditEnabledServices(p, ids);
      q.lastService == p.lastService && q.onboardingDone == p.onboardingDone &&
      q.theme == p.theme && q.catalogListView == p.catalogListView
  {
    var id :| id in ids;
    assert Name(id) in NamesOf(ids);
  }

  /** `setFavorite(v)` stores `v` exactly when it is enabled (with the DEALS fallback) and removes the key otherwise. */
  lemma EditFavoriteStoresOnlyEnabled(p: Prefs, value: Option<ServiceId>)
    ensures FavoriteOf(EditFavorite(p, value)) == (if value.Some? && value.value in EnabledOf(p) then value else None)
    ensures EditFavorite(p, value).favoriteService.None? <==> value.None? || value.value !in EnabledOf(p)
    ensures EditFavorite(p, value).(favoriteService := p.favoriteService) == p
  {
    if value.Some? && value.value in EnabledOf(p) {
      assert DecodeId(Some(Name(value.value))) == value;
    }
  }

  /** Neither `setEnabledServices` nor `setFavorite` can leave a disabled service as the favourite. */
  lemma FavoriteWritersLeaveItEnabled(p: Prefs, ids: set<ServiceId>, value: Option<ServiceId>)
    ensures ids != {} ==> FavoriteEnabled(EditEnabledServices(p, ids))
    ensures FavoriteEnabled(EditFavorite(p, value))
  {
    if ids != {} {
      EditEnabledServicesReadsBack(p, ids);
      var q := EditEnabledServices(p, ids);
      if FavoriteOf(q).Some? {
        assert q.favoriteService == p.favoriteService;
        assert FavoriteOf(q) == FavoriteOf(p);
      }
    }
    EditFavoriteStoresOnlyEnabled(p, value);
  }

  /** The other writes keep "the favourite is enabled" (none of them touches either key). */
  lemma OtherWritesKeepFavoriteEnabled(p: Prefs, last: Option<ServiceId>, done: bool, mode: string, listView: bool)
    requires FavoriteEnabled(p)
    ensures FavoriteEnabled(EditLastService(p, last))
    ensures FavoriteEnabled(EditOnboardingDone(p, done))
    ensures FavoriteEnabled(EditTheme(p, mode))
    ensures FavoriteEnabled(EditCatalogListView(p, listView))
  {
  }

  /** `setLastService` round-trips, `null` included; `setOnboardingDone` and the list-view flag likewise. */
  lemma ScalarWritesReadBack(p: Prefs, last: Option<ServiceId>, done: bool, listView: bool)
    ensures LastOf(EditLastService(p, last)) == last
    ensures EditLastService(p, last).(lastService := p.lastService) == p
    ensures OnboardingDoneOf(EditOnboardingDone(p, done)) == done
    ensures CatalogListViewOf(EditCatalogListView(p, listView)) == listView
  {
    if last.Some? {
      assert DecodeId(Some(Name(last.value))) == last;
    }
  }

  /** `setTheme(m)` changes the stored theme only for "dark" and "light"; anything else is a successful no-op. */
  lemma SetThemeOnlyAccepted(st: Store, mode: string)
    ensures !AcceptedTheme(mode) ==> SetThemeRun(st, mode) == Written(st, Pass)
    ensures AcceptedTheme(mode) && !NextFails(st.ioFaults) ==>
      ThemeOf(SetThemeRun(st, mode).store.prefs) == mode && SetThemeRun(st, mode).outcome == Pass
    ensures SetThemeRun(st, mode).store.prefs.(theme := st.prefs.theme) == st.prefs
  {
  }

  /**
   * `ensureThemeInitialized` writes only when no theme is stored, then writes the
   * system's choice, and touches no other key.
   */
  lemma EnsureThemeInitializedOnlyFillsTheme(st: Store, systemIsDark: bool)
    ensures var w := EnsureThemeInitializedRun(st, systemIsDark);
      w.store.prefs.(theme := st.prefs.theme) == st.prefs
    ensures st.prefs.theme.Some? ==> EnsureThemeInitializedRun(st, systemIsDark).store.prefs == st.prefs
    ensures st.prefs.theme.None? && EnsureThemeInitializedRun(st, systemIsDark).outcome == Pass ==>
      EnsureThemeInitializedRun(st, systemIsDark).store.prefs.theme == Some(if systemIsDark then "dark" else "light")
  {
  }

  /** `getInitialSettings` decodes what the flows decode; its enabled set is never empty. */
  lemma InitialSettingsAgreeWithFlows(st: Store)
    ensures var (after, r) := GetInitialSettingsRun(st);
      after.prefs == st.prefs &&
      (r.Success? <==> !NextFails(st.ioFaults)) &&
      (r.Success? ==> r.value.enabledServices == EnabledOf(st.prefs) && r.value.enabledServices != {} &&
                      r.value.favoriteService == FavoriteOf(st.prefs) && r.value.lastService == LastOf(st.prefs) &&
                      r.value.onboardingDone == OnboardingDoneOf(st.prefs))
  {
  }
}
