/**
 * The service registry of the older revision: a constant list in declaration
 * order, each entry with a Russian title and a route, and a lookup by id that
 * takes the first matching entry.
 */
module LegacyRegistry {
  import opened Wrappers
  import opened Seqs
  import opened ServiceModel

  /** An entry of the older registry; the icon is not modelled. */
  datatype LegacyService = LegacyService(id: ServiceId, titleRu: string, route: string)

  /** The literal entry the older list holds for `id`. */
  function Entry(id: ServiceId): (r: LegacyService)
    ensures r.id == id
  {
    match id
    case DEALS => LegacyService(DEALS, "Дела", "service/deals")
    case NOTES => LegacyService(NOTES, "Заметки", "service/notes")
    case FINANCE => LegacyService(ServiceId.FINANCE, "Финансы", "service/finance")
    case SUBSCRIPTIONS => LegacyService(SUBSCRIPTIONS, "Подписки", "service/subscriptions")
    case OBLIGATIONS => LegacyService(OBLIGATIONS, "Обязательства", "service/obligations")
    case CREDITS => LegacyService(CREDITS, "Кредиты", "service/credits")
    case SHIFTS => LegacyService(SHIFTS, "Смены", "service/shifts")
    case PROJECTS => LegacyService(PROJECTS, "Проекты", "service/projects")
    case MEDICINES => LegacyService(MEDICINES, "Лекарства", "service/medicines")
  }

  /** `ServiceRegistry.all`: the nine entries in the order they are listed. */
  const All: seq<LegacyService> := [
    Entry(DEALS), Entry(NOTES), Entry(ServiceId.FINANCE), Entry(SUBSCRIPTIONS), Entry(OBLIGATIONS),
    Entry(CREDITS), Entry(SHIFTS), Entry(PROJECTS), Entry(MEDICINES)
  ]

  /** The ids of a list of entries, in order. */
  function Ids(services: seq<LegacyService>): (r: seq<ServiceId>)
    ensures |r| == |services|
    ensures forall i :: 0 <= i < |services| ==> r[i] == services[i].id
  {
    if services == [] then [] else [services[0].id] + Ids(services[1..])
  }

  /**
   * `first { it.id == id }`: the first entry with that id, or `None` where
   * Kotlin throws `NoSuchElementException`.
   */
  function FindFirst(services: seq<LegacyService>, id: ServiceId): (r: Option<LegacyService>)
    ensures r.None? <==> forall i :: 0 <= i < |services| ==> services[i].id != id
    ensures r.Some? ==> exists k :: 0 <= k < |services| && services[k] == r.value && r.value.id == id &&
                                    (forall j :: 0 <= j < k ==> services[j].id != id)
  {
    if services == [] then None
    else if services[0].id == id then Some(services[0])
    else
      var rest := FindFirst(services[1..], id);
      assert rest.Some? ==> exists k :: 0 <= k < |services| && services[k] == rest.value && rest.value.id == id &&
                                         (forall j :: 0 <= j < k ==> services[j].id != id) by {
        if rest.Some? {
          var k :| 0 <= k < |services[1..]| && services[1..][k] == rest.value && rest.value.id == id &&
                   (forall j :: 0 <= j < k ==> services[1..][j].id != id);
          assert services[k + 1] == rest.value;
          assert forall j :: 0 <= j < k + 1 ==> services[j].id != id by {
            forall j | 0 <= j < k + 1 ensures services[j].id != id {
              if j > 0 {
                assert services[j] == services[1..][j - 1];
              }
            }
          }
        }
      }
      rest
  }

  /** The list is in declaration order: its ids are `ServiceId.entries`. */
  lemma AllInDeclarationOrder()
    ensures Ids(All) == Entries
  {
    var ids := Ids(All);
    assert |ids| == |Entries|;
    forall i | 0 <= i < |Entries| ensures ids[i] == Entries[i] {
      assert ids[i] == All[i].id;
    }
  }

  /** No two positions of the list hold the same id. */
  predicate UniqueIds(services: seq<LegacyService>) {
    forall i, j :: 0 <= i < j < |services| ==> services[i].id != services[j].id
  }

  /** The list holds each of the nine ids exactly once. */
  lemma AllListsEveryIdOnce()
    ensures |All| == 9
    ensures UniqueIds(All)
    ensures forall id: ServiceId :: id in Ids(All)
  {
    assert forall id: ServiceId :: id in Ids(All) by {
      AllInDeclarationOrder();
      EntriesListEveryIdOnce();
    }
  }

  /** `byId(id)`: the lookup never throws, because every id is listed. */
  function ById(id: ServiceId): (r: LegacyService)
    ensures r.id == id
    ensures r in All
  {
    assert FindFirst(All, id).Some? by {
      AllListsEveryIdOnce();
      assert id in Ids(All);
    }
    FindFirst(All, id).value
  }

  /** The entry `byId` returns is the only entry with that id. */
  lemma ByIdIsTheUniqueEntry(id: ServiceId, k: int)
    requires 0 <= k < |All| && All[k].id == id
    ensures ById(id) == All[k]
  {
    var e := ById(id);
    assert e.id == id && e in All;
    var j :| 0 <= j < |All| && All[j] == e;
    assert UniqueIds(All) by {
      AllListsEveryIdOnce();
    }
    assert All[j].id == id;
    assert !(j < k) && !(k < j);
  }

  /** ASCII lower-casing of one character. */
  function LowerChar(c: char): (r: char) {
    if 'A' <= c <= 'Z' then (c as int + 32) as char else c
  }

  /** `lowercase()` on the ASCII names of the identifiers. */
  function Lower(s: string): (r: string) {
    seq(|s|, i requires 0 <= i < |s| => LowerChar(s[i]))
  }

  /** Every route is `"service/"` followed by the lower-cased identifier name. */
  lemma RoutesAreLowercaseNames()
    ensures forall k :: 0 <= k < |All| ==> All[k].route == "service/" + Lower(Name(All[k].id))
  {
    LowercaseRoutes();
  }

  /** The nine route strings, one per identifier. */
  lemma LowercaseRoutes()
    ensures "service/" + Lower(Name(DEALS)) == "service/deals"
    ensures "service/" + Lower(Name(NOTES)) == "service/notes"
    ensures "service/" + Lower(Name(ServiceId.FINANCE)) == "service/finance"
    ensures "service/" + Lower(Name(SUBSCRIPTIONS)) == "service/subscriptions"
    ensures "service/" + Lower(Name(OBLIGATIONS)) == "service/obligations"
    ensures "service/" + Lower(Name(CREDITS)) == "service/credits"
    ensures "service/" + Lower(Name(SHIFTS)) == "service/shifts"
    ensures "service/" + Lower(Name(PROJECTS)) == "service/projects"
    ensures "service/" + Lower(Name(MEDICINES)) == "service/medicines"
  {
  }
}
