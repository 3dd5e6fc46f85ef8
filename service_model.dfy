/**
 * The closed set of services the application knows, their categories and the
 * descriptor each registry entry holds.
 */
module ServiceModel {
  import opened Wrappers
  import opened Seqs

  /** The service identifiers, in declaration order. */
  datatype ServiceId = DEALS | NOTES | FINANCE | SUBSCRIPTIONS | OBLIGATIONS | CREDITS | SHIFTS | PROJECTS | MEDICINES

  /** `ServiceId.entries`: every identifier, in declaration order. */
  const Entries: seq<ServiceId> :=
    [DEALS, NOTES, ServiceId.FINANCE, SUBSCRIPTIONS, OBLIGATIONS, CREDITS, SHIFTS, PROJECTS, MEDICINES]

  /** The enum constant's `name`, the string stored in the preferences file. */
  function Name(id: ServiceId): (r: string) {
    match id
    case DEALS => "DEALS"
    case NOTES => "NOTES"
    case FINANCE => "FINANCE"
    case SUBSCRIPTIONS => "SUBSCRIPTIONS"
    case OBLIGATIONS => "OBLIGATIONS"
    case CREDITS => "CREDITS"
    case SHIFTS => "SHIFTS"
    case PROJECTS => "PROJECTS"
    case MEDICINES => "MEDICINES"
  }

  /**
   * `ServiceId.valueOf(s)` with its `IllegalArgumentException` caught and turned
   * into `null`: the identifier whose name is exactly `s`, if there is one.
   */
  function ValueOf(s: string): (r: Option<ServiceId>)
    ensures r.Some? ==> Name(r.value) == s
    ensures r.None? ==> forall id: ServiceId :: Name(id) != s
  {
    if s == "DEALS" then Some(DEALS)
    else if s == "NOTES" then Some(NOTES)
    else if s == "FINANCE" then Some(ServiceId.FINANCE)
    else if s == "SUBSCRIPTIONS" then Some(SUBSCRIPTIONS)
    else if s == "OBLIGATIONS" then Some(OBLIGATIONS)
    else if s == "CREDITS" then Some(CREDITS)
    else if s == "SHIFTS" then Some(SHIFTS)
    else if s == "PROJECTS" then Some(PROJECTS)
    else if s == "MEDICINES" then Some(MEDICINES)
    else None
  }

  /** Distinct identifiers have distinct names. */
  lemma NameInjective(a: ServiceId, b: ServiceId)
    ensures Name(a) == Name(b) ==> a == b
  {
  }

  /** Parsing a stored name gives back the identifier it was written from, and nothing else parses. */
  lemma ValueOfName(id: ServiceId, s: string)
    ensures ValueOf(Name(id)) == Some(id)
    ensures ValueOf(s) == Some(id) <==> s == Name(id)
  {
    NameInjective(ValueOf(Name(id)).value, id);
  }

  /** `entries` lists each of the nine identifiers exactly once. */
  lemma EntriesListEveryIdOnce()
    ensures |Entries| == 9 && NoDuplicates(Entries)
    ensures forall id: ServiceId :: id in Entries
  {
    forall id: ServiceId ensures id in Entries {
      match id
      case DEALS => assert Entries[0] == id;
      case NOTES => assert Entries[1] == id;
      case FINANCE => assert Entries[2] == id;
      case SUBSCRIPTIONS => assert Entries[3] == id;
      case OBLIGATIONS => assert Entries[4] == id;
      case CREDITS => assert Entries[5] == id;
      case SHIFTS => assert Entries[6] == id;
      case PROJECTS => assert Entries[7] == id;
      case MEDICINES => assert Entries[8] == id;
    }
  }

  /** The catalogue categories, in declaration order. */
  datatype ServiceCategory = PLANNING | FINANCE | HEALTH

  /** `ServiceCategory.entries`. */
  const CategoryEntries: seq<ServiceCategory> := [PLANNING, ServiceCategory.FINANCE, HEALTH]

  /**
   * A registry entry. `titleResId` is the name of the string resource the
   * title comes from; the icon is not modelled.
   */
  datatype AppService = AppService(id: ServiceId, titleResId: string, route: string, category: ServiceCategory)

  /** The ids of a list of entries, in order. */
  function Ids(services: seq<AppService>): (r: seq<ServiceId>)
    ensures |r| == |services|
    ensures forall i :: 0 <= i < |services| ==> r[i] == services[i].id
  {
    if services == [] then [] else [services[0].id] + Ids(services[1..])
  }
}
