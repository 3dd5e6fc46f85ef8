/**
 * The service registry of the current revision: a fixed table of descriptors,
 * one display order, and the grouping by category the catalogue and the
 * onboarding dialogs show.
 */
module ServiceRegistry {
  import opened Wrappers
  import opened Seqs
  import opened ServiceModel

  /** The only place that fixes the order of services (dock, catalogue, onboarding). */
  const DisplayOrder: seq<ServiceId> :=
    [DEALS, NOTES, PROJECTS, SHIFTS, ServiceId.FINANCE, SUBSCRIPTIONS, OBLIGATIONS, CREDITS, MEDICINES]

  /** `servicesById` followed by `getValue`: the descriptor registered for `id`; the table is total. */
  function ById(id: ServiceId): (r: AppService)
    ensures r.id == id
  {
    match id
    case DEALS => AppService(DEALS, "service_deals", "service/deals", PLANNING)
    case NOTES => AppService(NOTES, "service_notes", "service/notes", PLANNING)
    case PROJECTS => AppService(PROJECTS, "service_projects", "service/projects", PLANNING)
    case SHIFTS => AppService(SHIFTS, "service_shifts", "service/shifts", PLANNING)
    case FINANCE => AppService(ServiceId.FINANCE, "service_finance", "service/finance", ServiceCategory.FINANCE)
    case SUBSCRIPTIONS => AppService(SUBSCRIPTIONS, "service_subscriptions", "service/subscriptions", ServiceCategory.FINANCE)
    case OBLIGATIONS => AppService(OBLIGATIONS, "service_obligations", "service/obligations", ServiceCategory.FINANCE)
    case CREDITS => AppService(CREDITS, "service_credits", "service/credits", ServiceCategory.FINANCE)
    case MEDICINES => AppService(MEDICINES, "service_medicines", "service/medicines", HEALTH)
  }

  /** The descriptors of `ids`, in order (`ids.map { servicesById.getValue(it) }`). */
  function Descriptors(ids: seq<ServiceId>): (r: seq<AppService>)
    ensures |r| == |ids|
    ensures forall i :: 0 <= i < |r| ==> r[i] == ById(ids[i])
  {
    if ids == [] then [] else [ById(ids[0])] + Descriptors(ids[1..])
  }

  /** `all`: the entries in display order. */
  const All: seq<AppService> := Descriptors(DisplayOrder)

  /** `all.filter { it.category == category }`. */
  function InCategory(services: seq<AppService>, category: ServiceCategory): (r: seq<AppService>) {
    Filter(services, OfCategory(category))
  }

  function OfCategory(category: ServiceCategory): (r: AppService -> bool) {
    (s: AppService) => s.category == category
  }

  /** `it.second.isNotEmpty()`. */
  function NonEmptyGroup(): (r: ((ServiceCategory, seq<AppService>)) -> bool) {
    (g: (ServiceCategory, seq<AppService>)) => g.1 != []
  }

  /** `entries.map { category -> category to all.filter { ... } }.filter { it.second.isNotEmpty() }`, for any category list and entry list. */
  function GroupBy(categories: seq<ServiceCategory>, services: seq<AppService>): (r: seq<(ServiceCategory, seq<AppService>)>) {
    Filter(CategoryPairs(categories, services), NonEmptyGroup())
  }

  /** `categories.map { category -> category to services.filter { it.category == category } }`. */
  function CategoryPairs(categories: seq<ServiceCategory>, services: seq<AppService>): (r: seq<(ServiceCategory, seq<AppService>)>)
  {
    seq(|categories|, i requires 0 <= i < |categories| => (categories[i], InCategory(services, categories[i])))
  }

  /** `groupedByCategory`. */
  function GroupedByCategory(): (r: seq<(ServiceCategory, seq<AppService>)>) {
    GroupBy(CategoryEntries, All)
  }

  /** The first of the identifiers in `all` order that is in `s` (`all.firstOrNull { it.id in s }?.id`). */
  function FirstInDisplayOrder(s: set<ServiceId>): (r: Option<ServiceId>)
    ensures r.Some? ==> r.value in s
    ensures r.None? <==> s == {}
  {
    NoneFirstOnlyForEmpty(s);
    if FirstIn(DisplayOrder, s) == -1 then None else Some(DisplayOrder[FirstIn(DisplayOrder, s)])
  }

  lemma NoneFirstOnlyForEmpty(s: set<ServiceId>)
    ensures FirstIn(DisplayOrder, s) == -1 <==> s == {}
  {
    if s != {} {
      var id :| id in s;
      DisplayOrderIsPermutation();
      FirstInFindsMember(DisplayOrder, s, id);
    }
  }

  // ---- properties of the table ----

  /** `displayOrder` is a permutation of the identifiers: same size, same set, no repeats. */
  lemma DisplayOrderIsPermutation()
    ensures |DisplayOrder| == |Entries|
    ensures Elements(DisplayOrder) == Elements(Entries)
    ensures NoDuplicates(DisplayOrder)
    ensures forall id: ServiceId :: id in DisplayOrder
  {
    EntriesListEveryIdOnce();
    forall id: ServiceId ensures id in DisplayOrder {
      match id
      case DEALS => assert DisplayOrder[0] == id;
      case NOTES => assert DisplayOrder[1] == id;
      case PROJECTS => assert DisplayOrder[2] == id;
      case SHIFTS => assert DisplayOrder[3] == id;
      case FINANCE => assert DisplayOrder[4] == id;
      case SUBSCRIPTIONS => assert DisplayOrder[5] == id;
      case OBLIGATIONS => assert DisplayOrder[6] == id;
      case CREDITS => assert DisplayOrder[7] == id;
      case MEDICINES => assert DisplayOrder[8] == id;
    }
  }

  /** Position i of `all` is the entry of `displayOrder[i]`. */
  lemma AllMatchesDisplayOrder()
    ensures |All| == |DisplayOrder|
    ensures forall i :: 0 <= i < |All| ==> All[i].id == DisplayOrder[i] && All[i] == ById(DisplayOrder[i])
  {
  }

  lemma AllIdsAreDisplayOrder()
    ensures Ids(All) == DisplayOrder
  {
    AllMatchesDisplayOrder();
  }

  /** The whole table, written out. */
  lemma AllWrittenOut()
    ensures All == [
      AppService(DEALS, "service_deals", "service/deals", PLANNING),
      AppService(NOTES, "service_notes", "service/notes", PLANNING),
      AppService(PROJECTS, "service_projects", "service/projects", PLANNING),
      AppService(SHIFTS, "service_shifts", "service/shifts", PLANNING),
      AppService(ServiceId.FINANCE, "service_finance", "service/finance", ServiceCategory.FINANCE),
      AppService(SUBSCRIPTIONS, "service_subscriptions", "service/subscriptions", ServiceCategory.FINANCE),
      AppService(OBLIGATIONS, "service_obligations", "service/obligations", ServiceCategory.FINANCE),
      AppService(CREDITS, "service_credits", "service/credits", ServiceCategory.FINANCE),
      AppService(MEDICINES, "service_medicines", "service/medicines", HEALTH)]
  {
  }

  // ---- properties of the grouping ----

  /** The services of a list of groups, group after group (`flatMap { it.second }`). */
  function Members(groups: seq<(ServiceCategory, seq<AppService>)>): (r: seq<AppService>)
  {
    if groups == [] then [] else groups[0].1 + Members(groups[1..])
  }

  /** A service is among the members exactly when it is in one of the groups. */
  lemma {:induction false} MembersAreGroupContents(groups: seq<(ServiceCategory, seq<AppService>)>)
    ensures forall i, x :: 0 <= i < |groups| && x in groups[i].1 ==> x in Members(groups)
    ensures forall x :: x in Members(groups) ==> exists i :: 0 <= i < |groups| && x in groups[i].1
  {
    if groups != [] {
      MembersAreGroupContents(groups[1..]);
      forall i, x | 0 <= i < |groups| && x in groups[i].1 ensures x in Members(groups) {
        if i > 0 {
          assert groups[i] == groups[1..][i - 1];
        }
      }
      forall x | x in Members(groups) ensures exists i :: 0 <= i < |groups| && x in groups[i].1 {
        if x !in groups[0].1 {
          var k :| 0 <= k < |groups[1..]| && x in groups[1..][k].1;
          assert groups[k + 1] == groups[1..][k];
        }
      }
    }
  }

  /**
   * Each group is a category of `categories` with exactly the services of that
   * category, in their order; no group is empty; and every category that has a
   * service gets a group, in the order of `categories`.
   */
  lemma GroupByIsExact(categories: seq<ServiceCategory>, services: seq<AppService>)
    ensures forall i :: 0 <= i < |GroupBy(categories, services)| ==>
      var g := GroupBy(categories, services)[i];
      g.0 in categories && g.1 == InCategory(services, g.0) && g.1 != []
    ensures forall c :: c in categories && InCategory(services, c) != [] ==>
      (c, InCategory(services, c)) in GroupBy(categories, services)
    ensures IsSubsequence(GroupBy(categories, services), CategoryPairs(categories, services))
    ensures forall i, x :: 0 <= i < |GroupBy(categories, services)| && x in GroupBy(categories, services)[i].1 ==>
      x in services && x.category == GroupBy(categories, services)[i].0
    ensures NoDuplicates(categories) ==> forall i, j :: 0 <= i < j < |GroupBy(categories, services)| ==>
      GroupBy(categories, services)[i].0 != GroupBy(categories, services)[j].0
  {
    var pairs := CategoryPairs(categories, services);
    var p := NonEmptyGroup();
    var groups := GroupBy(categories, services);
    FilterMembers(pairs, p);
    forall c | c in categories && InCategory(services, c) != []
      ensures (c, InCategory(services, c)) in groups
    {
      var k :| 0 <= k < |categories| && categories[k] == c;
      assert pairs[k] == (c, InCategory(services, c));
    }
    forall i | 0 <= i < |groups|
      ensures groups[i].0 in categories && groups[i].1 == InCategory(services, groups[i].0) && groups[i].1 != []
    {
      var g := groups[i];
      assert g in pairs;
      var k :| 0 <= k < |pairs| && pairs[k] == g;
    }
    forall i, x | 0 <= i < |groups| && x in groups[i].1
      ensures x in services && x.category == groups[i].0
    {
      FilterMembers(services, OfCategory(groups[i].0));
      var k :| 0 <= k < |groups[i].1| && groups[i].1[k] == x;
    }
    if NoDuplicates(categories) {
      assert NoDuplicates(pairs);
      FilterNoDuplicates(pairs, p);
    }
    FilterIsSubsequence(pairs, p);
  }

  /** When every service's category is listed, the groups hold exactly the services. */
  lemma GroupByCovers(categories: seq<ServiceCategory>, services: seq<AppService>)
    requires forall i :: 0 <= i < |services| ==> services[i].category in categories
    ensures Elements(Members(GroupBy(categories, services))) == Elements(services)
    ensures services != [] ==> GroupBy(categories, services) != []
  {
    GroupByIsExact(categories, services);
    var grouped := GroupBy(categories, services);
    MembersAreGroupContents(grouped);
    forall x | x in services ensures x in Members(grouped) {
      var c := x.category;
      FilterMembers(services, OfCategory(c));
      var k :| 0 <= k < |services| && services[k] == x;
      assert x in InCategory(services, c);
      assert (c, InCategory(services, c)) in grouped;
      var i :| 0 <= i < |grouped| && grouped[i] == (c, InCategory(services, c));
    }
    forall x | x in Members(grouped) ensures x in services {
      var i :| 0 <= i < |grouped| && x in grouped[i].1;
    }
    if services != [] {
      assert services[0] in services;
    }
  }

  lemma EveryCategoryListed(c: ServiceCategory)
    ensures c in CategoryEntries
  {
    match c
    case PLANNING => assert CategoryEntries[0] == c;
    case FINANCE => assert CategoryEntries[1] == c;
    case HEALTH => assert CategoryEntries[2] == c;
  }

  /** `groupedByCategory` is not empty and covers exactly `all`. */
  lemma GroupedByCategoryCoversAll()
    ensures GroupedByCategory() != []
    ensures Elements(Members(GroupedByCategory())) == Elements(All)
  {
    forall i | 0 <= i < |All| ensures All[i].category in CategoryEntries {
      EveryCategoryListed(All[i].category);
    }
    AllMatchesDisplayOrder();
    GroupByCovers(CategoryEntries, All);
  }

  /** `all` lists four planning, then four finance, then one health service. */
  lemma AllCategoriesInBlocks()
    ensures |All| == 9
    ensures forall i :: 0 <= i < 4 ==> All[i].category == PLANNING
    ensures forall i :: 4 <= i < 8 ==> All[i].category == ServiceCategory.FINANCE
    ensures All[8].category == HEALTH
  {
    AllMatchesDisplayOrder();
  }

  /** A category whose services form one block of the list filters to that block. */
  lemma CategoryBlock(services: seq<AppService>, c: ServiceCategory, lo: nat, hi: nat)
    requires lo <= hi <= |services|
    requires forall i :: lo <= i < hi ==> services[i].category == c
    requires forall i :: 0 <= i < |services| && (i < lo || hi <= i) ==> services[i].category != c
    ensures InCategory(services, c) == services[lo..hi]
  {
    var p := OfCategory(c);
    var a, b, d := services[..lo], services[lo..hi], services[hi..];
    assert services == (a + b) + d;
    assert Filter(a, p) == [] by { FilterDropsAll(a, p); }
    assert Filter(b, p) == b by { FilterKeepsAll(b, p); }
    assert Filter(d, p) == [] by { FilterDropsAll(d, p); }
    assert Filter(a + b, p) == b by { FilterConcat(a, b, p); }
    FilterConcat(a + b, d, p);
  }

  /** `groupedByCategory` for this table: three groups, each a block of `all`. */
  lemma GroupedByCategoryWrittenOut()
    ensures GroupedByCategory() ==
      [(PLANNING, All[..4]), (ServiceCategory.FINANCE, All[4..8]), (HEALTH, All[8..])]
  {
    AllCategoriesInBlocks();
    GroupByThreeBlocks(All);
  }

  /** Nine services listed as four planning, four finance and one health service group into those three blocks. */
  lemma GroupByThreeBlocks(services: seq<AppService>)
    requires |services| == 9
    requires forall i :: 0 <= i < 4 ==> services[i].category == PLANNING
    requires forall i :: 4 <= i < 8 ==> services[i].category == ServiceCategory.FINANCE
    requires services[8].category == HEALTH
    ensures GroupBy(CategoryEntries, services) ==
      [(PLANNING, services[..4]), (ServiceCategory.FINANCE, services[4..8]), (HEALTH, services[8..])]
  {
    var P, F, H := services[..4], services[4..8], services[8..];
    assert InCategory(services, PLANNING) == P by { CategoryBlock(services, PLANNING, 0, 4); }
    assert InCategory(services, ServiceCategory.FINANCE) == F by { CategoryBlock(services, ServiceCategory.FINANCE, 4, 8); }
    assert InCategory(services, HEALTH) == H by { CategoryBlock(services, HEALTH, 8, 9); }
    var pairs := CategoryPairs(CategoryEntries, services);
    assert pairs == [(PLANNING, P), (ServiceCategory.FINANCE, F), (HEALTH, H)];
    assert services[0] in P && services[4] in F && services[8] in H;
    FilterKeepsAll(pairs, NonEmptyGroup());
  }

  lemma MembersOfThree(g0: (ServiceCategory, seq<AppService>), g1: (ServiceCategory, seq<AppService>), g2: (ServiceCategory, seq<AppService>))
    ensures Members([g0, g1, g2]) == g0.1 + g1.1 + g2.1
  {
    var t := [g0, g1, g2];
    assert t[1..] == [g1, g2] && [g1, g2][1..] == [g2] && [g2][1..] == [];
    assert Members([g2]) == g2.1 + [];
    assert Members([g1, g2]) == g1.1 + Members([g2]);
    assert Members(t) == g0.1 + Members([g1, g2]);
    assert g2.1 + [] == g2.1;
  }

  /**
   * With this table the groups, read one after another, give back `all` exactly:
   * `displayOrder` already lists the planning, then the finance, then the health services.
   */
  lemma GroupsConcatenateToAll()
    ensures Members(GroupedByCategory()) == All
  {
    GroupedByCategoryWrittenOut();
    MembersOfThree((PLANNING, All[..4]), (ServiceCategory.FINANCE, All[4..8]), (HEALTH, All[8..]));
    assert |All| == 9 by { AllMatchesDisplayOrder(); }
    BlocksReassemble(All, 4, 8);
  }

  lemma BlocksReassemble(s: seq<AppService>, i: nat, j: nat)
    requires i <= j <= |s|
    ensures s[..i] + s[i..j] + s[j..] == s
  {
  }
}
