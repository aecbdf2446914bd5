/** The studio's static services list, the price-list filter over it and the
    catalog's id-to-icon mapping. Only the service ids take part in any rule,
    so a service is represented by its id. */
module Services {

  /** The eight service ids, in the order the services list declares them. */
  const ServiceIds: seq<string> :=
    ["brows", "lips", "eyes-classic", "eyes-shadow", "eyes-velvet", "botox", "contour", "biorev"]

  /** The id list the filter tests for the permanent-makeup key. */
  const PmuIds: seq<string> := ["brows", "lips", "eyes-classic", "eyes-shadow", "eyes-velvet"]

  /** The id list the filter tests for the cosmetology key. */
  const CosmetologyIds: seq<string> := ["botox", "contour", "biorev"]

  /** The keys the three filter buttons set. */
  const AllKey: string := "all"
  const PmuKey: string := "pmu"
  const CosmetologyKey: string := "cosmetology"

  // ---------------------------------------------------------------------------
  // String.prototype.includes
  // ---------------------------------------------------------------------------

  /** `key` occurs in `s` starting at position `i`. */
  predicate OccursAt(s: string, key: string, i: int) {
    0 <= i && i + |key| <= |s| && s[i..i + |key|] == key
  }

  /** `s.includes(key)`: some position of `s` starts an occurrence of `key`;
      true for the empty key, false when `key` is longer than `s`. */
  predicate Includes(s: string, key: string)
    ensures key == [] ==> Includes(s, key)
    ensures |key| > |s| ==> !Includes(s, key)
  {
    assert key == [] ==> OccursAt(s, key, 0);
    exists i | 0 <= i <= |s| - |key| :: OccursAt(s, key, i)
  }

  /** A key whose first character does not start any candidate position of
      `s` does not occur in `s`. */
  lemma NotIncludedByFirstChar(s: string, key: string)
    requires key != []
    requires forall i :: 0 <= i <= |s| - |key| ==> s[i] != key[0]
    ensures !Includes(s, key)
  {
    forall i | 0 <= i <= |s| - |key| ensures !OccursAt(s, key, i) {
      assert s[i..i + |key|][0] == s[i];
    }
  }

  // ---------------------------------------------------------------------------
  // Price-list filter
  // ---------------------------------------------------------------------------

  /** The callback given to `services.filter` when the key is not "all":
      the id contains the key, or the key names a category whose id list
      holds the id. */
  predicate Keep(key: string, id: string)
    ensures Includes(id, key) ==> Keep(key, id)
    ensures key != PmuKey && key != CosmetologyKey ==> (Keep(key, id) <==> Includes(id, key))
  {
    Includes(id, key)
    || (key == PmuKey && id in PmuIds)
    || (key == CosmetologyKey && id in CosmetologyIds)
  }

  /** `ids.filter(id => Keep(key, id))`: every id the predicate keeps,
      with its multiplicity, and no other. */
  function FilterBy(ids: seq<string>, key: string): (r: seq<string>)
    ensures forall x :: multiset(r)[x] == if Keep(key, x) then multiset(ids)[x] else 0
    ensures forall x :: x in r <==> x in ids && Keep(key, x)
  {
    if ids == [] then []
    else
      var tail := FilterBy(ids[1..], key);
      assert ids == [ids[0]] + ids[1..];
      if Keep(key, ids[0]) then [ids[0]] + tail else tail
  }

  /** The price list shown for the active filter key. */
  function PriceList(ids: seq<string>, key: string): (r: seq<string>)
    ensures key == AllKey ==> r == ids
    ensures key != AllKey ==>
              forall x :: multiset(r)[x] == if Keep(key, x) then multiset(ids)[x] else 0
  {
    if key == AllKey then ids else FilterBy(ids, key)
  }

  /** `sub` is obtained from `s` by deleting elements, keeping the order. */
  predicate IsSubsequence(sub: seq<string>, s: seq<string>)
    decreases |s|
  {
    if sub == [] then true
    else if s == [] then false
    else if sub[0] == s[0] then IsSubsequence(sub[1..], s[1..])
    else IsSubsequence(sub, s[1..])
  }

  lemma {:induction false} EverySequenceIsSubsequenceOfItself(s: seq<string>)
    ensures IsSubsequence(s, s)
    decreases |s|
  {
    if s != [] {
      EverySequenceIsSubsequenceOfItself(s[1..]);
    }
  }

  lemma {:induction false} FilterByIsSubsequence(ids: seq<string>, key: string)
    ensures IsSubsequence(FilterBy(ids, key), ids)
    decreases |ids|
  {
    if ids != [] {
      FilterByIsSubsequence(ids[1..], key);
    }
  }

  /** Whatever the key, the price list is the services list with some
      services removed and the remaining ones in their original order. */
  lemma PriceListIsOrderedSublist(ids: seq<string>, key: string)
    ensures IsSubsequence(PriceList(ids, key), ids)
  {
    if key == AllKey {
      EverySequenceIsSubsequenceOfItself(ids);
    } else {
      FilterByIsSubsequence(ids, key);
    }
  }

  /** Neither category key occurs inside any of the eight ids, so for the
      two category buttons the substring clause never selects a service:
      the id lists decide alone. */
  lemma CategoryKeysAreNotSubstrings(id: string)
    requires id in ServiceIds
    ensures !Includes(id, PmuKey) && !Includes(id, CosmetologyKey)
  {
    NotIncludedByFirstChar(id, PmuKey);
    NotIncludedByFirstChar(id, CosmetologyKey);
  }

  /** For the eight services, the two category buttons keep exactly the ids
      of their own list. */
  lemma ButtonKeysFollowIdLists(id: string)
    requires id in ServiceIds
    ensures Keep(PmuKey, id) <==> id in PmuIds
    ensures Keep(CosmetologyKey, id) <==> id in CosmetologyIds
  {
    CategoryKeysAreNotSubstrings(id);
  }

  /** The services list is the PMU id list followed by the cosmetology id list. */
  lemma ServicesAreCategoriesInOrder()
    ensures ServiceIds == PmuIds + CosmetologyIds
  {
  }

  lemma PmuKeyKeepsPmuIds()
    ensures FilterBy(PmuIds, PmuKey) == PmuIds
  {
    FilterByKeepsAll(PmuIds, PmuKey);
  }

  lemma PmuKeyDropsCosmetologyIds()
    ensures FilterBy(CosmetologyIds, PmuKey) == []
  {
    CategoryKeysAreNotSubstrings("botox");
    CategoryKeysAreNotSubstrings("contour");
    CategoryKeysAreNotSubstrings("biorev");
    FilterByDropsAll(CosmetologyIds, PmuKey);
  }

  lemma CosmetologyKeyDropsPmuIds()
    ensures FilterBy(PmuIds, CosmetologyKey) == []
  {
    CategoryKeysAreNotSubstrings("brows");
    CategoryKeysAreNotSubstrings("lips");
    CategoryKeysAreNotSubstrings("eyes-classic");
    CategoryKeysAreNotSubstrings("eyes-shadow");
    CategoryKeysAreNotSubstrings("eyes-velvet");
    FilterByDropsAll(PmuIds, CosmetologyKey);
  }

  lemma CosmetologyKeyKeepsCosmetologyIds()
    ensures FilterBy(CosmetologyIds, CosmetologyKey) == CosmetologyIds
  {
    FilterByKeepsAll(CosmetologyIds, CosmetologyKey);
  }

  /** The permanent-makeup button lists exactly the five PMU services, in order. */
  lemma PmuPriceList()
    ensures PriceList(ServiceIds, PmuKey) == PmuIds
  {
    ServicesAreCategoriesInOrder();
    PmuKeyKeepsPmuIds();
    PmuKeyDropsCosmetologyIds();
    PriceListOfParts(PmuIds, CosmetologyIds, PmuKey, PmuIds, []);
  }

  /** The cosmetology button lists exactly the three cosmetology services, in order. */
  lemma CosmetologyPriceList()
    ensures PriceList(ServiceIds, CosmetologyKey) == CosmetologyIds
  {
    ServicesAreCategoriesInOrder();
    CosmetologyKeyDropsPmuIds();
    CosmetologyKeyKeepsCosmetologyIds();
    PriceListOfParts(PmuIds, CosmetologyIds, CosmetologyKey, [], CosmetologyIds);
  }

  /** The two category lists share no service and together hold every
      service exactly once. */
  lemma CategoryListsPartitionServices()
    ensures multiset(PriceList(ServiceIds, PmuKey)) !! multiset(PriceList(ServiceIds, CosmetologyKey))
    ensures multiset(PriceList(ServiceIds, PmuKey)) + multiset(PriceList(ServiceIds, CosmetologyKey))
            == multiset(ServiceIds)
  {
    PmuPriceList();
    CosmetologyPriceList();
    ServicesAreCategoriesInOrder();
  }

  /** The eye services, the only ids that contain "eyes". */
  const EyeIds: seq<string> := ["eyes-classic", "eyes-shadow", "eyes-velvet"]

  lemma EyesKeyDropsBrowsAndLips()
    ensures FilterBy(["brows", "lips"], "eyes") == []
  {
    NotIncludedByFirstChar("brows", "eyes");
    NotIncludedByFirstChar("lips", "eyes");
    FilterByDropsAll(["brows", "lips"], "eyes");
  }

  lemma EyesKeyKeepsEyeIds()
    ensures FilterBy(EyeIds, "eyes") == EyeIds
  {
    assert OccursAt("eyes-classic", "eyes", 0);
    assert OccursAt("eyes-shadow", "eyes", 0);
    assert OccursAt("eyes-velvet", "eyes", 0);
    FilterByKeepsAll(EyeIds, "eyes");
  }

  lemma EyesKeyDropsCosmetologyIds()
    ensures FilterBy(CosmetologyIds, "eyes") == []
  {
    NotIncludedByFirstChar("botox", "eyes");
    NotIncludedByFirstChar("contour", "eyes");
    NotIncludedByFirstChar("biorev", "eyes");
    FilterByDropsAll(CosmetologyIds, "eyes");
  }

  lemma ServicesSplitAroundEyeIds()
    ensures ServiceIds == ["brows", "lips"] + (EyeIds + CosmetologyIds)
  {
  }

  lemma EyesKeyKeepsEyeIdsBeforeCosmetology()
    ensures FilterBy(EyeIds + CosmetologyIds, "eyes") == EyeIds
  {
    EyesKeyKeepsEyeIds();
    EyesKeyDropsCosmetologyIds();
    FilterByAppend(EyeIds, CosmetologyIds, "eyes");
  }

  /** A key other than the three button keys does not necessarily give an
      empty list: the substring clause still applies, so "eyes" keeps the
      three eye services. */
  lemma SubstringKeySelectsEyeServices()
    ensures PriceList(ServiceIds, "eyes") == EyeIds
  {
    ServicesSplitAroundEyeIds();
    EyesKeyDropsBrowsAndLips();
    EyesKeyKeepsEyeIdsBeforeCosmetology();
    PriceListOfParts(["brows", "lips"], EyeIds + CosmetologyIds, "eyes", [], EyeIds);
  }

  /** The price list of two concatenated lists, for a key other than "all",
      from the filtered parts. */
  lemma PriceListOfParts(a: seq<string>, b: seq<string>, key: string, fa: seq<string>, fb: seq<string>)
    requires key != AllKey && FilterBy(a, key) == fa && FilterBy(b, key) == fb
    ensures PriceList(a + b, key) == fa + fb
  {
    FilterByAppend(a, b, key);
  }

  lemma {:induction false} FilterByAppend(a: seq<string>, b: seq<string>, key: string)
    ensures FilterBy(a + b, key) == FilterBy(a, key) + FilterBy(b, key)
    decreases |a|
  {
    if a != [] {
      assert (a + b)[1..] == a[1..] + b;
      FilterByAppend(a[1..], b, key);
    } else {
      assert a + b == b;
    }
  }

  lemma {:induction false} FilterByKeepsAll(ids: seq<string>, key: string)
    requires forall x :: x in ids ==> Keep(key, x)
    ensures FilterBy(ids, key) == ids
    decreases |ids|
  {
    if ids != [] {
      FilterByKeepsAll(ids[1..], key);
    }
  }

  lemma FilterByDropsAll(ids: seq<string>, key: string)
    requires forall x :: x in ids ==> !Keep(key, x)
    ensures FilterBy(ids, key) == []
  {
    if FilterBy(ids, key) != [] {
      assert FilterBy(ids, key)[0] in FilterBy(ids, key);
    }
  }

  // ---------------------------------------------------------------------------
  // Catalog icons
  // ---------------------------------------------------------------------------

  /** The services catalog shows only the first six services. */
  const CatalogIds: seq<string> := ServiceIds[..6]

  /** The icon the catalog card shows for a service: the first matching rule
      of the conditional chain wins, "droplets" is the fallback. */
  function IconName(id: string): (r: string)
    ensures r in ["eye", "scan-face", "smile", "activity", "droplets"]
    ensures r == "eye" <==> Includes(id, "eyes")
  {
    if Includes(id, "eyes") then "eye"
    else if id == "brows" then "scan-face"
    else if id == "lips" || id == "contour" then "smile"
    else if id == "botox" then "activity"
    else "droplets"
  }

  /** The icons of the eight services; the catalog renders the first six. */
  lemma ServiceIcons()
    ensures CatalogIds == ["brows", "lips", "eyes-classic", "eyes-shadow", "eyes-velvet", "botox"]
    ensures IconName("brows") == "scan-face"
    ensures IconName("lips") == "smile"
    ensures IconName("eyes-classic") == "eye"
    ensures IconName("eyes-shadow") == "eye"
    ensures IconName("eyes-velvet") == "eye"
    ensures IconName("botox") == "activity"
    ensures IconName("contour") == "smile"
    ensures IconName("biorev") == "droplets"
  {
    assert OccursAt("eyes-classic", "eyes", 0);
    assert OccursAt("eyes-shadow", "eyes", 0);
    assert OccursAt("eyes-velvet", "eyes", 0);
    NotIncludedByFirstChar("brows", "eyes");
    NotIncludedByFirstChar("lips", "eyes");
    NotIncludedByFirstChar("botox", "eyes");
    NotIncludedByFirstChar("contour", "eyes");
    NotIncludedByFirstChar("biorev", "eyes");
  }
}
