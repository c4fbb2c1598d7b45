/** The furniture catalog: thirteen item templates in five categories, a
    case-insensitive name search combined with a category tab, and the
    instantiation of a template as a placed item at the room's origin. */
module FurnitureCatalog {
  import opened Wrappers
  import opened Room
  import opened Text
  import Seqs

  /** A catalog template: a furniture item without position and rotation. */
  datatype CatalogItem = CatalogItem(
    id: string,
    name: string,
    furnitureType: string,
    image: string,
    dimensions: Dimensions,
    category: string)

  /** One category group of `furnitureData`. */
  datatype CatalogCategory = CatalogCategory(category: string, items: seq<CatalogItem>)

  /** The tab value that shows every category. */
  const AllCategories: string := "all"

  /** `furnitureData` */
  const FurnitureData: seq<CatalogCategory> := [
    CatalogCategory("Seating", [
      CatalogItem("sofa-1", "Modern Sofa", "sofa", "/placeholder.svg?height=100&width=150",
        Dimensions(2.0, 0.8, 0.9), "Seating"),
      CatalogItem("chair-1", "Accent Chair", "chair", "/placeholder.svg?height=100&width=100",
        Dimensions(0.7, 0.9, 0.7), "Seating"),
      CatalogItem("chair-2", "Dining Chair", "chair", "/placeholder.svg?height=100&width=100",
        Dimensions(0.5, 0.9, 0.5), "Seating")
    ]),
    CatalogCategory("Tables", [
      CatalogItem("table-1", "Coffee Table", "table", "/placeholder.svg?height=100&width=150",
        Dimensions(1.2, 0.45, 0.6), "Tables"),
      CatalogItem("table-2", "Dining Table", "table", "/placeholder.svg?height=100&width=150",
        Dimensions(1.6, 0.75, 0.9), "Tables"),
      CatalogItem("table-3", "Side Table", "table", "/placeholder.svg?height=100&width=100",
        Dimensions(0.5, 0.6, 0.5), "Tables")
    ]),
    CatalogCategory("Storage", [
      CatalogItem("cabinet-1", "TV Stand", "cabinet", "/placeholder.svg?height=100&width=150",
        Dimensions(1.8, 0.6, 0.4), "Storage"),
      CatalogItem("cabinet-2", "Bookshelf", "cabinet", "/placeholder.svg?height=100&width=100",
        Dimensions(0.8, 1.8, 0.3), "Storage"),
      CatalogItem("cabinet-3", "Dresser", "cabinet", "/placeholder.svg?height=100&width=150",
        Dimensions(1.2, 0.8, 0.5), "Storage")
    ]),
    CatalogCategory("Bedroom", [
      CatalogItem("bed-1", "Queen Bed", "bed", "/placeholder.svg?height=100&width=150",
        Dimensions(1.6, 0.5, 2.0), "Bedroom"),
      CatalogItem("bed-2", "King Bed", "bed", "/placeholder.svg?height=100&width=150",
        Dimensions(1.8, 0.5, 2.1), "Bedroom")
    ]),
    CatalogCategory("Decor", [
      CatalogItem("lamp-1", "Floor Lamp", "lamp", "/placeholder.svg?height=100&width=100",
        Dimensions(0.3, 1.5, 0.3), "Decor"),
      CatalogItem("plant-1", "Indoor Plant", "plant", "/placeholder.svg?height=100&width=100",
        Dimensions(0.4, 1.2, 0.4), "Decor")
    ])
  ]

  /** The item's name contains the query, ignoring case. */
  predicate MatchesSearch(item: CatalogItem, searchQuery: string)
  {
    Contains(Lower(item.name), Lower(searchQuery))
  }

  /** The active tab is "all" or the item's group. */
  predicate MatchesCategory(group: CatalogCategory, activeCategory: string)
  {
    activeCategory == AllCategories || group.category == activeCategory
  }

  /** The items of one group that the search and the tab keep. */
  function FilterGroup(group: CatalogCategory, searchQuery: string, activeCategory: string): seq<CatalogItem>
  {
    Seqs.Filter(group.items,
      (item: CatalogItem) => MatchesSearch(item, searchQuery) && MatchesCategory(group, activeCategory))
  }

  /** Every catalog item, category by category. */
  function Flatten(data: seq<CatalogCategory>): (r: seq<CatalogItem>)
  {
    if data == [] then [] else data[0].items + Flatten(data[1..])
  }

  /** `filteredFurniture`, the `flatMap` over the groups. */
  function FilteredFurniture(data: seq<CatalogCategory>, searchQuery: string, activeCategory: string): (r: seq<CatalogItem>)
    ensures |r| <= |Flatten(data)|
    ensures forall i :: 0 <= i < |r| ==> MatchesSearch(r[i], searchQuery) && r[i] in Flatten(data)
  {
    if data == [] then []
    else FilterGroup(data[0], searchQuery, activeCategory) + FilteredFurniture(data[1..], searchQuery, activeCategory)
  }

  /** `x` is an item of some group that the search and the tab keep. */
  predicate KeptInGroup(data: seq<CatalogCategory>, k: int, x: CatalogItem, searchQuery: string, activeCategory: string)
  {
    0 <= k < |data| && x in data[k].items &&
    MatchesSearch(x, searchQuery) && MatchesCategory(data[k], activeCategory)
  }

  /** An item is shown if and only if its name matches the query and its
      group matches the active tab. */
  lemma {:induction false} FilteredMembership(data: seq<CatalogCategory>, searchQuery: string, activeCategory: string, x: CatalogItem)
    ensures x in FilteredFurniture(data, searchQuery, activeCategory) <==>
      exists k :: KeptInGroup(data, k, x, searchQuery, activeCategory)
  {
    if data != [] {
      FilteredMembership(data[1..], searchQuery, activeCategory, x);
      var head := FilterGroup(data[0], searchQuery, activeCategory);
      var rest := FilteredFurniture(data[1..], searchQuery, activeCategory);
      if x in head {
        assert KeptInGroup(data, 0, x, searchQuery, activeCategory);
      }
      if x in rest {
        var k :| KeptInGroup(data[1..], k, x, searchQuery, activeCategory);
        assert KeptInGroup(data, k + 1, x, searchQuery, activeCategory);
      }
      if exists k :: KeptInGroup(data, k, x, searchQuery, activeCategory) {
        var k :| KeptInGroup(data, k, x, searchQuery, activeCategory);
        if k == 0 {
          var j :| 0 <= j < |data[0].items| && data[0].items[j] == x;
          assert x in head;
        } else {
          assert KeptInGroup(data[1..], k - 1, x, searchQuery, activeCategory);
        }
      }
    }
  }

  /** The search result keeps catalog order: a subsequence of all items. */
  lemma {:induction false} FilteredIsSubsequence(data: seq<CatalogCategory>, searchQuery: string, activeCategory: string)
    ensures Seqs.IsSubsequence(FilteredFurniture(data, searchQuery, activeCategory), Flatten(data))
  {
    if data != [] {
      FilteredIsSubsequence(data[1..], searchQuery, activeCategory);
      Seqs.FilterIsSubsequence(data[0].items,
        (item: CatalogItem) => MatchesSearch(item, searchQuery) && MatchesCategory(data[0], activeCategory));
      Seqs.SubsequenceConcat(
        FilterGroup(data[0], searchQuery, activeCategory), data[0].items,
        FilteredFurniture(data[1..], searchQuery, activeCategory), Flatten(data[1..]));
    }
  }

  /** With an empty query on the "all" tab every item is shown, in order. */
  lemma {:induction false} EmptyQueryShowsAll(data: seq<CatalogCategory>)
    ensures FilteredFurniture(data, "", AllCategories) == Flatten(data)
  {
    if data != [] {
      EmptyQueryShowsAll(data[1..]);
      forall i | 0 <= i < |data[0].items|
        ensures MatchesSearch(data[0].items[i], "")
      {
        ContainsEmpty(Lower(data[0].items[i].name));
      }
      Seqs.FilterKeepsAll(data[0].items,
        (item: CatalogItem) => MatchesSearch(item, "") && MatchesCategory(data[0], AllCategories));
    }
  }

  /** The catalog holds thirteen items. */
  lemma CatalogSize()
    ensures |Flatten(FurnitureData)| == 13
  {
    var d := FurnitureData;
    assert |Flatten(d[4..])| == 2;
    assert |Flatten(d[3..])| == 4;
    assert |Flatten(d[2..])| == 7;
    assert |Flatten(d[1..])| == 10;
  }

  /** Before any search, all thirteen catalog items are shown. */
  lemma CatalogShowsThirteen()
    ensures |FilteredFurniture(FurnitureData, "", AllCategories)| == 13
  {
    EmptyQueryShowsAll(FurnitureData);
    CatalogSize();
  }

  /** Queries that lower-case alike select alike; in particular a query and
      its lower-cased form give the same result. */
  lemma {:induction false} SearchIgnoresCase(data: seq<CatalogCategory>, q1: string, q2: string, activeCategory: string)
    requires Lower(q1) == Lower(q2)
    ensures FilteredFurniture(data, q1, activeCategory) == FilteredFurniture(data, q2, activeCategory)
  {
    if data != [] {
      SearchIgnoresCase(data[1..], q1, q2, activeCategory);
      Seqs.FilterCongruent(data[0].items,
        (item: CatalogItem) => MatchesSearch(item, q1) && MatchesCategory(data[0], activeCategory),
        (item: CatalogItem) => MatchesSearch(item, q2) && MatchesCategory(data[0], activeCategory));
    }
  }

  /** A query and its lower-cased form give the same result. */
  lemma LowerCasedQuery(data: seq<CatalogCategory>, searchQuery: string, activeCategory: string)
    ensures FilteredFurniture(data, Lower(searchQuery), activeCategory) ==
            FilteredFurniture(data, searchQuery, activeCategory)
  {
    LowerIdempotent(searchQuery);
    SearchIgnoresCase(data, Lower(searchQuery), searchQuery, activeCategory);
  }

  /** The content of one category's tab: its items whose name matches. */
  function TabItems(group: CatalogCategory, searchQuery: string): (r: seq<CatalogItem>)
    ensures Seqs.IsSubsequence(r, group.items)
    ensures forall i :: 0 <= i < |r| ==> MatchesSearch(r[i], searchQuery)
    ensures forall i :: 0 <= i < |group.items| && MatchesSearch(group.items[i], searchQuery) ==> group.items[i] in r
  {
    var keep := (item: CatalogItem) => MatchesSearch(item, searchQuery);
    Seqs.FilterIsSubsequence(group.items, keep);
    Seqs.Filter(group.items, keep)
  }

  /** No two groups share a category name. */
  predicate DistinctCategories(data: seq<CatalogCategory>)
  {
    forall i, j :: 0 <= i < j < |data| ==> data[i].category != data[j].category
  }

  /** Filtering by a category's own name gives exactly that category's tab. */
  lemma {:induction false} CategoryFilterIsTab(data: seq<CatalogCategory>, k: int, searchQuery: string)
    requires 0 <= k < |data| && DistinctCategories(data)
    requires data[k].category != AllCategories
    ensures FilteredFurniture(data, searchQuery, data[k].category) == TabItems(data[k], searchQuery)
  {
    var active := data[k].category;
    if k == 0 {
      NoOtherCategory(data[1..], active, searchQuery);
      Seqs.FilterCongruent(data[0].items,
        (item: CatalogItem) => MatchesSearch(item, searchQuery) && MatchesCategory(data[0], active),
        (item: CatalogItem) => MatchesSearch(item, searchQuery));
    } else {
      CategoryFilterIsTab(data[1..], k - 1, searchQuery);
      assert data[1..][k - 1] == data[k];
      Seqs.FilterKeepsNone(data[0].items,
        (item: CatalogItem) => MatchesSearch(item, searchQuery) && MatchesCategory(data[0], active));
    }
  }

  /** Groups of other names contribute nothing when a category is active. */
  lemma {:induction false} NoOtherCategory(data: seq<CatalogCategory>, active: string, searchQuery: string)
    requires active != AllCategories
    requires forall i :: 0 <= i < |data| ==> data[i].category != active
    ensures FilteredFurniture(data, searchQuery, active) == []
  {
    if data != [] {
      NoOtherCategory(data[1..], active, searchQuery);
      Seqs.FilterKeepsNone(data[0].items,
        (item: CatalogItem) => MatchesSearch(item, searchQuery) && MatchesCategory(data[0], active));
    }
  }

  /** In the catalog itself each tab shows that category's matching items. */
  lemma CatalogTabs(k: int, searchQuery: string)
    requires 0 <= k < |FurnitureData|
    ensures FilteredFurniture(FurnitureData, searchQuery, FurnitureData[k].category) ==
            TabItems(FurnitureData[k], searchQuery)
  {
    CategoryFilterIsTab(FurnitureData, k, searchQuery);
  }

  /** `handleAddFurniture`: the template with every field copied, standing
      on the floor at the origin, unrotated. */
  function Instantiate(template: CatalogItem): (r: FurnitureItem)
    ensures r.id == template.id && r.name == template.name && r.furnitureType == template.furnitureType
    ensures r.category == template.category && r.dimensions == template.dimensions
    ensures r.image == Some(template.image)
    ensures r.position.x == 0.0 && r.position.z == 0.0 && r.rotation == 0.0
    ensures r.position.y == template.dimensions.height / 2.0
  {
    FurnitureItem(template.id, template.name, template.furnitureType, template.category,
      Position(0.0, template.dimensions.height / 2.0, 0.0), 0.0, template.dimensions,
      Some(template.image))
  }
}
