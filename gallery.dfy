/** The design gallery: six fixed entries and a case-insensitive search
    over title, description and tags. */
module Gallery {
  import opened Text
  import Seqs

  datatype GalleryItem = GalleryItem(
    id: int,
    title: string,
    description: string,
    image: string,
    likes: int,
    views: int,
    tags: seq<string>,
    author: string)

  /** `galleryItems` */
  const GalleryItems: seq<GalleryItem> := [
    GalleryItem(1, "Modern Living Room",
      "A minimalist living room with clean lines and neutral colors.",
      "/placeholder.svg?height=300&width=400", 124, 1240,
      ["Modern", "Living Room", "Minimalist"], "Jane Doe"),
    GalleryItem(2, "Cozy Bedroom Retreat",
      "A warm and inviting bedroom with soft textures and warm lighting.",
      "/placeholder.svg?height=300&width=400", 98, 876,
      ["Bedroom", "Cozy", "Warm"], "John Smith"),
    GalleryItem(3, "Scandinavian Kitchen",
      "A bright and airy kitchen with wooden accents and clean design.",
      "/placeholder.svg?height=300&width=400", 156, 1567,
      ["Kitchen", "Scandinavian", "Bright"], "Emma Johnson"),
    GalleryItem(4, "Industrial Office Space",
      "A productive workspace with industrial elements and modern technology.",
      "/placeholder.svg?height=300&width=400", 87, 932,
      ["Office", "Industrial", "Workspace"], "Michael Brown"),
    GalleryItem(5, "Bohemian Dining Room",
      "An eclectic dining space with vibrant colors and mixed patterns.",
      "/placeholder.svg?height=300&width=400", 112, 1089,
      ["Dining Room", "Bohemian", "Colorful"], "Sophia Garcia"),
    GalleryItem(6, "Minimalist Bathroom",
      "A clean and serene bathroom with spa-like features.",
      "/placeholder.svg?height=300&width=400", 76, 845,
      ["Bathroom", "Minimalist", "Spa"], "David Wilson")
  ]

  /** `tags.some(tag => tag.toLowerCase().includes(query.toLowerCase()))` */
  predicate SomeTagMatches(tags: seq<string>, searchQuery: string)
  {
    exists i :: 0 <= i < |tags| && Contains(Lower(tags[i]), Lower(searchQuery))
  }

  /** The search predicate: title, description or some tag contains the
      query, ignoring case. */
  predicate MatchesQuery(item: GalleryItem, searchQuery: string)
  {
    Contains(Lower(item.title), Lower(searchQuery)) ||
    Contains(Lower(item.description), Lower(searchQuery)) ||
    SomeTagMatches(item.tags, searchQuery)
  }

  /** `items.filter(item => ...)` with the search predicate. */
  function Search(items: seq<GalleryItem>, searchQuery: string): (r: seq<GalleryItem>)
    ensures Seqs.IsSubsequence(r, items)
    ensures forall i :: 0 <= i < |r| ==> MatchesQuery(r[i], searchQuery)
    ensures forall i :: 0 <= i < |items| && MatchesQuery(items[i], searchQuery) ==> items[i] in r
  {
    var keep := (item: GalleryItem) => MatchesQuery(item, searchQuery);
    Seqs.FilterIsSubsequence(items, keep);
    Seqs.Filter(items, keep)
  }

  /** `handleSearch`: the new `filteredItems`, always computed from the
      full `galleryItems`, so earlier searches have no influence. */
  function HandleSearch(searchQuery: string): (r: seq<GalleryItem>)
    ensures Seqs.IsSubsequence(r, GalleryItems)
    ensures forall i :: 0 <= i < |r| ==> MatchesQuery(r[i], searchQuery)
    ensures forall i :: 0 <= i < |GalleryItems| && MatchesQuery(GalleryItems[i], searchQuery) ==> GalleryItems[i] in r
  {
    Search(GalleryItems, searchQuery)
  }

  /** The empty query keeps every entry. */
  lemma {:induction false} EmptyQueryKeepsAll(items: seq<GalleryItem>)
    ensures Search(items, "") == items
  {
    forall i | 0 <= i < |items|
      ensures MatchesQuery(items[i], "")
    {
      ContainsEmpty(Lower(items[i].title));
    }
    Seqs.FilterKeepsAll(items, (item: GalleryItem) => MatchesQuery(item, ""));
  }

  /** Searching for the empty query shows all six entries, the same list
      the page shows before any search. */
  lemma EmptySearchShowsSix()
    ensures HandleSearch("") == GalleryItems && |HandleSearch("")| == 6
  {
    EmptyQueryKeepsAll(GalleryItems);
  }

  /** Queries that lower-case alike select alike. */
  lemma {:induction false} SearchIgnoresCase(items: seq<GalleryItem>, q1: string, q2: string)
    requires Lower(q1) == Lower(q2)
    ensures Search(items, q1) == Search(items, q2)
  {
    forall i | 0 <= i < |items|
      ensures MatchesQuery(items[i], q1) == MatchesQuery(items[i], q2)
    {
      assert SomeTagMatches(items[i].tags, q1) == SomeTagMatches(items[i].tags, q2);
    }
    Seqs.FilterCongruent(items,
      (item: GalleryItem) => MatchesQuery(item, q1),
      (item: GalleryItem) => MatchesQuery(item, q2));
  }

  /** A query and its lower-cased form give the same result. */
  lemma LowerCasedQuery(items: seq<GalleryItem>, searchQuery: string)
    ensures Search(items, Lower(searchQuery)) == Search(items, searchQuery)
  {
    LowerIdempotent(searchQuery);
    SearchIgnoresCase(items, Lower(searchQuery), searchQuery);
  }

  /** A law of the filter itself: searching a search result again for the
      same query changes nothing. The page never does this, since
      `handleSearch` always starts from the full `galleryItems`, so clearing
      the query after any search shows all six entries again
      (`EmptySearchShowsSix`). */
  lemma SearchIdempotent(items: seq<GalleryItem>, searchQuery: string)
    ensures Search(Search(items, searchQuery), searchQuery) == Search(items, searchQuery)
  {
    Seqs.FilterIdempotent(items, (item: GalleryItem) => MatchesQuery(item, searchQuery));
  }
}
