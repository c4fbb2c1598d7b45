/** The recommendation panel: three fixed sample layouts, authored for a
    5 m by 5 m room, rescaled to the current room's width and length. */
module Recommendations {
  import opened Wrappers
  import opened Room

  /** The rotation `-Math.PI / 4` of the accent chair, as the nearest
      decimal of the double value. */
  const MinusQuarterPi: real := -0.7853981633974483

  /** `sampleRecommendations` */
  const SampleRecommendations: seq<Recommendation> := [
    Recommendation(
      "rec-1",
      "Living Room Arrangement",
      "Optimal furniture placement for conversation and TV viewing.",
      [
        FurnitureItem("sofa-1", "Modern Sofa", "sofa", "Seating",
          Position(-1.5, 0.4, 0.0), 0.0, Dimensions(2.0, 0.8, 0.9), None),
        FurnitureItem("chair-1", "Accent Chair", "chair", "Seating",
          Position(1.0, 0.45, 1.0), MinusQuarterPi, Dimensions(0.7, 0.9, 0.7), None),
        FurnitureItem("table-1", "Coffee Table", "table", "Tables",
          Position(0.0, 0.225, 0.0), 0.0, Dimensions(1.2, 0.45, 0.6), None)
      ],
      ["Living Room", "Conversation Area"]),
    Recommendation(
      "rec-2",
      "Bedroom Layout",
      "Cozy bedroom arrangement with optimal space utilization.",
      [
        FurnitureItem("bed-1", "Queen Bed", "bed", "Bedroom",
          Position(0.0, 0.25, 0.0), 0.0, Dimensions(1.6, 0.5, 2.0), None),
        FurnitureItem("cabinet-3", "Dresser", "cabinet", "Storage",
          Position(-1.5, 0.4, -1.0), 0.0, Dimensions(1.2, 0.8, 0.5), None),
        FurnitureItem("table-3", "Side Table", "table", "Tables",
          Position(1.0, 0.3, -0.5), 0.0, Dimensions(0.5, 0.6, 0.5), None)
      ],
      ["Bedroom", "Cozy", "Space-saving"]),
    Recommendation(
      "rec-3",
      "Home Office Setup",
      "Productive workspace with ergonomic arrangement.",
      [
        FurnitureItem("table-2", "Desk", "table", "Tables",
          Position(0.0, 0.375, -1.0), 0.0, Dimensions(1.6, 0.75, 0.9), None),
        FurnitureItem("chair-2", "Office Chair", "chair", "Seating",
          Position(0.0, 0.45, 0.0), 0.0, Dimensions(0.5, 0.9, 0.5), None),
        FurnitureItem("cabinet-2", "Bookshelf", "cabinet", "Storage",
          Position(1.5, 0.9, -1.0), 0.0, Dimensions(0.8, 1.8, 0.3), None)
      ],
      ["Office", "Productivity", "Ergonomic"])
  ]

  /** The scaled position of one sample item: `x` by `width / 5`, `z` by
      `length / 5`, the height `y` untouched. */
  function ScalePosition(p: Position, width: real, length: real): Position
  {
    Position(p.x * (width / 5.0), p.y, p.z * (length / 5.0))
  }

  /** `rec.furniture.map(item => ({...item, position: ...}))` */
  function ScaleFurniture(items: seq<FurnitureItem>, width: real, length: real): (r: seq<FurnitureItem>)
    ensures |r| == |items|
    ensures forall i :: 0 <= i < |items| ==> r[i].(position := items[i].position) == items[i]
    ensures forall i :: 0 <= i < |items| ==>
      r[i].position.y == items[i].position.y &&
      r[i].position.x == items[i].position.x * (width / 5.0) &&
      r[i].position.z == items[i].position.z * (length / 5.0)
  {
    if items == [] then []
    else
      [items[0].(position := ScalePosition(items[0].position, width, length))] +
      ScaleFurniture(items[1..], width, length)
  }

  /** `sampleRecommendations.map(rec => ({...rec, furniture: ...}))`, on any list. */
  function ScaleRecommendations(recs: seq<Recommendation>, width: real, length: real): (r: seq<Recommendation>)
    ensures |r| == |recs|
    ensures forall i :: 0 <= i < |recs| ==> r[i].(furniture := recs[i].furniture) == recs[i]
    ensures forall i :: 0 <= i < |recs| ==> r[i].furniture == ScaleFurniture(recs[i].furniture, width, length)
  {
    if recs == [] then []
    else
      [recs[0].(furniture := ScaleFurniture(recs[0].furniture, width, length))] +
      ScaleRecommendations(recs[1..], width, length)
  }

  /** `generateRecommendations` for a room of the given width and length:
      always computed from the fixed samples, never from an earlier result. */
  function GenerateRecommendations(width: real, length: real): (r: seq<Recommendation>)
    ensures |r| == |SampleRecommendations| == 3
    ensures forall i :: 0 <= i < 3 ==>
      r[i].(furniture := SampleRecommendations[i].furniture) == SampleRecommendations[i] &&
      r[i].furniture == ScaleFurniture(SampleRecommendations[i].furniture, width, length)
  {
    ScaleRecommendations(SampleRecommendations, width, length)
  }

  /** In a 5 by 5 room, scaling changes no item. */
  lemma {:induction false} ScaleFurnitureByFive(items: seq<FurnitureItem>)
    ensures ScaleFurniture(items, 5.0, 5.0) == items
  {
    var r := ScaleFurniture(items, 5.0, 5.0);
    forall i | 0 <= i < |items|
      ensures r[i] == items[i]
    {
      assert r[i].position == items[i].position;
    }
  }

  /** In a 5 by 5 room, scaling changes no recommendation. */
  lemma {:induction false} ScaleRecommendationsByFive(recs: seq<Recommendation>)
    ensures ScaleRecommendations(recs, 5.0, 5.0) == recs
  {
    var r := ScaleRecommendations(recs, 5.0, 5.0);
    forall i | 0 <= i < |recs|
      ensures r[i] == recs[i]
    {
      ScaleFurnitureByFive(recs[i].furniture);
    }
  }

  /** The panel's initial list (the samples) is what generating for the
      default 5 by 5 room gives. */
  lemma DefaultRoomGivesSamples()
    ensures GenerateRecommendations(5.0, 5.0) == SampleRecommendations
  {
    ScaleRecommendationsByFive(SampleRecommendations);
  }

  /** The sofa at (-1.5, 0.4, 0) lands at (-3.0, 0.4, 0) in a 10 by 5 room. */
  lemma SofaInTenByFiveRoom()
    ensures GenerateRecommendations(10.0, 5.0)[0].furniture[0].position == Position(-3.0, 0.4, 0.0)
    ensures GenerateRecommendations(10.0, 5.0)[0].furniture[0].id == "sofa-1"
  {
  }
}
