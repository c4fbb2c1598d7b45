/** The design page wires the catalog's "add" button to the store's
    `addFurniture`. Catalog templates carry fixed ids and `addFurniture`
    keeps any non-empty id, so the same template added twice yields two
    placed items with one id; removal by id then takes both. */
module DesignPage {
  import opened Room
  import opened RoomDesign
  import opened FurnitureCatalog
  import Seqs

  /** Adding a template twice places two items with the template's id, and
      removing that id afterwards leaves what removing it before would have. */
  lemma AddTemplateTwice(s: DesignState, template: CatalogItem, freshId1: string, freshId2: string)
    requires Consistent(s) && template.id != "" && freshId1 != "" && freshId2 != ""
    ensures var r := AddStep(AddStep(s, Instantiate(template), freshId1), Instantiate(template), freshId2);
      var n := |s.placedFurniture|;
      |r.placedFurniture| == n + 2 &&
      r.placedFurniture[n].id == template.id && r.placedFurniture[n + 1].id == template.id &&
      RemoveById(r.placedFurniture, template.id) == RemoveById(s.placedFurniture, template.id)
  {
    var t := AddStep(s, Instantiate(template), freshId1);
    var r := AddStep(t, Instantiate(template), freshId2);
    var n := |s.placedFurniture|;
    var added := [r.placedFurniture[n], r.placedFurniture[n + 1]];
    assert r.placedFurniture == s.placedFurniture + added;
    var keep := (item: FurnitureItem) => item.id != template.id;
    Seqs.FilterConcat(s.placedFurniture, added, keep);
    Seqs.FilterKeepsNone(added, keep);
  }

  /** In the shipped catalog: two "Modern Sofa"s added to an empty room
      both have the id "sofa-1". */
  lemma TwoSofasShareAnId(freshId1: string, freshId2: string)
    requires freshId1 != "" && freshId2 != ""
    ensures var sofa := Instantiate(FurnitureData[0].items[0]);
      var r := AddStep(AddStep(InitialState(), sofa, freshId1), sofa, freshId2);
      |r.placedFurniture| == 2 &&
      r.placedFurniture[0].id == "sofa-1" && r.placedFurniture[1].id == "sofa-1"
  {
    AddTemplateTwice(InitialState(), FurnitureData[0].items[0], freshId1, freshId2);
  }
}
