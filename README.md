# Room-design editor core in Dafny

This project models the state logic of a browser-based interior-design
editor. Users place furniture in a 3D room, move and rotate it, undo and redo
their edits, and apply canned layout recommendations.

- `room_design.dfy` (module `RoomDesign`) holds the `useRoomDesign` store. It
  keeps four state cells: the live furniture list, a linear history of list
  snapshots, a cursor `historyIndex` into it, and the selected item. Each
  transition is first a function on a `DesignState` value, and the
  properties are proved about those functions. The class `RoomDesignStore`
  then implements the hook's callbacks on mutable fields, and each method is
  proved to perform exactly its transition.
- `recommendations.dfy` holds the recommendation panel. It takes three fixed
  sample layouts, authored for a 5 by 5 room, and rescales their `x` and `z`
  coordinates to the room's width and length.
- `catalog.dfy` holds the furniture catalog. It has a name search that
  ignores case, a category tab with an `"all"` wildcard, and the
  instantiation of a catalog template at the origin of the room.
- `gallery.dfy` holds the gallery search. It is a case-insensitive match on
  the title, the description or any tag.
- `toast.dfy` holds the toast list. Toasts are appended, dismissed by
  position, and expired by object identity.
- `design_page.dfy` holds the page's wiring of the catalog's add button to
  the store.
- `seqs.dfy`, `text.dfy`, `wrappers.dfy` and `room.dfy` hold shared pieces:
  order-preserving filtering, ASCII lower-casing and substring search,
  `Option`, and the records of `src/models/room.ts`.

The model follows the code in these places:
- Ids can repeat. `addFurniture` keeps any non-empty id, and catalog
  templates carry fixed ids, so adding one template twice gives two items
  with the same id (`DesignPage.AddTemplateTwice`). Remove, move and rotate
  act on every item with that id.
- Remove, move and rotate record a snapshot even when no item matched
  (`RoomDesign.RemoveAbsentStillRecords`).
- The selection holds the item value itself.
- Undo followed by redo is a round trip under `canUndo`, and redo followed
  by undo is one under `canRedo`.

## Model

| member | source | states |
|---|---|---|
| `RoomDesign.InitialState` | src/hooks/useRoomDesign.ts:24-29 | A new store has an empty list, no selection and one empty snapshot with the cursor on it, and neither undo nor redo is possible |
| `RoomDesign.AddToHistoryStep` | src/hooks/useRoomDesign.ts:32-37 | Recording keeps the snapshots up to the cursor, drops all later ones, appends the new list as the last snapshot and puts the cursor on it; the live list and the selection are untouched |
| `RoomDesign.WithId` | src/hooks/useRoomDesign.ts:42-45 | The added item keeps a non-empty id and gets the generated id when its own is empty; every other field is copied |
| `RoomDesign.RemoveById` | src/hooks/useRoomDesign.ts:55 | The result is a subsequence of the list, holds no item with the id, and keeps every item with another id |
| `RoomDesign.RemoveAbsentKeepsList` | src/hooks/useRoomDesign.ts:55 | Removing an id that no item carries leaves the list unchanged |
| `RoomDesign.RemoveByIdCount` | src/hooks/useRoomDesign.ts:55 | Removal drops every copy of a matching item and keeps the exact number of copies of every other item |
| `RoomDesign.MoveById` | src/hooks/useRoomDesign.ts:63-68 | The list keeps its length and order; matching items get the new position, and no other field and no other item changes |
| `RoomDesign.RotateById` | src/hooks/useRoomDesign.ts:77-82 | The list keeps its length and order; matching items get the new rotation, and no other field and no other item changes |
| `RoomDesign.FindById` | src/hooks/useRoomDesign.ts:71 | Finds nothing exactly when no item has the id, and otherwise returns the first item with the id |
| `RoomDesign.FindAfterMove` | src/hooks/useRoomDesign.ts:70-71 | After a move, the item found by id is the first match before the move, with the new position |
| `RoomDesign.FindAfterRotate` | src/hooks/useRoomDesign.ts:84-85 | After a rotation, the item found by id is the first match before the rotation, with the new rotation |
| `RoomDesign.AddStep` | src/hooks/useRoomDesign.ts:40-51 | Add appends exactly one item after the unchanged earlier items, selects it and records one snapshot; the invariant holds and there is nothing to redo |
| `RoomDesign.AddStepGeneratesNewId` | src/hooks/useRoomDesign.ts:41-45 | An item added without an id gets the generated id; when that id is new to the room, the added item's id differs from every earlier item's id |
| `RoomDesign.RemoveStep` | src/hooks/useRoomDesign.ts:54-59 | Remove leaves the filtered list, clears the selection and records one snapshot, even when nothing matched; the invariant holds |
| `RoomDesign.MoveStep` | src/hooks/useRoomDesign.ts:62-73 | Move repositions the matching items, selects the first of them (or nothing) and records one snapshot; the invariant holds |
| `RoomDesign.RotateStep` | src/hooks/useRoomDesign.ts:76-87 | Rotate sets the rotation of the matching items, selects the first of them (or nothing) and records one snapshot; the invariant holds |
| `RoomDesign.ApplyStep` | src/hooks/useRoomDesign.ts:90-94 | Applying a recommendation installs its furniture list, clears the selection and records one snapshot; the invariant holds |
| `RoomDesign.UndoStep` | src/hooks/useRoomDesign.ts:97-104 | Undo never changes the history. With `canUndo` it moves the cursor back by one, reloads the list from that snapshot and clears the selection; without it the state is unchanged |
| `RoomDesign.RedoStep` | src/hooks/useRoomDesign.ts:107-114 | Redo never changes the history. With `canRedo` it moves the cursor forward by one, reloads the list and clears the selection; without it the state is unchanged |
| `RoomDesign.UndoRedoAvailability` | src/hooks/useRoomDesign.ts:129-130 | `canUndo` holds exactly when undo changes the state, and `canRedo` exactly when redo does |
| `RoomDesign.UndoThenRedo` | src/hooks/useRoomDesign.ts:97-114 | When `canUndo` holds, undo then redo restores the list, the history and the cursor; only the selection is cleared |
| `RoomDesign.RedoThenUndo` | src/hooks/useRoomDesign.ts:97-114 | When `canRedo` holds, redo then undo restores the list, the history and the cursor |
| `RoomDesign.EditDiscardsRedoBranch` | src/hooks/useRoomDesign.ts:32-37 | With five snapshots and the cursor at index 4, two undos and a move leave four snapshots with the first three unchanged, and nothing to redo |
| `RoomDesign.RemoveAbsentStillRecords` | src/hooks/useRoomDesign.ts:54-59 | Removing an absent id leaves the list unchanged but still appends a snapshot after the cursor |
| `RoomDesign.SessionInvariant` | src/hooks/useRoomDesign.ts:28-114 | After any sequence of calls, the cursor is in bounds, the live list equals the snapshot under the cursor, the oldest snapshot is still the empty room, and each call has added at most one snapshot |
| `RoomDesign.SessionFromInitialState` | src/hooks/useRoomDesign.ts:24-29 | From the initial store, the invariants hold after every call sequence, and there are at most one more snapshots than calls |
| `RoomDesign.RoomDesignStore.constructor` | src/hooks/useRoomDesign.ts:24-29 | The fields start as `InitialState` |
| `RoomDesign.RoomDesignStore.AddToHistory` | src/hooks/useRoomDesign.ts:32-37 | Slicing the history, pushing the snapshot and moving the cursor performs `AddToHistoryStep` |
| `RoomDesign.RoomDesignStore.AddFurniture` | src/hooks/useRoomDesign.ts:40-51 | Performs `AddStep` on the fields and keeps the invariant |
| `RoomDesign.RoomDesignStore.RemoveFurniture` | src/hooks/useRoomDesign.ts:54-59 | Performs `RemoveStep` on the fields and keeps the invariant |
| `RoomDesign.RoomDesignStore.MoveFurniture` | src/hooks/useRoomDesign.ts:62-73 | Performs `MoveStep` on the fields and keeps the invariant |
| `RoomDesign.RoomDesignStore.RotateFurniture` | src/hooks/useRoomDesign.ts:76-87 | Performs `RotateStep` on the fields and keeps the invariant |
| `RoomDesign.RoomDesignStore.ApplyAIRecommendation` | src/hooks/useRoomDesign.ts:90-94 | Performs `ApplyStep` on the fields and keeps the invariant |
| `RoomDesign.RoomDesignStore.UndoAction` | src/hooks/useRoomDesign.ts:97-104 | Performs `UndoStep` on the fields and keeps the invariant |
| `RoomDesign.RoomDesignStore.RedoAction` | src/hooks/useRoomDesign.ts:107-114 | Performs `RedoStep` on the fields and keeps the invariant |
| `RoomDesign.RoomDesignStore.SetSelectedFurniture` | src/hooks/useRoomDesign.ts:121 | The exported setter changes only the selection |
| `Recommendations.ScaleFurniture` | src/components/features/AIRecommendations.tsx:144-151 | The furniture list keeps its length and order, and only positions change: `x` is multiplied by width/5, `z` by length/5, and `y` is copied |
| `Recommendations.ScaleRecommendations` | src/components/features/AIRecommendations.tsx:142-157 | The recommendations keep their number and order, and each keeps its id, title, description and tags, with its furniture scaled |
| `Recommendations.GenerateRecommendations` | src/components/features/AIRecommendations.tsx:136-162 | The result is always computed from the three fixed samples: each keeps its id, title, description and tags, and its furniture is the sample's furniture scaled to the room |
| `Recommendations.ScaleFurnitureByFive` | src/components/features/AIRecommendations.tsx:144-151 | Scaling for a 5 by 5 room leaves every item unchanged |
| `Recommendations.ScaleRecommendationsByFive` | src/components/features/AIRecommendations.tsx:142-157 | Scaling for a 5 by 5 room leaves every recommendation unchanged |
| `Recommendations.DefaultRoomGivesSamples` | src/components/features/AIRecommendations.tsx:132-159 | Generating from the fixed samples for a 5 by 5 room gives back the panel's initial list |
| `Recommendations.SofaInTenByFiveRoom` | src/components/features/AIRecommendations.tsx:19-157 | In a 10 by 5 room the sofa at (-1.5, 0.4, 0) is placed at (-3.0, 0.4, 0) |
| `FurnitureCatalog.FilteredFurniture` | src/components/features/FurnitureCatalog.tsx:157-166 | The shown list is no longer than the catalog, and every shown item is a catalog item whose name matches the query |
| `FurnitureCatalog.FilteredMembership` | src/components/features/FurnitureCatalog.tsx:157-166 | An item is shown exactly when its lower-cased name contains the lower-cased query and its group matches the active tab or the tab is "all" |
| `FurnitureCatalog.FilteredIsSubsequence` | src/components/features/FurnitureCatalog.tsx:157-158 | The shown items are a subsequence of the catalog in category-then-item order |
| `FurnitureCatalog.EmptyQueryShowsAll` | src/components/features/FurnitureCatalog.tsx:157-166 | An empty query on the "all" tab shows every item in catalog order |
| `FurnitureCatalog.CatalogSize` | src/components/features/FurnitureCatalog.tsx:11-141 | The catalog holds thirteen items |
| `FurnitureCatalog.CatalogShowsThirteen` | src/components/features/FurnitureCatalog.tsx:11-166 | Before any search all thirteen catalog items are shown |
| `FurnitureCatalog.SearchIgnoresCase` | src/components/features/FurnitureCatalog.tsx:159-161 | Two queries that are equal after lower-casing select the same items |
| `FurnitureCatalog.LowerCasedQuery` | src/components/features/FurnitureCatalog.tsx:159-161 | A query and its lower-cased form select the same items |
| `FurnitureCatalog.NoOtherCategory` | src/components/features/FurnitureCatalog.tsx:162-163 | When a named category is active, groups of other categories contribute nothing |
| `FurnitureCatalog.TabItems` | src/components/features/FurnitureCatalog.tsx:222-225 | A tab shows a subsequence of its category's items: exactly those whose name contains the query, ignoring case |
| `FurnitureCatalog.CategoryFilterIsTab` | src/components/features/FurnitureCatalog.tsx:222-225 | If category names are distinct, filtering by a category's name shows exactly that category's tab: its items whose names match, in order |
| `FurnitureCatalog.CatalogTabs` | src/components/features/FurnitureCatalog.tsx:215-225 | In the shipped catalog, each category's tab equals the main filter with that category active |
| `FurnitureCatalog.Instantiate` | src/components/features/FurnitureCatalog.tsx:168-176 | The placed item copies every template field, including the id. It sits unrotated at x = z = 0, with y = height/2, so its bottom is on the floor |
| `Gallery.Search` | src/pages/GalleryPage.tsx:84-91 | The result is a subsequence of the gallery. It holds only entries whose title, description or some tag contains the query (ignoring case), and every such entry |
| `Gallery.HandleSearch` | src/pages/GalleryPage.tsx:82-93 | The shown entries are a subsequence of the six fixed entries: exactly those that match the query, whatever was searched before |
| `Gallery.EmptyQueryKeepsAll` | src/pages/GalleryPage.tsx:84-91 | The empty query keeps every entry |
| `Gallery.EmptySearchShowsSix` | src/pages/GalleryPage.tsx:80-93 | Searching for the empty query gives the page's initial list, all six entries |
| `Gallery.SearchIgnoresCase` | src/pages/GalleryPage.tsx:86-89 | Two queries that are equal after lower-casing select the same entries |
| `Gallery.LowerCasedQuery` | src/pages/GalleryPage.tsx:86-89 | A query and its lower-cased form select the same entries |
| `Gallery.SearchIdempotent` | src/pages/GalleryPage.tsx:84-92 | A law of the filter: searching a search result again with the same query changes nothing. The page itself always searches the full list |
| `Toasts.DropIndex` | src/hooks/use-toast.ts:22-24 | An in-range index removes exactly that element and keeps the rest in order; any other index leaves the list unchanged |
| `Toasts.WithoutToast` | src/hooks/use-toast.ts:17-19 | After expiry the props are gone; the result is a subsequence of the list and keeps every other toast |
| `Toasts.WithoutToastCount` | src/hooks/use-toast.ts:17-19 | Expiry removes every occurrence of the props and keeps the exact count of every other toast |
| `Toasts.ExpireUndoesToast` | src/hooks/use-toast.ts:13-20 | If a toast was not already on the list, showing it and letting it expire gives back the list as it was before |
| `Toasts.ToastProps.constructor` | src/hooks/use-toast.ts:3-8 | The props record holds the given title, description and variant |
| `Toasts.ToastList.constructor` | src/hooks/use-toast.ts:11 | The toast list starts empty |
| `Toasts.ToastList.Toast` | src/hooks/use-toast.ts:13-14 | Appends the props after the existing toasts |
| `Toasts.ToastList.Dismiss` | src/hooks/use-toast.ts:22-24 | The list becomes `DropIndex` of the old list |
| `Toasts.ToastList.Expire` | src/hooks/use-toast.ts:17-19 | The list becomes `WithoutToast` of the old list |
| `DesignPage.AddTemplateTwice` | src/hooks/useRoomDesign.ts:40-59 | Adding one catalog template twice places two items with the template's id, and removing that id then removes both |
| `DesignPage.TwoSofasShareAnId` | src/components/features/FurnitureCatalog.tsx:15-21 | Two "Modern Sofa"s added to an empty room both carry the id "sofa-1" |
| `Text.Lower` | src/components/features/FurnitureCatalog.tsx:159-161 | Lower-casing keeps the length, maps each character separately, and leaves no upper-case ASCII letter |
| `Text.LowerIdempotent` | src/components/features/FurnitureCatalog.tsx:159-161 | Lower-casing twice is lower-casing once |
| `Text.ContainsAtOffset` | src/components/features/FurnitureCatalog.tsx:159-161 | `includes` holds exactly when the needle occurs at some offset of the haystack |
| `Text.ContainsEmpty` | src/pages/GalleryPage.tsx:86 | Every string includes the empty string |
| `Seqs.Filter` | src/pages/GalleryPage.tsx:84 | The filtered list is no longer than the input, holds only kept elements of the input, and holds every kept element |
| `Seqs.FilterIsSubsequence` | src/pages/GalleryPage.tsx:84 | Filtering keeps the input order |
| `Seqs.FilterCount` | src/hooks/use-toast.ts:18 | Filtering keeps every copy of a kept value and no copy of a dropped one |

## Left out

- 3D rendering, pointer dragging, the `[-5, 5]` clamp and the quarter-turn rotate button in `src/components/features/RoomScene.tsx`. These are UI code and float math over three.js objects.
- The page wiring in `src/pages/DesignPage.tsx`: sliders, numeric inputs and cosmetic toasts. Only the catalog-to-store connection is stated (`DesignPage.AddTemplateTwice`).
- `roomDimensions` and `setRoomDimensions` (src/hooks/useRoomDesign.ts:17-21). The setter is a plain record replace with no checks. The recommendation functions take width and length as parameters instead.
- `RoomDesign.AddStep`: `uuidv4` is a foreign call. It becomes the caller-supplied `freshId`, which must be non-empty. The model does not promise that the id is new. `RoomDesign.AddStepGeneratesNewId` states uniqueness under the hypothesis that the caller's id is new to the room, which `uuidv4` provides only with high probability.
- The `setTimeout` delays, the `isGenerating` flag, and React's batching and stale closures. Each call is one discrete transition, and a toast's timer firing is the explicit `Expire` call.
- Floating point. Coordinates, rotations and sizes are `real`. `-Math.PI / 4` is written as the decimal -0.7853981633974483, and no rounding is modelled.
- The network client `src/services/apiService.ts`, and `src/components/layout/MainLayout.tsx` and `src/pages/HomePage.tsx`, which hold markup only.
- The toast's `action` field, which is a React node.
- The search-box and tab state cells of the catalog and the gallery. The query and the active tab are parameters.
- `Text.Lower`: models `toLowerCase` on ASCII letters only, not on the full Unicode case mapping.
- `RoomDesign.RoomDesignStore.CanUndo` and `CanRedo` carry no contract of their own. They are the predicates `HasPast` and `HasFuture` of the state, which the transition contracts use and `RoomDesign.UndoRedoAvailability` characterises.
