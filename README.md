# Portrait Stats — a Dafny model of the crew-portrait overlay

Portrait Stats is a Kerbal Space Program add-on. It draws a trait icon over each visible crew portrait in the flight view: pilot, engineer, scientist, tourist or any other. In career games, or when experience tooltips are enabled, it also draws an experience-level bar. When the matching tooltip setting is on and the mouse rests on an icon, the add-on shows a tooltip. This project models the add-on's bookkeeping and proves properties about it:

- **Traits** (`kerbal_trait.dfy`, from `Source/KerbalTrait.cs`). This is the per-kerbal descriptor. It holds the atlas cell of the trait icon, the tint of that icon and the level-strip cell of the experience level. Atlas coordinates are texture coordinates. Every literal in the source is a multiple of 1/128, so rectangles are stored exactly, as integers in 1/128 units. A lemma ties them back to the source's literals as reals.
- **Portraits** (`portrait_hook.dfy`, from `Source/PortraitHook.cs`). This is the registry of live portraits. It is a list without duplicates and without null: `AddUnique` on insert, `List.Remove` (the first occurrence) on removal. It also covers the start-up pass that attaches at most one tracker to the portrait prefab and to every existing portrait.
- **Stats** (`portrait_stats.dfy`, from `Source/PortraitStats.cs`). This is the overlay component, modelled as a class with the component's fields. It has these parts:
  - `currentCrew` maps crew name to descriptor. It is built once per name and never replaced.
  - `activeCrew` holds the descriptors of the at most three visible portraits.
  - The `reload` flag is raised by start-up, by vessel events and by the ten-second clock test.
  - `index` stores the host's first visible position.
  - There is tooltip state: the target entry and the time the target was last changed.

  The per-frame pass `LateUpdate` adds descriptors for new crew when a reload is pending. It rebuilds the window whenever the host's start index changed, and after every reload pass (which sets `index` to int.MaxValue) unless the start index is int.MaxValue itself. Window position `startIndex + 2` uses 32-bit wrap-around, as unchecked C# arithmetic does. The label pass `DrawLabels` runs for each window entry in turn. It maps each entry to its display slot, since the host orders crews of two and three differently, and performs the hover tests. The model proves which entry the tooltip ends on and when the tooltip timer restarts.

Everything the host supplies is passed in as a parameter:

- whether flight is ready;
- the host's crew list (`KerbalGUIManager.ActiveCrew`);
- the first visible index (`manager.startIndex`);
- the camera mode;
- the clock;
- whether the mouse is over each display slot's trait icon and experience bar.

The cache only grows (`Observe`). The code has no pruning of departed crew, no clearing of the cache and no reload delay: `reload` is a plain flag consumed by the next `LateUpdate`. A crew of two swaps display slots 0 and 1, a crew of three swaps slots 1 and 2, and any other crew size uses the identity (`DisplaySlot`, `PortraitStats.cs:183-195`).

The default trait cell reaches 2/128 past the right edge of the atlas and overlaps the Tourist cell: by one unit of columns and by 24 units of rows (`GenericCellPastAtlasEdge`). The model states this fact and does not alter it.

## Model

| member | source | states |
|---|---|---|
| Traits.CrewType | Source/KerbalTrait.cs:66-86 | Every title gets a 26×26 cell. A title is one of the four named traits exactly when its tint is not white. Named traits sit on row 100 inside the atlas. Any other title gets the generic cell at (104, 102) in white. |
| Traits.LevelRect | Source/KerbalTrait.cs:88-91 | A level cell sits on row 0, is 21 units wide and spans the 98-unit strip. |
| Traits.NewKerbalTrait | Source/KerbalTrait.cs:39-64 | The descriptor keeps the crew record. Its trait cell and its tint come from the same `crewType` case of the trait title. Its level cell is the cell of the experience level. |
| Traits.CellsMatchAtlasLiterals | Source/KerbalTrait.cs:66-91 | The integer cells, scaled by 1/128, are exactly the source's texture-coordinate literals, including `i*0.171875 - i*0.0078125` for levels. |
| Traits.NamedTraitsDistinct | Source/KerbalTrait.cs:68-81 | Two different named traits get different cells and different tints. |
| Traits.NamedCellsDisjoint | Source/KerbalTrait.cs:68-81 | The cells of two different named traits do not overlap. |
| Traits.GenericCellPastAtlasEdge | Source/KerbalTrait.cs:82-84 | The generic cell ends 2 units past the atlas edge and overlaps the Tourist cell by one column and by 24 rows. |
| Traits.ColorDeterminesCell | Source/KerbalTrait.cs:68-85 | Two titles with the same tint have the same cell. |
| Traits.LevelCellsAbut | Source/KerbalTrait.cs:88-91 | The cell of level n ends where the cell of level n+1 starts. |
| Traits.LevelRoundTrip | Source/KerbalTrait.cs:88-91 | The level is recovered from its cell's left edge, so distinct levels have distinct cells. |
| Portraits.AddUnique | Source/PortraitHook.cs:62 | The element ends up in the list. The old list is a prefix of the new one, and at most one element is added. Nothing else is added. A present element changes nothing, and no duplicates are introduced. |
| Portraits.RemoveFirst | Source/PortraitHook.cs:67 | An absent element changes nothing. A present element shortens the list by exactly one. |
| Portraits.RemoveFirstKeepsOrder | Source/PortraitHook.cs:67 | Removing a present element cuts out exactly its first occurrence and keeps the order of the rest. |
| Portraits.RemoveFirstCount | Source/PortraitHook.cs:67 | Removal takes one copy of the element out of the multiset of the list. |
| Portraits.RemoveFirstUnique | Source/PortraitHook.cs:65-68 | On a list without duplicates, removal leaves no duplicates and no copy of the element. |
| Portraits.AddThenRemove | Source/PortraitHook.cs:58-68 | Adding an absent portrait and then removing it gives back the original list. |
| Portraits.PortraitHook.constructor | Source/PortraitHook.cs:12 | The registry starts empty and valid: no null and no duplicates. |
| Portraits.PortraitHook.AddPortrait | Source/PortraitHook.cs:58-63 | A null portrait changes nothing. Otherwise the list becomes `AddUnique` of the old list. Validity is kept. |
| Portraits.PortraitHook.RemovePortrait | Source/PortraitHook.cs:65-68 | The list becomes the old list minus the first occurrence of the portrait, and the portrait is no longer registered. Validity is kept. |
| Portraits.AddTracker | Source/PortraitHook.cs:50-55 | A portrait without a tracker gets exactly one. A portrait that has a tracker is left unchanged. |
| Portraits.AttachTrackers | Source/PortraitHook.cs:34-47 | The prefab and every gallery portrait end with a tracker. None that had at most one ends with more, even when listed twice. Existing trackers are untouched. |
| Stats.Wrap32 | Source/PortraitStats.cs:141 | The result is a 32-bit int congruent to the input modulo 2^32. It is the input itself when the input is in range. |
| Stats.Observe | Source/PortraitStats.cs:116-124 | After a reload pass, the cache's keys are the old keys plus the crew's names. Every existing entry keeps its descriptor. |
| Stats.ObserveInsertsFirst | Source/PortraitStats.cs:118-124 | A name missing before the pass gets the descriptor built from its first occurrence in the crew list. |
| Stats.ObserveKeepsValues | Source/PortraitStats.cs:116-124 | Every old descriptor is still in the cache. |
| Stats.ObserveAllCached | Source/PortraitStats.cs:118-124 | A reload pass over crew whose names are all cached changes nothing. |
| Stats.ObserveIdempotent | Source/PortraitStats.cs:116-124 | A second reload pass over the same crew changes nothing. |
| Stats.ObserveSnoc | Source/PortraitStats.cs:118-124 | A pass over a crew list with one more kerbal is one more loop step. |
| Stats.ObserveConcat | Source/PortraitStats.cs:116-124 | A pass over two crew lists is the pass over the first followed by the pass over the second. |
| Stats.KeptSound | Source/PortraitStats.cs:141-152 | The kept positions are at most hi-lo+1. They lie within the scanned range, are cached, and are strictly descending. |
| Stats.KeptComplete | Source/PortraitStats.cs:141-152 | Every cached position within the scanned range is kept. |
| Stats.CollectIsKept | Source/PortraitStats.cs:141-152 | The collected entries correspond one to one with the kept positions. Each is the cached descriptor of the crew name at that position. |
| Stats.WindowSpec | Source/PortraitStats.cs:135-153 | The window holds at most three descriptors. They are the cached ones for positions startIndex+2 down to startIndex, in descending order, skipping positions past the crew and names not in the cache, and none is missed. When `startIndex + 2` overflows, the window is empty. |
| Stats.WindowFromCache | Source/PortraitStats.cs:146-150 | Every window entry is a descriptor held in the cache. |
| Stats.ThreeCrewWindow | Source/PortraitStats.cs:141-152 | For a cached crew of three at start index 0, the window lists them last to first. |
| Stats.DisplaySlot | Source/PortraitStats.cs:183-195 | A crew size other than 2 or 3 draws entry i in slot i. |
| Stats.DisplaySlotPermutes | Source/PortraitStats.cs:183-195 | On the positions a window can hold, the slot order stays in range and is its own inverse, so it is a permutation. |
| Stats.HoverPassSpec | Source/PortraitStats.cs:201-236 | Start a label pass with no hovers. At the end, a trait tooltip is flagged exactly when some trait icon is hit. A tooltip is flagged exactly when some trait or experience icon is hit. The target is the last entry whose trait is hit, or else the first entry whose bar is hit, or else the old target. A flagged tooltip targets an entry in the window. |
| Stats.HoverPassTimer | Source/PortraitStats.cs:201-236 | The timer is either unchanged or set to now. It is now whenever the target changed. A pass that flags nothing changes neither target nor timer. |
| Stats.PortraitStats.constructor | Source/PortraitStats.cs:37-55 | The component starts with an empty cache and window, no reload, index 0, tooltip target -1 and the two tooltip settings. |
| Stats.PortraitStats.Start | Source/PortraitStats.cs:57-92 | Start-up records whether the game is a career game and requests a reload. |
| Stats.PortraitStats.VesselCheck | Source/PortraitStats.cs:269-272 | A vessel event requests a reload. |
| Stats.PortraitStats.Update | Source/PortraitStats.cs:102-106 | A reload is requested when the whole-second clock is a multiple of ten. Otherwise the flag is unchanged. |
| Stats.PortraitStats.LateUpdate | Source/PortraitStats.cs:108-154 | Nothing changes unless flight is ready and crew is listed. Otherwise a pending reload runs `Observe` and is cleared, and `index` becomes the start index. The window is rebuilt as `Window` when the start index differs from the stored index (any start index except int.MaxValue after a reload). Otherwise it is kept. Every window entry stays in the cache. |
| Stats.PortraitStats.AddNewCrew | Source/PortraitStats.cs:116-124 | The loop leaves the cache equal to `Observe` of the old cache and the crew. |
| Stats.PortraitStats.RebuildWindow | Source/PortraitStats.cs:135-153 | The loop from `index + 2` (wrapped) down to `index` leaves the window equal to `Window`. |
| Stats.PortraitStats.FocusToolTip | Source/PortraitStats.cs:205-209 | The tooltip targets entry i. Its timer restarts only when the tooltip targeted another entry. |
| Stats.PortraitStats.HoverEntry | Source/PortraitStats.cs:201-236 | One entry's hover tests update target, timer and flags as one step of the label pass. The trait test runs only when trait tooltips are on. The experience test runs only when experience tooltips are on and nothing is flagged yet. |
| Stats.PortraitStats.DrawLabels | Source/PortraitStats.cs:156-247 | Nothing happens without crew or in the map, IVA or internal view. Otherwise every window entry is assigned its display slot, and the final target, timer and flags satisfy `HoverPassSpec` and `HoverPassTimer`. |

## Left out

- Drawing (`drawTexture`, `GUI.color`, the black outline, screen offsets and `screenPos`) is not modelled. Only the slot each entry is drawn in is. These are rendering calls with no state the overlay reads back.
- The mouse test `Rect.Contains` is given as two predicates over display slots: one for trait icons and one for experience bars. Screen geometry and floating point are not modelled.
- `DrawToolTip` (`PortraitStats.cs:287` onward) is not modelled: its delay against `Time.fixedTime`, the tooltip text and its layout. The model stops at which entry the tooltip targets and whether it is a trait or an experience tooltip.
- `findKerbalGUIManager` uses reflection on the host. A missing manager makes `Start` destroy the component. This is not modelled: the manager is assumed present, and its start index is a parameter.
- Event subscription, `OnDestroy` and the post-draw queue are host lifecycle and are not modelled. `VesselCheck` models the handler itself.
- Loading the atlas and reading `traitToolTip` and `expToolTip` from the settings file happen once per process (`PortraitStats.cs:71-89`). The two settings become constructor inputs.
- `CTIWrapper.cs`, `KerbalTraitSetting.cs`, `PortraitStatsSettings.cs` and `StatsGameSettings.cs` are not part of this model. They are foreign calls into another add-on and settings plumbing.
- The `PortraitTracker` component's `Start` and `OnDestroy` (`PortraitHook.cs:14-31`) are not modelled as Unity callbacks. Apart from destroying a tracker that finds no portrait, and skipping removal of a null portrait, they only call `AddPortrait` and `RemovePortrait`, which are modelled. `Destroy(gameObject)` in `Awake` is lifecycle.
- Unity's overloaded null test on destroyed objects is not modelled. The registry compares references.
- The descriptor stores a snapshot of the crew record. The source keeps a reference to the live record, so the model does not capture later changes to it seen through `ProtoCrew`.
- Traits.LevelRect: the model does not reproduce the source's single-precision rounding of `i * 0.171875f - i * 0.0078125f`. That computation is exact whenever 21·|level| < 2^24, so for every level the host produces (0 to 5).
- Stats.PortraitStats.Update: takes the clock already truncated to whole seconds. The float-to-int cast of `Time.time` is done by the caller.
- Stats.PortraitStats.LateUpdate: requires a start index from 0 to int.MaxValue. A negative index makes the source throw when it indexes `ActiveCrew`, and the model does not represent that exception.
