# Freezer manager: the slot store and its statistics

This project models the state logic of the freezer inventory screen. There are
thirteen freezers. Freezer 0 holds boxes ("Caixas") in an 8 x 3 grid. Freezers
1 to 12 hold pots ("Potes") in 6 x 4 grids. Every freezer has 24 slots, and
each slot is either full or empty.

The screen keeps three things:

- the slot store, one boolean grid per freezer;
- the index of the freezer on screen;
- the copy of the store kept in local storage.

The user picks a freezer, taps slots to flip them, and clears the freezer on
screen after a confirmation. Under the grid the screen shows four totals: full
and empty pots, and full and empty boxes.

Modules:

- `FreezerConfig` (`config.dfy`): the configuration table. It also renders the
  freezer names ("Freezer 1" ...) in decimal and reads them back.
- `SlotGrid` (`grid.dfy`): the store as a value. It holds the default store
  and the copy-on-write updates: flip one slot, clear one freezer.
- `Statistics` (`stats.dfy`): the statistics fold `Tally`, one freezer at a
  time in index order. The lemmas state what the four totals count, how
  toggling and clearing move them, and the fixed sums 288 and 24.
- `AppState` (`app.dfy`): the class `App`. Its fields are the store, the
  selected freezer and the stored copy. Its methods are the user actions, and
  `GetStats` is the counting loop. A few client methods replay the scenarios
  from the component's tests.

The confirmation dialog is a boolean parameter. Local storage is a field that
holds the parsed store. The effect that writes the store back after every
change is `Persist`.

The code knows two freezer types, 'Caixas' and 'Potes'. It loads the saved
store without checking its shape (src/App.jsx:18-19). The `App` constructor
therefore takes whatever was saved. Its invariant `Valid()` then holds exactly
when the saved value is absent or has the right shape.

## Model

| member | source | states |
|---|---|---|
| `FreezerConfig.Table` | src/App.jsx:4-13 | The configuration table has exactly 13 entries |
| `FreezerConfig.TableEntries` | src/App.jsx:7-13 | Entry i has id i and is named "Freezer i+1". Its cols x rows is 24. Its type is Caixas exactly when i is 0, and Potes otherwise |
| `FreezerConfig.FirstOptionLabels` | src/App.jsx:83-87 | The first two selector options read "Freezer 1 (Caixas)" and "Freezer 2 (Potes)" |
| `FreezerConfig.NamesDistinct` | src/App.jsx:7-9 | A sanity property of the decimal rendering: two different freezers never share a name. The code keys options by id, not by name |
| `FreezerConfig.DecimalString` | src/App.jsx:9 | The rendered number is a non-empty string of digits with no leading zero |
| `FreezerConfig.DecimalRoundTrip` | src/App.jsx:9 | Reading back the decimal digits of the freezer number gives the number |
| `SlotGrid.EmptyGrid` | src/App.jsx:41 | The fresh grid has 24 slots, all empty |
| `SlotGrid.DefaultData` | src/App.jsx:20 | The default store has 13 grids of 24 slots, every one empty |
| `SlotGrid.Toggled` | src/App.jsx:27-31 | Flipping slot i of freezer f negates exactly that slot. Every other slot of every freezer, and every grid's length, is kept |
| `SlotGrid.Cleared` | src/App.jsx:40-42 | Clearing freezer f makes its grid 24 empty slots, whatever it held, and leaves every other freezer as it was |
| `SlotGrid.ToggleTwice` | src/App.jsx:27-31 | Flipping the same slot twice restores the original store |
| `SlotGrid.UpdatesKeepShape` | src/App.jsx:27-42 | Toggling and clearing keep the shape: 13 grids of 24 slots |
| `SlotGrid.ClearAfterToggle` | src/App.jsx:27-42 | Clearing a freezer discards any earlier toggle in it |
| `SlotGrid.ClearIdempotent` | src/App.jsx:38-44 | Clearing the same freezer a second time changes nothing |
| `Statistics.FullSlots` | src/App.jsx:53 | The filtered grid is no longer than the grid, and all its entries are full |
| `Statistics.CountFullIsOccurrences` | src/App.jsx:53-54 | The filter-and-length count equals the number of full slots. The 24 minus that count equals the number of empty slots |
| `Statistics.CountFullToggle` | src/App.jsx:27-31 | Flipping a slot moves a grid's full count by exactly one, down if the slot was full and up if it was empty |
| `Statistics.CountFullNoneFull` | src/App.jsx:53 | A grid with no full slot counts zero |
| `Statistics.TallyCountsSlots` | src/App.jsx:46-65 | On grids of 24 slots, the full and empty pot totals count the full and empty slots of the Potes-type freezers. The box totals count those of the other freezers |
| `Statistics.BoxSlotsAreFirstFreezer` | src/App.jsx:55-61 | The slots accounted as boxes are exactly freezer 0's grid |
| `Statistics.PotSlotsAreTheRest` | src/App.jsx:55-61 | The slots accounted as pots are the grids of freezers 1 onwards, in order |
| `Statistics.StatsOfStore` | src/App.jsx:46-65 | On a well-shaped store, caixasCheias and caixasVazias count the full and empty slots of freezer 0. potesCheios and potesVazios count those of freezers 1 to 12 |
| `Statistics.TotalsPerType` | src/App.jsx:52-61 | Full plus empty is 24 per freezer of a type, whatever the grids hold |
| `Statistics.StoreTotals` | src/App.jsx:46-65 | On a well-shaped store potesCheios + potesVazios = 288 and caixasCheias + caixasVazias = 24, and no total is negative |
| `Statistics.TallyReplace` | src/App.jsx:52-61 | Replacing one freezer's grid changes only its type's totals, by the change in its full count. The other type's totals are unchanged |
| `Statistics.ToggleStats` | src/App.jsx:27-65 | A toggle moves one slot between full and empty. The change is in the box totals for freezer 0 and in the pot totals otherwise |
| `Statistics.ClearStats` | src/App.jsx:38-65 | Clearing a freezer moves all its full slots to its type's empty total. The other type's totals are unaffected |
| `Statistics.ReplaceWithNoneFull` | src/App.jsx:52-61 | Replacing a grid by one with no full slot removes that freezer's full slots from its type's full total |
| `Statistics.TallyOfEmptyFreezers` | src/App.jsx:52-61 | A store of empty freezers has no full pot and no full box |
| `Statistics.DefaultStats` | src/App.jsx:17-65 | The fresh store shows 0 full and 288 empty pots, and 0 full and 24 empty boxes |
| `Statistics.FirstToggleOnFreshStore` | src/App.jsx:17-65 | On the fresh store, one toggle in freezer 0 gives 1 full and 23 empty boxes. One toggle in any other freezer gives 1 full pot |
| `AppState.App.constructor` | src/App.jsx:16-25 | Start-up uses the saved store when there is one, else the default. Freezer 0 is on screen and storage holds the store. The invariant holds exactly when the saved value is absent or well-shaped |
| `AppState.App.CurrentConfig` | src/App.jsx:68-95 | The configuration on screen is the selected freezer's, and its cols x rows covers that freezer's grid |
| `AppState.App.Persist` | src/App.jsx:23-25 | Storage holds the current store. Store and selection are unchanged |
| `AppState.App.ToggleSlot` | src/App.jsx:27-36 | The new store is the old one with slot `index` of the freezer on screen flipped. Selection and invariant are kept, and storage follows |
| `AppState.App.PressSlotButton` | src/App.jsx:96-102 | The button numbered n toggles slot n-1 of the freezer on screen |
| `AppState.App.ClearCurrent` | src/App.jsx:38-44 | When confirmed, the freezer on screen is cleared and storage follows. When declined, nothing changes |
| `AppState.App.SelectFreezer` | src/App.jsx:78-81 | Only the selection changes. The store and storage are untouched |
| `AppState.App.GetStats` | src/App.jsx:46-65 | The accumulator loop returns exactly the fold `Tally` of the store |
| `AppState.FillThenClearSession` | src/App.test.jsx:59-70 | Fill slot 1 of freezer 0, then clear it with confirmation. The totals go from (0, 288, 1, 23) back to (0, 288, 0, 24) |
| `AppState.SelectThenFillSession` | src/App.test.jsx:72-87 | After selecting freezer 1 and filling its slot 1, one full pot is shown |
| `AppState.FillThenReadStorageSession` | src/App.test.jsx:96-108 | After filling slot 5 of freezer 0, storage holds a store whose slot index 4 of freezer 0 is full |
| `AppState.ReloadSession` | src/App.jsx:17-25 | An application started from what another one stored holds the same store. Storage holds the parsed store, so this does not show that serialisation round-trips |

## Left out

- Rendering: the JSX markup, CSS classes and the stats layout are not
  modelled. They decide what is shown, not what is stored. The rendering facts
  kept are the option labels, the button number, and the grid layout of the
  freezer on screen. That layout is the cols x rows that feed the grid's CSS
  variables, and `CurrentConfig` states that it covers the freezer's slots.
- Serialisation: `JSON.stringify` and `JSON.parse` are not modelled. Storage is
  modelled as holding the parsed store. A stored string that does not parse,
  or that parses to something other than a list of boolean lists, is outside
  the model.
- AppState.App.constructor: a saved store of the wrong shape is accepted, as
  in the code. But every user action requires the invariant, so what the code
  would do on such a store is not modelled. In JavaScript, writes past the end
  of an array extend it, and missing grids read as undefined.
- Out-of-range indices: a slot index outside 0..23 and a freezer index
  outside 0..12 are excluded by preconditions. The screen only produces
  indices in range.
- The haptic pulse (`navigator.vibrate`) after a toggle is a platform side
  effect and is left out.
- `window.confirm` is not modelled. Its answer is the `confirmed` parameter of
  `ClearCurrent`.
- React scheduling: state updates, re-rendering and the effect run are
  modelled as happening at once, in the order the handlers request them.
- `Number(e.target.value)` in the selector handler is not modelled. The option
  values are the configuration ids, which are the indices 0..12.
