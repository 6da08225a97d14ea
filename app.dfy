/**
 * The application state: the slot store, the index of the freezer on screen,
 * and the value kept in local storage.  Each user action replaces the store
 * with an updated copy; every change of the store is written back to storage.
 */
module AppState {
  import opened FreezerConfig
  import opened SlotGrid
  import opened Statistics

  datatype Option<T> = None | Some(value: T)

  class App {
    /** The slot store: one grid of full/empty flags per freezer. */
    var data: seq<seq<bool>>
    /** The freezer shown on screen. */
    var active: nat
    /** What local storage holds under the store's key, already parsed. */
    var stored: Option<seq<seq<bool>>>

    /** The store has its shape, the selection is a freezer, and storage holds the current store. */
    ghost predicate Valid()
      reads this
    {
      Shaped(data) && active < FREEZER_COUNT && stored == Some(data)
    }

    /**
     * Start-up: the saved store when there is one, else every freezer empty;
     * freezer 0 on screen; the store is then written back to storage.  The
     * saved value is taken as it is, so the invariant holds exactly when it
     * is absent or has the right shape.
     */
    constructor (saved: Option<seq<seq<bool>>>)
      ensures data == (if saved.Some? then saved.value else DefaultData())
      ensures active == 0
      ensures stored == Some(data)
      ensures Valid() <==> (saved.None? || Shaped(saved.value))
    {
      data := if saved.Some? then saved.value else DefaultData();
      active := 0;
      new;
      stored := Some(data);
    }

    /** The configuration of the freezer on screen; its grid shape covers its slots. */
    function CurrentConfig(): (c: Config)
      reads this
      requires Valid()
      ensures c.id == active
      ensures c.cols * c.rows == |data[active]|
    {
      TableEntries();
      Table()[active]
    }

    /** Writes the store to storage, as the effect that follows every change of the store does. */
    method Persist()
      modifies this
      ensures stored == Some(data)
      ensures data == old(data) && active == old(active)
    {
      stored := Some(data);
    }

    /** Flips slot `index` of the freezer on screen; nothing else in the store changes. */
    method ToggleSlot(index: nat)
      requires Valid() && index < SLOTS_PER_FREEZER
      modifies this
      ensures Valid()
      ensures active == old(active)
      ensures data == Toggled(old(data), active, index)
    {
      var newData := data;
      var grid := newData[active];
      grid := grid[index := !grid[index]];
      newData := newData[active := grid];
      data := newData;
      Persist();
    }

    /**
     * The slot button numbered `number` (numbers run from 1) toggles the slot
     * with index `number - 1`.
     */
    method PressSlotButton(number: nat)
      requires Valid() && 1 <= number <= SLOTS_PER_FREEZER
      modifies this
      ensures Valid()
      ensures active == old(active)
      ensures data == Toggled(old(data), active, number - 1)
    {
      ToggleSlot(number - 1);
    }

    /**
     * Clears the freezer on screen when the user confirms: every slot of it
     * becomes empty.  When the user declines, nothing changes.
     */
    method ClearCurrent(confirmed: bool)
      requires Valid()
      modifies this
      ensures Valid()
      ensures active == old(active)
      ensures data == if confirmed then Cleared(old(data), active) else old(data)
      ensures !confirmed ==> stored == old(stored)
    {
      if confirmed {
        var newData := data;
        newData := newData[active := EmptyGrid()];
        data := newData;
        Persist();
      }
    }

    /** Puts freezer `index` on screen; the store is not touched. */
    method SelectFreezer(index: nat)
      requires Valid() && index < FREEZER_COUNT
      modifies this
      ensures Valid()
      ensures active == index
      ensures data == old(data) && stored == old(stored)
    {
      active := index;
    }

    /**
     * The four totals shown under the grid, computed by one pass over the
     * freezers with four running counters.
     */
    method GetStats() returns (s: Stats)
      requires Valid()
      ensures s == Tally(data)
    {
      var potesCheios, potesVazios, caixasCheias, caixasVazias := 0, 0, 0, 0;
      var i := 0;
      while i < |data|
        invariant 0 <= i <= |data|
        invariant Stats(potesCheios, potesVazios, caixasCheias, caixasVazias) == Tally(data[..i])
      {
        var freezerData := data[i];
        var cheios := |FullSlots(freezerData)|;
        var vazios := SLOTS_PER_FREEZER - cheios;
        if Table()[i].kind == Potes {
          potesCheios := potesCheios + cheios;
          potesVazios := potesVazios + vazios;
        } else {
          caixasCheias := caixasCheias + cheios;
          caixasVazias := caixasVazias + vazios;
        }
        assert data[..i + 1][..i] == data[..i];
        i := i + 1;
      }
      assert data[..i] == data;
      s := Stats(potesCheios, potesVazios, caixasCheias, caixasVazias);
    }
  }

  /**
   * A session: start with nothing saved, fill slot 1 of freezer 0, then clear
   * it with confirmation.  The statistics go from one full box back to none.
   */
  method FillThenClearSession() returns (before: Stats, after: Stats)
    ensures before == Stats(0, 288, 1, 23)
    ensures after == Stats(0, 288, 0, 24)
  {
    var app := new App(None);
    app.PressSlotButton(1);
    before := app.GetStats();
    FirstToggleOnFreshStore(0, 0);
    app.ClearCurrent(true);
    after := app.GetStats();
    ClearAfterToggle(DefaultData(), 0, 0);
    assert Cleared(DefaultData(), 0) == DefaultData();
    DefaultStats();
  }

  /**
   * A session: put freezer 1 (a pot freezer) on screen and fill its slot 1;
   * the pot statistics then show one full slot.
   */
  method SelectThenFillSession() returns (s: Stats)
    ensures s.potesCheios == 1 && s.caixasCheias == 0
  {
    var app := new App(None);
    app.SelectFreezer(1);
    app.PressSlotButton(1);
    s := app.GetStats();
    FirstToggleOnFreshStore(1, 0);
  }

  /**
   * A session: fill slot 5 of freezer 0; what storage then holds has slot
   * index 4 of freezer 0 full.
   */
  method FillThenReadStorageSession() returns (saved: Option<seq<seq<bool>>>)
    ensures saved.Some? && |saved.value| == FREEZER_COUNT && |saved.value[0]| == SLOTS_PER_FREEZER
    ensures saved.value[0][4]
  {
    var app := new App(None);
    app.PressSlotButton(5);
    saved := app.stored;
  }

  /**
   * Reloading: an application started from what another one stored holds
   * the same store, on freezer 0.  Storage is modelled as holding the parsed
   * store, so this holds by construction; it does not show that the text
   * serialisation round-trips.
   */
  method ReloadSession(first: App) returns (second: App)
    requires first.Valid()
    ensures second.Valid() && second.data == first.data && second.active == 0
  {
    second := new App(first.stored);
  }
}
