/**
 * The statistics shown under the grid: full ("cheios") and empty ("vazios")
 * slot counts, totalled separately over the pot freezers and the box
 * freezers.  `Tally` is the fold the application runs over the store, one
 * freezer at a time in index order; the lemmas say what the four totals mean.
 */
module Statistics {
  import opened FreezerConfig
  import opened SlotGrid

  datatype Stats = Stats(potesCheios: int, potesVazios: int, caixasCheias: int, caixasVazias: int)

  /** The full slots of a grid, in order: the grid filtered on "is full". */
  function FullSlots(g: seq<bool>): (r: seq<bool>)
    ensures |r| <= |g|
    ensures forall k :: 0 <= k < |r| ==> r[k]
  {
    if g == [] then []
    else if g[0] then [g[0]] + FullSlots(g[1..])
    else FullSlots(g[1..])
  }

  /** How many slots of a grid are full. */
  function CountFull(g: seq<bool>): nat {
    |FullSlots(g)|
  }

  /**
   * One step of the fold: freezer `i` with grid `grid` adds its full slots and
   * the rest of its nominal 24 slots to the pot totals when the freezer is a
   * pot freezer, and to the box totals otherwise.
   */
  function Step(s: Stats, i: nat, grid: seq<bool>): Stats
    requires i < FREEZER_COUNT
  {
    var cheios := CountFull(grid);
    var vazios := SLOTS_PER_FREEZER - cheios;
    if Table()[i].kind == Potes then
      s.(potesCheios := s.potesCheios + cheios, potesVazios := s.potesVazios + vazios)
    else
      s.(caixasCheias := s.caixasCheias + cheios, caixasVazias := s.caixasVazias + vazios)
  }

  /** The statistics of the freezers in `data`, folded from the first one on. */
  function Tally(data: seq<seq<bool>>): Stats
    requires |data| <= FREEZER_COUNT
  {
    if data == [] then Stats(0, 0, 0, 0)
    else Step(Tally(data[..|data| - 1]), |data| - 1, data[|data| - 1])
  }

  /** The grids of the freezers of type `t`, laid end to end in index order. */
  function SlotsOfType(data: seq<seq<bool>>, t: ContainerType): seq<bool>
    requires |data| <= FREEZER_COUNT
  {
    if data == [] then []
    else
      var n := |data| - 1;
      SlotsOfType(data[..n], t) + (if Table()[n].kind == t then data[n] else [])
  }

  /** Counting by filtering agrees with counting occurrences, for full and for empty slots. */
  lemma {:induction false} CountFullIsOccurrences(g: seq<bool>)
    ensures CountFull(g) == multiset(g)[true]
    ensures |g| - CountFull(g) == multiset(g)[false]
  {
    if g != [] {
      CountFullIsOccurrences(g[1..]);
      assert g == [g[0]] + g[1..];
      assert multiset(g) == multiset{g[0]} + multiset(g[1..]);
    }
  }

  /** Flipping a slot moves the full count by one, up or down. */
  lemma CountFullToggle(g: seq<bool>, i: nat)
    requires i < |g|
    ensures CountFull(g[i := !g[i]]) == CountFull(g) + (if g[i] then -1 else 1)
  {
    CountFullIsOccurrences(g);
    CountFullIsOccurrences(g[i := !g[i]]);
  }

  /** A grid with no full slot counts zero full slots. */
  lemma CountFullNoneFull(g: seq<bool>)
    requires forall j :: 0 <= j < |g| ==> !g[j]
    ensures CountFull(g) == 0
  {
    CountFullIsOccurrences(g);
    assert true !in g;
  }

  /**
   * What the totals mean: on a store whose grids all have 24 slots, the pot
   * totals count the full and the empty slots of the pot freezers, and the
   * box totals those of the box freezers.
   */
  lemma {:induction false} TallyCountsSlots(data: seq<seq<bool>>)
    requires |data| <= FREEZER_COUNT
    requires forall f :: 0 <= f < |data| ==> |data[f]| == SLOTS_PER_FREEZER
    ensures Tally(data).potesCheios == multiset(SlotsOfType(data, Potes))[true]
    ensures Tally(data).potesVazios == multiset(SlotsOfType(data, Potes))[false]
    ensures Tally(data).caixasCheias == multiset(SlotsOfType(data, Caixas))[true]
    ensures Tally(data).caixasVazias == multiset(SlotsOfType(data, Caixas))[false]
  {
    if data != [] {
      var n := |data| - 1;
      TallyCountsSlots(data[..n]);
      CountFullIsOccurrences(data[n]);
    }
  }

  /** The only box freezer is freezer 0, so the box slots are exactly its grid. */
  lemma {:induction false} BoxSlotsAreFirstFreezer(data: seq<seq<bool>>)
    requires 1 <= |data| <= FREEZER_COUNT
    ensures SlotsOfType(data, Caixas) == data[0]
  {
    var n := |data| - 1;
    if n == 0 {
      assert data[..0] == [];
    } else {
      BoxSlotsAreFirstFreezer(data[..n]);
    }
  }

  /** The pot slots are the grids of freezers 1 onwards, in order. */
  lemma {:induction false} PotSlotsAreTheRest(data: seq<seq<bool>>)
    requires 1 <= |data| <= FREEZER_COUNT
    ensures SlotsOfType(data, Potes) == Concat(data[1..])
  {
    var n := |data| - 1;
    if n == 0 {
      assert data[..0] == [];
    } else {
      PotSlotsAreTheRest(data[..n]);
      assert data[1..][..n - 1] == data[..n][1..];
    }
  }

  /** Grids laid end to end. */
  function Concat(gs: seq<seq<bool>>): seq<bool> {
    if gs == [] then [] else Concat(gs[..|gs| - 1]) + gs[|gs| - 1]
  }

  /**
   * The statistics of a well-shaped store in the terms the screen shows them:
   * box counts are the full and empty slots of freezer 0, pot counts those of
   * freezers 1 to 12.
   */
  lemma StatsOfStore(data: seq<seq<bool>>)
    requires Shaped(data)
    ensures Tally(data).caixasCheias == multiset(data[0])[true]
    ensures Tally(data).caixasVazias == multiset(data[0])[false]
    ensures Tally(data).potesCheios == multiset(Concat(data[1..]))[true]
    ensures Tally(data).potesVazios == multiset(Concat(data[1..]))[false]
  {
    TallyCountsSlots(data);
    BoxSlotsAreFirstFreezer(data);
    PotSlotsAreTheRest(data);
  }

  /**
   * Every freezer contributes 24 slots to the totals of its type, full or
   * empty, whatever its grid holds: 288 pot slots and 24 box slots in all.
   */
  lemma {:induction false} TotalsPerType(data: seq<seq<bool>>)
    requires |data| <= FREEZER_COUNT
    ensures Tally(data).potesCheios + Tally(data).potesVazios
         == SLOTS_PER_FREEZER * (if data == [] then 0 else |data| - 1)
    ensures Tally(data).caixasCheias + Tally(data).caixasVazias
         == (if data == [] then 0 else SLOTS_PER_FREEZER)
  {
    if data != [] {
      TotalsPerType(data[..|data| - 1]);
    }
  }

  /** On a full store of 13 freezers the totals are 288 pot slots and 24 box slots, none negative. */
  lemma StoreTotals(data: seq<seq<bool>>)
    requires Shaped(data)
    ensures Tally(data).potesCheios + Tally(data).potesVazios == SLOTS_PER_FREEZER * 12
    ensures Tally(data).caixasCheias + Tally(data).caixasVazias == SLOTS_PER_FREEZER
    ensures 0 <= Tally(data).potesCheios && 0 <= Tally(data).potesVazios
    ensures 0 <= Tally(data).caixasCheias && 0 <= Tally(data).caixasVazias
  {
    TotalsPerType(data);
    StatsOfStore(data);
  }

  /**
   * Replacing one freezer's grid changes only the totals of that freezer's
   * type, by the difference in its full count.
   */
  lemma {:induction false} TallyReplace(data: seq<seq<bool>>, f: nat, g: seq<bool>)
    requires f < |data| <= FREEZER_COUNT
    ensures var s, t, delta := Tally(data), Tally(data[f := g]), CountFull(g) - CountFull(data[f]);
      if Table()[f].kind == Potes then
        t == s.(potesCheios := s.potesCheios + delta, potesVazios := s.potesVazios - delta)
      else
        t == s.(caixasCheias := s.caixasCheias + delta, caixasVazias := s.caixasVazias - delta)
  {
    var n := |data| - 1;
    assert data[f := g][..n] == if f == n then data[..n] else data[..n][f := g];
    if f < n {
      TallyReplace(data[..n], f, g);
    }
  }

  /** Toggling a slot moves one slot between the full and empty totals of its freezer's type. */
  lemma ToggleStats(data: seq<seq<bool>>, f: nat, i: nat)
    requires f < |data| <= FREEZER_COUNT && i < |data[f]|
    ensures var s, t, delta := Tally(data), Tally(Toggled(data, f, i)), if data[f][i] then -1 else 1;
      if f == 0 then
        t == s.(caixasCheias := s.caixasCheias + delta, caixasVazias := s.caixasVazias - delta)
      else
        t == s.(potesCheios := s.potesCheios + delta, potesVazios := s.potesVazios - delta)
  {
    TallyReplace(data, f, data[f][i := !data[f][i]]);
    CountFullToggle(data[f], i);
  }

  /**
   * Clearing a freezer moves all its full slots to the empty total of its
   * type and leaves the other type's totals alone.
   */
  lemma ClearStats(data: seq<seq<bool>>, f: nat)
    requires f < |data| <= FREEZER_COUNT
    ensures var s, t, full := Tally(data), Tally(Cleared(data, f)), CountFull(data[f]);
      if f == 0 then
        t == s.(caixasCheias := s.caixasCheias - full, caixasVazias := s.caixasVazias + full)
      else
        t == s.(potesCheios := s.potesCheios - full, potesVazios := s.potesVazios + full)
  {
    ReplaceWithNoneFull(data, f, EmptyGrid());
  }

  /** Replacing a grid by one with no full slot empties that freezer's share of the totals. */
  lemma ReplaceWithNoneFull(data: seq<seq<bool>>, f: nat, g: seq<bool>)
    requires f < |data| <= FREEZER_COUNT
    requires forall j :: 0 <= j < |g| ==> !g[j]
    ensures var s, t, full := Tally(data), Tally(data[f := g]), CountFull(data[f]);
      if f == 0 then
        t == s.(caixasCheias := s.caixasCheias - full, caixasVazias := s.caixasVazias + full)
      else
        t == s.(potesCheios := s.potesCheios - full, potesVazios := s.potesVazios + full)
  {
    TallyReplace(data, f, g);
    CountFullNoneFull(g);
  }

  /** A store of empty freezers shows no full slot. */
  lemma {:induction false} TallyOfEmptyFreezers(data: seq<seq<bool>>)
    requires |data| <= FREEZER_COUNT
    requires forall f :: 0 <= f < |data| ==> data[f] == EmptyGrid()
    ensures Tally(data).potesCheios == 0 && Tally(data).caixasCheias == 0
  {
    if data != [] {
      TallyOfEmptyFreezers(data[..|data| - 1]);
      CountFullNoneFull(data[|data| - 1]);
    }
  }

  /** The fresh store shows 0 full and 288 empty pots, 0 full and 24 empty boxes. */
  lemma DefaultStats()
    ensures Tally(DefaultData()) == Stats(0, 288, 0, 24)
  {
    TallyOfEmptyFreezers(DefaultData());
    TotalsPerType(DefaultData());
  }

  /**
   * On the fresh store, filling one slot of a pot freezer shows one full pot,
   * and filling one slot of freezer 0 shows one full and 23 empty boxes.
   */
  lemma FirstToggleOnFreshStore(f: nat, i: nat)
    requires f < FREEZER_COUNT && i < SLOTS_PER_FREEZER
    ensures Tally(Toggled(DefaultData(), f, i))
         == if f == 0 then Stats(0, 288, 1, 23) else Stats(1, 287, 0, 24)
  {
    DefaultStats();
    ToggleStats(DefaultData(), f, i);
  }
}
