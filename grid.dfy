/**
 * The slot store as values: one boolean grid per freezer (true = full), and
 * the copy-on-write updates the application applies to it.
 */
module SlotGrid {
  import opened FreezerConfig

  /** The store has one grid per configured freezer and every grid one entry per slot. */
  predicate Shaped(data: seq<seq<bool>>) {
    |data| == FREEZER_COUNT && forall f :: 0 <= f < |data| ==> |data[f]| == SLOTS_PER_FREEZER
  }

  /** A grid with every slot empty. */
  function EmptyGrid(): (g: seq<bool>)
    ensures |g| == SLOTS_PER_FREEZER
    ensures forall j :: 0 <= j < |g| ==> !g[j]
  {
    seq(SLOTS_PER_FREEZER, _ => false)
  }

  /** The store used when nothing was saved: every freezer empty. */
  function DefaultData(): (d: seq<seq<bool>>)
    ensures Shaped(d)
    ensures forall f :: 0 <= f < |d| ==> d[f] == EmptyGrid()
  {
    seq(FREEZER_COUNT, _ => EmptyGrid())
  }

  /**
   * The store after flipping slot `i` of freezer `f`: exactly that slot
   * changes, every other slot of every freezer keeps its state.
   */
  function Toggled(data: seq<seq<bool>>, f: nat, i: nat): (d: seq<seq<bool>>)
    requires f < |data| && i < |data[f]|
    ensures |d| == |data|
    ensures forall g :: 0 <= g < |d| ==> |d[g]| == |data[g]|
    ensures d[f][i] == !data[f][i]
    ensures forall g, j :: 0 <= g < |d| && 0 <= j < |d[g]| && (g, j) != (f, i) ==> d[g][j] == data[g][j]
  {
    data[f := data[f][i := !data[f][i]]]
  }

  /**
   * The store after clearing freezer `f`: that freezer is empty, whatever it
   * held, and every other freezer is untouched.
   */
  function Cleared(data: seq<seq<bool>>, f: nat): (d: seq<seq<bool>>)
    requires f < |data|
    ensures |d| == |data|
    ensures |d[f]| == SLOTS_PER_FREEZER && forall j :: 0 <= j < |d[f]| ==> !d[f][j]
    ensures forall g :: 0 <= g < |d| && g != f ==> d[g] == data[g]
  {
    data[f := EmptyGrid()]
  }

  /** Flipping the same slot twice gives back the store it started from. */
  lemma ToggleTwice(data: seq<seq<bool>>, f: nat, i: nat)
    requires f < |data| && i < |data[f]|
    ensures Toggled(Toggled(data, f, i), f, i) == data
  {
    var once := Toggled(data, f, i);
    var twice := Toggled(once, f, i);
    assert twice[f] == data[f];
  }

  /** Toggling and clearing keep the store's shape. */
  lemma UpdatesKeepShape(data: seq<seq<bool>>, f: nat, i: nat)
    requires Shaped(data) && f < FREEZER_COUNT && i < SLOTS_PER_FREEZER
    ensures Shaped(Toggled(data, f, i))
    ensures Shaped(Cleared(data, f))
  {
  }

  /** Clearing a freezer discards any toggles made in it before. */
  lemma ClearAfterToggle(data: seq<seq<bool>>, f: nat, i: nat)
    requires f < |data| && i < |data[f]|
    ensures Cleared(Toggled(data, f, i), f) == Cleared(data, f)
  {
  }

  /** Clearing the same freezer again changes nothing. */
  lemma ClearIdempotent(data: seq<seq<bool>>, f: nat)
    requires f < |data|
    ensures Cleared(Cleared(data, f), f) == Cleared(data, f)
  {
  }
}
