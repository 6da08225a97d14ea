/**
 * The static freezer configuration table: thirteen freezers, the first one a
 * box ("Caixas") freezer laid out 8 x 3, the other twelve pot ("Potes")
 * freezers laid out 6 x 4.  Every freezer has the same number of slots.
 */
module FreezerConfig {

  const FREEZER_COUNT: nat := 13
  const SLOTS_PER_FREEZER: nat := 24

  /** The container type a freezer is accounted under. */
  datatype ContainerType = Caixas | Potes

  datatype Config = Config(id: nat, name: string, kind: ContainerType, cols: nat, rows: nat)

  /** The label the type carries in the freezer selector. */
  function TypeName(t: ContainerType): string {
    match t
    case Caixas => "Caixas"
    case Potes => "Potes"
  }

  /** The text of the selector option for one freezer: "<name> (<type>)". */
  function OptionLabel(c: Config): string {
    c.name + " (" + TypeName(c.kind) + ")"
  }

  /** Entry `i` of the table, as built by the table's element mapping. */
  function Entry(i: nat): Config
    requires i < FREEZER_COUNT
  {
    Config(
      i,
      "Freezer " + DecimalString(i + 1),
      if i == 0 then Caixas else Potes,
      if i == 0 then 8 else 6,
      if i == 0 then 3 else 4)
  }

  /** The whole table, one entry per freezer. */
  function Table(): (t: seq<Config>)
    ensures |t| == FREEZER_COUNT
  {
    seq(FREEZER_COUNT, i requires 0 <= i < FREEZER_COUNT => Entry(i))
  }

  /**
   * Every entry is identified by its own index, its grid shape holds exactly
   * one freezer's worth of slots, and only the first entry is a box freezer.
   */
  lemma TableEntries()
    ensures forall i :: 0 <= i < |Table()| ==> Table()[i].id == i
    ensures forall i :: 0 <= i < |Table()| ==> Table()[i].cols * Table()[i].rows == SLOTS_PER_FREEZER
    ensures forall i :: 0 <= i < |Table()| ==> (Table()[i].kind == Caixas <==> i == 0)
    ensures forall i :: 0 <= i < |Table()| ==> Table()[i].name == "Freezer " + DecimalString(i + 1)
  {
  }

  /** The first two selector options read "Freezer 1 (Caixas)" and "Freezer 2 (Potes)". */
  lemma FirstOptionLabels()
    ensures OptionLabel(Table()[0]) == "Freezer 1 (Caixas)"
    ensures OptionLabel(Table()[1]) == "Freezer 2 (Potes)"
  {
  }

  /**
   * A sanity property of the rendered names: no two freezers share one.  The
   * selector keys its options by id, so nothing depends on it.
   */
  lemma NamesDistinct(i: nat, j: nat)
    requires i < FREEZER_COUNT && j < FREEZER_COUNT && i != j
    ensures Table()[i].name != Table()[j].name
  {
    var prefix := "Freezer ";
    var a, b := DecimalString(i + 1), DecimalString(j + 1);
    if prefix + a == prefix + b {
      assert (prefix + a)[|prefix|..] == a;
      assert (prefix + b)[|prefix|..] == b;
      DecimalRoundTrip(i + 1);
      DecimalRoundTrip(j + 1);
    }
  }

  // Decimal rendering of a natural number, as a template literal prints it.

  predicate IsDigit(c: char) {
    '0' <= c <= '9'
  }

  function DigitChar(d: nat): (c: char)
    requires d < 10
    ensures IsDigit(c)
  {
    (48 + d) as char
  }

  function DigitValue(c: char): (d: nat)
    requires IsDigit(c)
    ensures d < 10
  {
    c as int - 48
  }

  /** The decimal digits of `n`, most significant first, without leading zeros. */
  function DecimalString(n: nat): (s: string)
    ensures 1 <= |s|
    ensures forall k :: 0 <= k < |s| ==> IsDigit(s[k])
    ensures |s| > 1 ==> s[0] != '0'
    decreases n
  {
    if n < 10 then [DigitChar(n)] else DecimalString(n / 10) + [DigitChar(n % 10)]
  }

  /** The number a string of decimal digits denotes. */
  function DecimalValue(s: string): nat
    requires forall k :: 0 <= k < |s| ==> IsDigit(s[k])
  {
    if s == [] then 0 else 10 * DecimalValue(s[..|s| - 1]) + DigitValue(s[|s| - 1])
  }

  /** Reading back the rendered digits gives the number again. */
  lemma {:induction false} DecimalRoundTrip(n: nat)
    ensures DecimalValue(DecimalString(n)) == n
  {
    var s := DecimalString(n);
    if n < 10 {
      assert s[..0] == [];
    } else {
      assert s[..|s| - 1] == DecimalString(n / 10);
      DecimalRoundTrip(n / 10);
    }
  }
}
