/** The default palette and number formatting of src/utils/mod.rs. */
module Utils {
  import opened Numeric
  import opened Drawing

  /** Seven colours, pure blue first. */
  function DefaultColors(): (r: seq<string>)
    ensures |r| == 7
    ensures r[0] == "#0000FF"
  {
    ["#0000FF", "#FFB3B3", "#B3E0FF", "#FFE6B3", "#B3FFB3", "#E6B3FF", "#FFD9B3"]
  }

  /** The default colour at any index, cycling through the seven entries. */
  function DefaultColor(i: nat): (r: string)
    ensures r in DefaultColors()
    ensures i < 7 ==> r == DefaultColors()[i]
    ensures r == DefaultColor(i % 7)
  {
    DefaultColors()[i % 7]
  }

  /** Decimal places `format_number` prints: none for an integral value, one otherwise. */
  function FormatDecimals(x: real): (d: nat)
    ensures d == 0 <==> IsIntegral(x)
    ensures d <= 1
  {
    if x.Floor as real == x then 0 else 1
  }

  /** `format_number`. */
  function FormatNumber(x: real): Content {
    Num(x, FormatDecimals(x))
  }

  /** A rounded value always prints without decimals. */
  lemma RoundedPrintsWhole(x: real)
    ensures FormatDecimals(Round(x) as real) == 0
  {
    assert (Round(x) as real).Floor == Round(x);
  }
}
