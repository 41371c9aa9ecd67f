/** The styling helpers every report table uses: `evaluate_change`, which picks a
    colour for a fractional change, and `row_color`, which stripes rows.  The
    HTML text itself is not modelled: a cell is the value it shows and the
    colour band it is drawn in. */
module Style {
  import opened Common
  import opened Ledger

  /** The colours of `evaluate_change`, coolest to hottest; `Neutral` is the
      uncoloured cell. */
  datatype Band = Navy | Blue | DodgerBlue | DeepSkyBlue | Neutral | Orange | DarkOrange | OrangeRed | Red

  function Rank(b: Band): int {
    match b
    case Navy => 0
    case Blue => 1
    case DodgerBlue => 2
    case DeepSkyBlue => 3
    case Neutral => 4
    case Orange => 5
    case DarkOrange => 6
    case OrangeRed => 7
    case Red => 8
  }

  /** The if-chain of `evaluate_change` on a number.  Its final `else` (plain
      style) is unreachable for real numbers. */
  function BandOf(v: real): (b: Band)
    ensures b == Neutral <==> -0.02 <= v <= 0.02
    ensures Rank(b) < Rank(Neutral) <==> v < -0.02
    ensures Rank(b) > Rank(Neutral) <==> v > 0.02
  {
    if v < -0.15 then Navy
    else if -0.15 <= v < -0.10 then Blue
    else if -0.10 <= v < -0.05 then DodgerBlue
    else if -0.05 <= v < -0.02 then DeepSkyBlue
    else if -0.02 <= v <= 0.02 then Neutral
    else if 0.02 < v <= 0.05 then Orange
    else if 0.05 < v <= 0.10 then DarkOrange
    else if 0.10 < v <= 0.15 then OrangeRed
    else if v > 0.15 then Red
    else Neutral
  }

  /** A larger change never gets a cooler colour. */
  lemma BandMonotone(v: real, w: real)
    requires v <= w
    ensures Rank(BandOf(v)) <= Rank(BandOf(w))
  {
  }

  /** A delta cell: blank (`&nbsp;`) or a change drawn in its band. */
  datatype DeltaCell = Blank | Colored(band: Band, value: real)

  /** `evaluate_change(value)` of the daily draft, which is only ever given a
      number: the change drawn in its band. */
  function Evaluate(v: real): DeltaCell {
    Colored(BandOf(v), v)
  }

  /** `evaluate_change(value)` of the monthly drafts: `None` gives a blank cell. */
  function EvaluateChange(value: Option<real>): (c: DeltaCell)
    ensures c.Blank? <==> value.None?
    ensures c.Colored? ==> c.value == value.value && c.band == BandOf(value.value)
  {
    match value
    case None => Blank
    case Some(v) => Evaluate(v)
  }

  /** The value a `'percentDelta'` field reads as, `.get('percentDelta', None)`. */
  function PercentValue(p: PercentDelta): Option<real> {
    match p
    case Change(v) => Some(v)
    case _ => None
  }

  /** The cell for a stored or computed change: blank unless it is a number. */
  function DeltaCellOf(p: PercentDelta): DeltaCell {
    EvaluateChange(PercentValue(p))
  }

  /** Row backgrounds; `Linen` (italic) is the daily breakdown's `Refund` and
      `Tax` rows. */
  datatype RowStyle = WhiteSmoke | Plain | Linen

  /** `row_color(i_row)`: even rows WhiteSmoke, odd rows plain. */
  function RowColor(i: nat): (s: RowStyle)
    ensures s != Linen
  {
    if i % 2 == 0 then WhiteSmoke else Plain
  }

  /** Consecutive rows never share a background. */
  lemma StripesAlternate(i: nat)
    ensures RowColor(i) != RowColor(i + 1)
  {
  }
}
