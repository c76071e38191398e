/** How the table builder lays a filled configuration out as lines of the
    writer: for every item, one group of lines per band. Each band is padded
    on the left with empty values up to the width of the first band; the
    first band of the first item becomes the table header and footer; the
    other captions are repeated as header lines by a fixed rule. */
module RowLayout {
  import opened ColumnNames
  import opened Domain
  import opened PrettyTable
  import opened Tables

  /** `n` empty values. */
  function Empties(n: nat): (r: seq<CellValue>)
    ensures |r| == n && forall k :: 0 <= k < n ==> r[k] == EmptyValue
  {
    seq(n, k => EmptyValue)
  }

  /** How many empty values pad a band of `size` columns on the left. The
      column counter stops at the last index of the band and is then
      increased once, so an empty band counts as one column. */
  function PadCount(perRow: nat, size: nat): nat {
    var filled := if size == 0 then 1 else size;
    if filled < perRow then perRow - filled else 0
  }

  /** The captions of a band, in band order. */
  function Captions(band: seq<ColumnName>): (r: seq<CellValue>)
    ensures |r| == |band|
  {
    seq(|band|, k requires 0 <= k < |band| => TextValue(band[k].ToString()))
  }

  /** Every column of a band holds a value for item `item`. */
  predicate BandHasItem(cfg: TableConfig, item: nat, band: seq<ColumnName>) {
    forall c :: c in band ==> c in cfg.columns && item < |cfg.columns[c].values|
  }

  /** The values of item `item` in the columns of a band, in band order. */
  function ItemValues(cfg: TableConfig, item: nat, band: seq<ColumnName>): (r: seq<CellValue>)
    requires BandHasItem(cfg, item, band)
    ensures |r| == |band|
  {
    seq(|band|, k requires 0 <= k < |band| => cfg.columns[band[k]].values[item])
  }

  /** The header line of a band: padding, then the captions. */
  function HeaderLine(band: seq<ColumnName>, perRow: nat): seq<CellValue> {
    Empties(PadCount(perRow, |band|)) + Captions(band)
  }

  /** The footer line of a band: one empty value per column and per pad. */
  function FooterLine(band: seq<ColumnName>, perRow: nat): seq<CellValue> {
    Empties(|band| + PadCount(perRow, |band|))
  }

  /** The value line of item `item` in a band: padding, then the values. */
  function ValueLine(cfg: TableConfig, item: nat, band: seq<ColumnName>, perRow: nat): seq<CellValue>
    requires BandHasItem(cfg, item, band)
  {
    Empties(PadCount(perRow, |band|)) + ItemValues(cfg, item, band)
  }

  /** Whether the band `rowIndex` of item `itemIndex` repeats its captions as
      a header line (the first band of the first item is the table header
      instead). */
  predicate HeaderRowRule(itemIndex: nat, rowIndex: nat, bands: nat) {
    rowIndex % 2 == 1 || (itemIndex > 0 && bands > 1 && rowIndex % 2 == 0)
  }

  /** The lines written for band `b` of item `item`. */
  function BandEvents(cfg: TableConfig, item: nat, b: nat): seq<WriterEvent>
    requires RowsReady(cfg) && item < cfg.rowsCount && b < |cfg.rows|
  {
    var perRow := |cfg.rows[0]|;
    var band := cfg.rows[b];
    (if item == 0 && b == 0 then
       [AppendHeader(HeaderLine(band, perRow), HeaderLineStyle), AppendFooter(FooterLine(band, perRow), FooterLineStyle)]
     else if HeaderRowRule(item, b, |cfg.rows|) then
       [AppendRow(HeaderLine(band, perRow), HeaderLineStyle)]
     else [])
    + [AppendRow(ValueLine(cfg, item, band, perRow), ValueLineStyle), AppendSeparator]
  }

  /** The lines of the first `nb` bands of item `item`. */
  function ItemEvents(cfg: TableConfig, item: nat, nb: nat): seq<WriterEvent>
    requires RowsReady(cfg) && item < cfg.rowsCount && nb <= |cfg.rows|
  {
    if nb == 0 then [] else ItemEvents(cfg, item, nb - 1) + BandEvents(cfg, item, nb - 1)
  }

  /** The lines of the first `ni` items. */
  function RowsEvents(cfg: TableConfig, ni: nat): seq<WriterEvent>
    requires RowsReady(cfg) && ni <= cfg.rowsCount
  {
    if ni == 0 then [] else RowsEvents(cfg, ni - 1) + ItemEvents(cfg, ni - 1, |cfg.rows|)
  }

  /** Everything laying out the rows writes. */
  function SetRowsEvents(cfg: TableConfig): seq<WriterEvent>
    requires RowsReady(cfg)
  {
    RowsEvents(cfg, cfg.rowsCount)
  }

  /** The kind of line an event writes, for counting. */
  datatype LineKind = TableHeader | TableFooter | HeaderRow | ValueRow | Separator | OtherCall

  function KindOf(e: WriterEvent): LineKind {
    match e
    case AppendHeader(_, _) => TableHeader
    case AppendFooter(_, _) => TableFooter
    case AppendRow(_, style) => if style == HeaderLineStyle then HeaderRow else if style == ValueLineStyle then ValueRow else OtherCall
    case AppendSeparator => Separator
    case _ => OtherCall
  }

  /** How many events of a kind a log holds. */
  function Occurrences(events: seq<WriterEvent>, k: LineKind): nat {
    if events == [] then 0
    else (if KindOf(events[0]) == k then 1 else 0) + Occurrences(events[1..], k)
  }

  lemma {:induction false} OccurrencesAppend(a: seq<WriterEvent>, b: seq<WriterEvent>, k: LineKind)
    ensures Occurrences(a + b, k) == Occurrences(a, k) + Occurrences(b, k)
  {
    if a != [] {
      assert (a + b)[0] == a[0];
      assert (a + b)[1..] == a[1..] + b;
      OccurrencesAppend(a[1..], b, k);
    } else {
      assert a + b == b;
    }
  }

  lemma OccurrencesSingle(e: WriterEvent, k: LineKind)
    ensures Occurrences([e], k) == if KindOf(e) == k then 1 else 0
  {
    assert [e][1..] == [];
  }

  /** The header-row rule, restated: with a single band captions are never
      repeated; otherwise they are repeated on the odd bands of the first
      item and on every band of every later item. */
  lemma HeaderRowPattern(itemIndex: nat, rowIndex: nat, bands: nat)
    requires rowIndex < bands
    ensures HeaderRowRule(itemIndex, rowIndex, bands) <==> bands > 1 && (itemIndex > 0 || rowIndex % 2 == 1)
  {
  }

  /** One band writes one value line and one separator; the table header and
      footer come only with the first band of the first item. */
  lemma BandCounts(cfg: TableConfig, item: nat, b: nat)
    requires RowsReady(cfg) && item < cfg.rowsCount && b < |cfg.rows|
    ensures var ev := BandEvents(cfg, item, b);
      && Occurrences(ev, ValueRow) == 1
      && Occurrences(ev, Separator) == 1
      && Occurrences(ev, TableHeader) == (if item == 0 && b == 0 then 1 else 0)
      && Occurrences(ev, TableFooter) == (if item == 0 && b == 0 then 1 else 0)
      && Occurrences(ev, HeaderRow) == (if !(item == 0 && b == 0) && HeaderRowRule(item, b, |cfg.rows|) then 1 else 0)
  {
    var perRow := |cfg.rows[0]|;
    var band := cfg.rows[b];
    var header := AppendHeader(HeaderLine(band, perRow), HeaderLineStyle);
    var footer := AppendFooter(FooterLine(band, perRow), FooterLineStyle);
    var caption := AppendRow(HeaderLine(band, perRow), HeaderLineStyle);
    var line := AppendRow(ValueLine(cfg, item, band, perRow), ValueLineStyle);
    var pre := if item == 0 && b == 0 then [header, footer]
               else if HeaderRowRule(item, b, |cfg.rows|) then [caption] else [];
    var tail := [line, AppendSeparator];
    assert BandEvents(cfg, item, b) == pre + tail;
    forall k: LineKind
      ensures Occurrences(BandEvents(cfg, item, b), k) == Occurrences(pre, k) + Occurrences(tail, k)
    {
      OccurrencesAppend(pre, tail, k);
    }
    forall k: LineKind
      ensures Occurrences(tail, k) == if k == ValueRow || k == Separator then 1 else 0
    {
      OccurrencesPair(line, AppendSeparator, k);
    }
    if item == 0 && b == 0 {
      forall k: LineKind
        ensures Occurrences(pre, k) == if k == TableHeader || k == TableFooter then 1 else 0
      {
        OccurrencesPair(header, footer, k);
      }
    } else if HeaderRowRule(item, b, |cfg.rows|) {
      forall k: LineKind
        ensures Occurrences(pre, k) == if k == HeaderRow then 1 else 0
      {
        OccurrencesSingle(caption, k);
      }
    }
  }

  lemma OccurrencesPair(e1: WriterEvent, e2: WriterEvent, k: LineKind)
    ensures Occurrences([e1, e2], k) == (if KindOf(e1) == k then 1 else 0) + (if KindOf(e2) == k then 1 else 0)
  {
    assert [e1, e2][1..] == [e2];
    OccurrencesSingle(e2, k);
  }

  /** Per item: one value line and one separator per band; the table header
      and footer once, with the first item; captions repeated on the odd
      bands of the first item, and on every band of later items when there
      is more than one band. */
  lemma ItemCounts(cfg: TableConfig, item: nat, nb: nat)
    requires RowsReady(cfg) && item < cfg.rowsCount && nb <= |cfg.rows|
    ensures var ev := ItemEvents(cfg, item, nb);
      && Occurrences(ev, ValueRow) == nb
      && Occurrences(ev, Separator) == nb
      && Occurrences(ev, TableHeader) == (if item == 0 && nb > 0 then 1 else 0)
      && Occurrences(ev, TableFooter) == (if item == 0 && nb > 0 then 1 else 0)
      && Occurrences(ev, HeaderRow) == (if item == 0 then nb / 2 else if |cfg.rows| > 1 then nb else 0)
  {
    ItemLineCounts(cfg, item, nb);
    ItemTableCounts(cfg, item, nb);
    ItemCaptionCounts(cfg, item, nb);
  }

  lemma {:induction false} ItemLineCounts(cfg: TableConfig, item: nat, nb: nat)
    requires RowsReady(cfg) && item < cfg.rowsCount && nb <= |cfg.rows|
    ensures Occurrences(ItemEvents(cfg, item, nb), ValueRow) == nb
    ensures Occurrences(ItemEvents(cfg, item, nb), Separator) == nb
  {
    if nb > 0 {
      var prev := ItemEvents(cfg, item, nb - 1);
      var band := BandEvents(cfg, item, nb - 1);
      ItemLineCounts(cfg, item, nb - 1);
      BandCounts(cfg, item, nb - 1);
      OccurrencesAppend(prev, band, ValueRow);
      OccurrencesAppend(prev, band, Separator);
    }
  }

  lemma {:induction false} ItemTableCounts(cfg: TableConfig, item: nat, nb: nat)
    requires RowsReady(cfg) && item < cfg.rowsCount && nb <= |cfg.rows|
    ensures Occurrences(ItemEvents(cfg, item, nb), TableHeader) == (if item == 0 && nb > 0 then 1 else 0)
    ensures Occurrences(ItemEvents(cfg, item, nb), TableFooter) == (if item == 0 && nb > 0 then 1 else 0)
  {
    if nb > 0 {
      var prev := ItemEvents(cfg, item, nb - 1);
      var band := BandEvents(cfg, item, nb - 1);
      ItemTableCounts(cfg, item, nb - 1);
      BandCounts(cfg, item, nb - 1);
      OccurrencesAppend(prev, band, TableHeader);
      OccurrencesAppend(prev, band, TableFooter);
    }
  }

  lemma {:induction false} ItemCaptionCounts(cfg: TableConfig, item: nat, nb: nat)
    requires RowsReady(cfg) && item < cfg.rowsCount && nb <= |cfg.rows|
    ensures Occurrences(ItemEvents(cfg, item, nb), HeaderRow) == (if item == 0 then nb / 2 else if |cfg.rows| > 1 then nb else 0)
  {
    if nb > 0 {
      var prev := ItemEvents(cfg, item, nb - 1);
      var band := BandEvents(cfg, item, nb - 1);
      ItemCaptionCounts(cfg, item, nb - 1);
      BandCounts(cfg, item, nb - 1);
      OccurrencesAppend(prev, band, HeaderRow);
      HeaderRowPattern(item, nb - 1, |cfg.rows|);
    }
  }

  /** Over the whole layout: one value line and one separator per (item,
      band) pair; the table header and footer exactly once when there is an
      item; and the captions repeated `bands/2 + (items-1)*bands` times when
      there is more than one band, never otherwise. */
  lemma SetRowsCounts(cfg: TableConfig, ni: nat)
    requires RowsReady(cfg) && ni <= cfg.rowsCount
    ensures var ev := RowsEvents(cfg, ni);
      var nb := |cfg.rows|;
      && Occurrences(ev, ValueRow) == ni * nb
      && Occurrences(ev, Separator) == ni * nb
      && Occurrences(ev, TableHeader) == (if ni > 0 then 1 else 0)
      && Occurrences(ev, TableFooter) == (if ni > 0 then 1 else 0)
      && Occurrences(ev, HeaderRow) == (if ni == 0 || nb == 1 then 0 else nb / 2 + (ni - 1) * nb)
  {
    RowsLineCounts(cfg, ni);
    RowsTableCounts(cfg, ni);
    RowsCaptionCounts(cfg, ni);
  }

  lemma {:induction false} RowsLineCounts(cfg: TableConfig, ni: nat)
    requires RowsReady(cfg) && ni <= cfg.rowsCount
    ensures Occurrences(RowsEvents(cfg, ni), ValueRow) == ni * |cfg.rows|
    ensures Occurrences(RowsEvents(cfg, ni), Separator) == ni * |cfg.rows|
  {
    if ni > 0 {
      var nb := |cfg.rows|;
      var prev := RowsEvents(cfg, ni - 1);
      var item := ItemEvents(cfg, ni - 1, nb);
      RowsLineCounts(cfg, ni - 1);
      ItemLineCounts(cfg, ni - 1, nb);
      OccurrencesAppend(prev, item, ValueRow);
      OccurrencesAppend(prev, item, Separator);
      CountsStep(ni, nb);
    }
  }

  lemma {:induction false} RowsTableCounts(cfg: TableConfig, ni: nat)
    requires RowsReady(cfg) && ni <= cfg.rowsCount
    ensures Occurrences(RowsEvents(cfg, ni), TableHeader) == (if ni > 0 then 1 else 0)
    ensures Occurrences(RowsEvents(cfg, ni), TableFooter) == (if ni > 0 then 1 else 0)
  {
    if ni > 0 {
      var nb := |cfg.rows|;
      var prev := RowsEvents(cfg, ni - 1);
      var item := ItemEvents(cfg, ni - 1, nb);
      RowsTableCounts(cfg, ni - 1);
      ItemTableCounts(cfg, ni - 1, nb);
      OccurrencesAppend(prev, item, TableHeader);
      OccurrencesAppend(prev, item, TableFooter);
    }
  }

  lemma {:induction false} RowsCaptionCounts(cfg: TableConfig, ni: nat)
    requires RowsReady(cfg) && ni <= cfg.rowsCount
    ensures Occurrences(RowsEvents(cfg, ni), HeaderRow)
         == (if ni == 0 || |cfg.rows| == 1 then 0 else |cfg.rows| / 2 + (ni - 1) * |cfg.rows|)
  {
    if ni > 0 {
      var nb := |cfg.rows|;
      var prev := RowsEvents(cfg, ni - 1);
      var item := ItemEvents(cfg, ni - 1, nb);
      RowsCaptionCounts(cfg, ni - 1);
      ItemCaptionCounts(cfg, ni - 1, nb);
      OccurrencesAppend(prev, item, HeaderRow);
      CountsStep(ni, nb);
    }
  }

  /** The arithmetic of one more item in SetRowsCounts. */
  lemma CountsStep(ni: nat, nb: nat)
    requires ni > 0 && nb > 0
    ensures ni * nb == (ni - 1) * nb + nb
    ensures (if ni == 1 || nb == 1 then 0 else nb / 2 + (ni - 2) * nb)
          + (if ni == 1 then nb / 2 else if nb > 1 then nb else 0)
         == (if nb == 1 then 0 else nb / 2 + (ni - 1) * nb)
  {
    if ni > 1 && nb > 1 {
      assert (ni - 1) * nb == (ni - 2) * nb + nb;
    }
  }

  /** Every band has at least one column and at most as many as the first. */
  predicate BandsFit(cfg: TableConfig) {
    |cfg.rows| > 0 && forall b :: 0 <= b < |cfg.rows| ==> 0 < |cfg.rows[b]| <= |cfg.rows[0]|
  }

  /** Every line in `events` has width `w`. */
  predicate LinesOfWidth(events: seq<WriterEvent>, w: nat) {
    forall e :: e in events && CarriesLine(e) ==> |e.values| == w
  }

  lemma BandWidths(cfg: TableConfig, item: nat, b: nat)
    requires RowsReady(cfg) && BandsFit(cfg) && item < cfg.rowsCount && b < |cfg.rows|
    ensures LinesOfWidth(BandEvents(cfg, item, b), |cfg.rows[0]|)
  {
  }

  lemma {:induction false} ItemWidths(cfg: TableConfig, item: nat, nb: nat)
    requires RowsReady(cfg) && BandsFit(cfg) && item < cfg.rowsCount && nb <= |cfg.rows|
    ensures LinesOfWidth(ItemEvents(cfg, item, nb), |cfg.rows[0]|)
  {
    if nb > 0 {
      ItemWidths(cfg, item, nb - 1);
      BandWidths(cfg, item, nb - 1);
      WidthsAppend(ItemEvents(cfg, item, nb - 1), BandEvents(cfg, item, nb - 1), |cfg.rows[0]|);
    }
  }

  /** When every band is non-empty and no wider than the first, every
      header, footer and line written has exactly the first band's width. */
  lemma {:induction false} SetRowsWidths(cfg: TableConfig, ni: nat)
    requires RowsReady(cfg) && BandsFit(cfg) && ni <= cfg.rowsCount
    ensures LinesOfWidth(RowsEvents(cfg, ni), |cfg.rows[0]|)
  {
    if ni > 0 {
      SetRowsWidths(cfg, ni - 1);
      ItemWidths(cfg, ni - 1, |cfg.rows|);
      WidthsAppend(RowsEvents(cfg, ni - 1), ItemEvents(cfg, ni - 1, |cfg.rows|), |cfg.rows[0]|);
    }
  }

  lemma WidthsAppend(a: seq<WriterEvent>, b: seq<WriterEvent>, w: nat)
    requires LinesOfWidth(a, w) && LinesOfWidth(b, w)
    ensures LinesOfWidth(a + b, w)
  {
  }

  /** The padding is on the left: in a band that fits, the captions and the
      item's values occupy the last `|band|` places, in band order, and
      every place before them is empty. */
  lemma ValuesRightAligned(cfg: TableConfig, item: nat, band: seq<ColumnName>, perRow: nat)
    requires BandHasItem(cfg, item, band) && 0 < |band| <= perRow
    ensures var line := ValueLine(cfg, item, band, perRow);
      var header := HeaderLine(band, perRow);
      && |line| == perRow && |header| == perRow
      && (forall k :: 0 <= k < perRow - |band| ==> line[k] == EmptyValue && header[k] == EmptyValue)
      && (forall j :: 0 <= j < |band| ==>
            line[perRow - |band| + j] == cfg.columns[band[j]].values[item]
            && header[perRow - |band| + j] == TextValue(band[j].value))
  {
  }

  /** The footer holds nothing but empty values. */
  lemma FooterIsBlank(band: seq<ColumnName>, perRow: nat)
    ensures forall k :: 0 <= k < |FooterLine(band, perRow)| ==> FooterLine(band, perRow)[k] == EmptyValue
  {
  }

  /** An empty band is laid out one value short of the first band's width
      (for a first band of at least one column). */
  lemma EmptyBandIsOneShort(cfg: TableConfig, item: nat, perRow: nat)
    requires perRow > 0
    ensures |ValueLine(cfg, item, [], perRow)| == perRow - 1
    ensures |HeaderLine([], perRow)| == perRow - 1
  {
  }

  /** The first two calls are the table header and footer, built from the
      first band, whenever there is at least one item. */
  lemma {:induction false} HeaderAndFooterFirst(cfg: TableConfig)
    requires RowsReady(cfg) && cfg.rowsCount > 0
    ensures var ev := SetRowsEvents(cfg);
      && |ev| >= 2
      && ev[0] == AppendHeader(HeaderLine(cfg.rows[0], |cfg.rows[0]|), HeaderLineStyle)
      && ev[1] == AppendFooter(FooterLine(cfg.rows[0], |cfg.rows[0]|), FooterLineStyle)
  {
    ItemStartsWithFirstBand(cfg, 0, |cfg.rows|);
    RowsStartWithFirstItem(cfg, cfg.rowsCount);
  }

  lemma {:induction false} ItemStartsWithFirstBand(cfg: TableConfig, item: nat, nb: nat)
    requires RowsReady(cfg) && item < cfg.rowsCount && 0 < nb <= |cfg.rows|
    ensures |BandEvents(cfg, item, 0)| <= |ItemEvents(cfg, item, nb)|
    ensures ItemEvents(cfg, item, nb)[..|BandEvents(cfg, item, 0)|] == BandEvents(cfg, item, 0)
  {
    if nb > 1 {
      ItemStartsWithFirstBand(cfg, item, nb - 1);
    } else {
      assert ItemEvents(cfg, item, nb) == [] + BandEvents(cfg, item, 0);
    }
  }

  lemma {:induction false} RowsStartWithFirstItem(cfg: TableConfig, ni: nat)
    requires RowsReady(cfg) && 0 < ni <= cfg.rowsCount
    ensures |ItemEvents(cfg, 0, |cfg.rows|)| <= |RowsEvents(cfg, ni)|
    ensures RowsEvents(cfg, ni)[..|ItemEvents(cfg, 0, |cfg.rows|)|] == ItemEvents(cfg, 0, |cfg.rows|)
  {
    if ni > 1 {
      RowsStartWithFirstItem(cfg, ni - 1);
    } else {
      assert RowsEvents(cfg, ni) == [] + ItemEvents(cfg, 0, |cfg.rows|);
    }
  }

  /** The value line of every (item, band) pair is written. */
  lemma {:induction false} EveryValueLineWritten(cfg: TableConfig, item: nat, b: nat)
    requires RowsReady(cfg) && item < cfg.rowsCount && b < |cfg.rows|
    ensures AppendRow(ValueLine(cfg, item, cfg.rows[b], |cfg.rows[0]|), ValueLineStyle) in SetRowsEvents(cfg)
  {
    var line := AppendRow(ValueLine(cfg, item, cfg.rows[b], |cfg.rows[0]|), ValueLineStyle);
    assert line in BandEvents(cfg, item, b);
    BandInItem(cfg, item, b, |cfg.rows|, line);
    ItemInRows(cfg, item, cfg.rowsCount, line);
  }

  lemma {:induction false} BandInItem(cfg: TableConfig, item: nat, b: nat, nb: nat, e: WriterEvent)
    requires RowsReady(cfg) && item < cfg.rowsCount && b < nb <= |cfg.rows|
    requires e in BandEvents(cfg, item, b)
    ensures e in ItemEvents(cfg, item, nb)
  {
    var prev := ItemEvents(cfg, item, nb - 1);
    var last := BandEvents(cfg, item, nb - 1);
    assert ItemEvents(cfg, item, nb) == prev + last;
    if b < nb - 1 {
      BandInItem(cfg, item, b, nb - 1, e);
    }
    MemberOfAppend(prev, last, e);
  }

  lemma MemberOfAppend(a: seq<WriterEvent>, b: seq<WriterEvent>, e: WriterEvent)
    requires e in a || e in b
    ensures e in a + b
  {
  }

  lemma {:induction false} ItemInRows(cfg: TableConfig, item: nat, ni: nat, e: WriterEvent)
    requires RowsReady(cfg) && item < ni <= cfg.rowsCount
    requires e in ItemEvents(cfg, item, |cfg.rows|)
    ensures e in RowsEvents(cfg, ni)
  {
    var prev := RowsEvents(cfg, ni - 1);
    var last := ItemEvents(cfg, ni - 1, |cfg.rows|);
    assert RowsEvents(cfg, ni) == prev + last;
    if item < ni - 1 {
      ItemInRows(cfg, item, ni - 1, e);
    }
    MemberOfAppend(prev, last, e);
  }
}
