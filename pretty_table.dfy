/** The terminal table writer, seen only through what is written into it:
    every call the table builders make is one event of an append-only log. */
module PrettyTable {
  import opened Domain

  /** A column's display configuration (its caption and maximum width); the
      writer's other column options are not part of this model. */
  datatype ColumnSetting = ColumnSetting(name: string, widthMax: nat)

  /** The row configuration passed with a line: the ones the table package
      builds for a header, footer or value line, and the plain auto-merge
      configuration. Their option fields are not part of this model. */
  datatype RowStyle = HeaderLineStyle | FooterLineStyle | ValueLineStyle | AutoMergeStyle

  /** Foreground and background colours used by the row painter. */
  datatype Color = FgWhite | FgBlack | BgWhite | BgHiBlue

  /** One call on the writer. */
  datatype WriterEvent =
    | SetColumnConfigs(settings: seq<ColumnSetting>)
    | AppendHeader(values: seq<CellValue>, style: RowStyle)
    | AppendFooter(values: seq<CellValue>, style: RowStyle)
    | AppendRow(values: seq<CellValue>, style: RowStyle)
    | AppendSeparator
    | SetRowPainter
    | SetLightStyle
    | Render

  /** The events that carry a line of values. */
  predicate CarriesLine(e: WriterEvent) {
    e.AppendHeader? || e.AppendFooter? || e.AppendRow?
  }
}
