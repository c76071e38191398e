/** Choice of the dashboard widget that shows a column. The terminal widget
    library is abstracted: a widget is its kind plus what has been written
    into it, and the library's own failures are inputs. */
module Widgets {
  import opened ColumnNames
  import opened Wrappers

  /** The widget kinds a dashboard cell can ask for; any other kind is
      carried by its number. */
  datatype WidgetType = WidgetTypeProgress | WidgetTypeTextNoScroll | WidgetTypeDisplay | WidgetTypeOther(code: int)

  /** Content the dashboard writes into a widget before the first refresh:
      the grey health status, or the blinking loading value. */
  datatype InitialContent = GreyStatus | LoadingBlink

  /** A widget: a gauge with its percentage (None until set), a text widget
      that does not scroll, or a segment display, with what was written. */
  datatype Widget =
    | Gauge(percent: Option<int>)
    | TextNoScroll(written: seq<InitialContent>)
    | SegmentDisplay(written: seq<InitialContent>)

  /** Errors: an unknown widget kind, a failure reported by the widget
      library, and the two wrappings that name the column concerned. */
  datatype WidgetError =
    | InvalidWidgetType(code: int)
    | LibraryError(message: string)
    | InitializeFailed(widgetName: string, column: ColumnName, cause: WidgetError)
    | SetInitialValueFailed(column: ColumnName, cause: WidgetError)

  datatype Result<T> = Success(value: T) | Failure(error: WidgetError)

  /** The kind a widget was created as. */
  predicate OfType(w: Widget, t: WidgetType) {
    match t
    case WidgetTypeProgress => w.Gauge?
    case WidgetTypeTextNoScroll => w.TextNoScroll?
    case WidgetTypeDisplay => w.SegmentDisplay?
    case WidgetTypeOther(_) => false
  }

  /** A freshly constructed widget: nothing written yet. */
  predicate Blank(w: Widget) {
    match w
    case Gauge(p) => p.None?
    case TextNoScroll(written) => written == []
    case SegmentDisplay(written) => written == []
  }

  /** Creates a widget of the given kind. `constructError` is the failure,
      if any, that the library constructor reports. An unknown kind is an
      error whatever the library would do. */
  function NewWidgetOfType(t: WidgetType, constructError: Option<string>): (r: Result<Widget>)
    ensures t.WidgetTypeOther? ==> r == Failure(InvalidWidgetType(t.code))
    ensures !t.WidgetTypeOther? ==> (r.Success? <==> constructError.None?)
    ensures !t.WidgetTypeOther? && constructError.Some? ==> r == Failure(LibraryError(constructError.value))
    ensures r.Success? ==> OfType(r.value, t) && Blank(r.value)
  {
    match t
    case WidgetTypeOther(code) => Failure(InvalidWidgetType(code))
    case _ =>
      if constructError.Some? then Failure(LibraryError(constructError.value))
      else match t
        case WidgetTypeProgress => Success(Gauge(None))
        case WidgetTypeTextNoScroll => Success(TextNoScroll([]))
        case WidgetTypeDisplay => Success(SegmentDisplay([]))
  }

  /** Creates and initialises the widget for a dashboard column.
      `constructError` and `initError` are the library's failures when
      building the widget and when writing its initial value. The two
      sync-percentage columns get a gauge at 0%, HEALTH gets a
      non-scrolling text showing the grey status, and every other column a
      segment display showing the loading value. */
  function NewWidgetByColumnName(column: ColumnName, constructError: Option<string>, initError: Option<string>): (r: Result<Widget>)
    ensures r.Success? <==> constructError.None? && initError.None?
    ensures r.Success? ==> (r.value.Gauge? <==> column == TXSyncPercentage || column == CheckSyncPercentage)
    ensures r.Success? && r.value.Gauge? ==> r.value.percent == Some(0)
    ensures r.Success? ==> (r.value.TextNoScroll? <==> column == Health)
    ensures r.Success? && r.value.TextNoScroll? ==> r.value.written == [GreyStatus]
    ensures r.Success? && r.value.SegmentDisplay? ==> r.value.written == [LoadingBlink]
  {
    if column == TXSyncPercentage || column == CheckSyncPercentage then
      match NewWidgetOfType(WidgetTypeProgress, constructError)
      case Failure(e) => Failure(InitializeFailed("gauge", column, e))
      case Success(w) =>
        if initError.Some? then Failure(SetInitialValueFailed(column, LibraryError(initError.value)))
        else Success(w.(percent := Some(0)))
    else if column == Health then
      match NewWidgetOfType(WidgetTypeTextNoScroll, constructError)
      case Failure(e) => Failure(InitializeFailed("text", column, e))
      case Success(w) =>
        if initError.Some? then Failure(SetInitialValueFailed(column, LibraryError(initError.value)))
        else Success(w.(written := w.written + [GreyStatus]))
    else
      match NewWidgetOfType(WidgetTypeDisplay, constructError)
      case Failure(e) => Failure(InitializeFailed("segment display", column, e))
      case Success(w) =>
        if initError.Some? then Failure(SetInitialValueFailed(column, LibraryError(initError.value)))
        else Success(w.(written := w.written + [LoadingBlink]))
  }

  /** Every failure is wrapped in an error that names the column, around the
      library's own error. */
  lemma WidgetErrorsNameColumn(column: ColumnName, constructError: Option<string>, initError: Option<string>)
    ensures var r := NewWidgetByColumnName(column, constructError, initError);
      r.Failure? ==>
        && (r.error.InitializeFailed? || r.error.SetInitialValueFailed?)
        && r.error.column == column
        && r.error.cause.LibraryError?
        && (r.error.InitializeFailed? <==> constructError.Some?)
  {
  }

  /** Only the three kinds the dashboard uses can be created. */
  lemma OnlyThreeWidgetTypes(t: WidgetType)
    ensures NewWidgetOfType(t, None).Failure? <==> t.WidgetTypeOther?
  {
  }
}
