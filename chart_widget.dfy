// A model of the dashboard's chart widget: the state of its single plot
// item, which `UpdateData` either leaves alone, clears or replaces.

module ChartWidgets {

  /** The pen a plot is drawn with: a colour name and a line width. */
  datatype Pen = Pen(color: string, width: int)

  /** The data held by the widget's plot item. */
  datatype PlotData = NoData | Points(xs: seq<real>, ys: seq<real>, pen: Pen)

  /** An argument of `update_data`: a list or tuple of numbers, or some other object. */
  datatype Series = Sequence(values: seq<real>) | NotASequence

  /**
   * The plot data after an update from `current`. `drawFails` says whether
   * building the pen or handing the data to the plot item raised.
   */
  function Updated(current: PlotData, x: Series, y: Series, pen: Pen, drawFails: bool): (r: PlotData)
    ensures !x.Sequence? || !y.Sequence? ==> r == current
    ensures x.Sequence? && y.Sequence? ==>
      (r.Points? <==> |x.values| == |y.values| && |x.values| > 0 && !drawFails)
    ensures x.Sequence? && y.Sequence? && r.Points? ==> r == Points(x.values, y.values, pen)
    ensures x.Sequence? && y.Sequence? && !r.Points? ==> r == NoData
  {
    if !x.Sequence? || !y.Sequence? then current
    else if |x.values| != |y.values| then NoData
    else if |x.values| == 0 then NoData
    else if drawFails then NoData
    else Points(x.values, y.values, pen)
  }

  /** Two updates with the same arguments leave what one of them leaves. */
  lemma UpdateIdempotent(current: PlotData, x: Series, y: Series, pen: Pen, drawFails: bool)
    ensures Updated(Updated(current, x, y, pen, drawFails), x, y, pen, drawFails)
         == Updated(current, x, y, pen, drawFails)
  {
  }

  /** Once both arguments are sequences, what was plotted before does not matter. */
  lemma UpdateForgetsPrevious(c1: PlotData, c2: PlotData, x: Series, y: Series, pen: Pen, drawFails: bool)
    requires x.Sequence? && y.Sequence?
    ensures Updated(c1, x, y, pen, drawFails) == Updated(c2, x, y, pen, drawFails)
  {
  }

  class ChartWidget {
    var data: PlotData

    /** A new widget's plot item holds no data. */
    constructor ()
      ensures data == NoData
    {
      data := NoData;
    }

    /**
     * Validates `x` and `y` and plots them: arguments that are not
     * sequences leave the plot alone; different lengths, empty input or a
     * failure while drawing clear it.
     */
    method UpdateData(x: Series, y: Series, penColor: string, penWidth: int, drawFails: bool)
      modifies this
      ensures data == Updated(old(data), x, y, Pen(penColor, penWidth), drawFails)
    {
      if !x.Sequence? || !y.Sequence? {
        return;
      }
      if |x.values| != |y.values| {
        data := NoData;
        return;
      }
      if |x.values| == 0 || |y.values| == 0 {
        data := NoData;
        return;
      }
      var pen := Pen(penColor, penWidth);
      if drawFails {
        data := NoData;
      } else {
        data := Points(x.values, y.values, pen);
      }
    }

    /** Removes all data from the plot; a second call changes nothing. */
    method ClearPlot()
      modifies this
      ensures data == NoData
    {
      data := NoData;
    }
  }
}
