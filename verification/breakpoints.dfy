/** AQI by piecewise-linear interpolation over a breakpoint table, in the
    form of Equation 1 of the US EPA Technical Assistance Document for the
    Reporting of Daily Air Quality (EPA-454/B-18-007):
      I = I_lo + (C - BP_lo) * (I_hi - I_lo) / (BP_hi - BP_lo).
    The program hard-codes one such table for PM2.5; this module states the
    table as data and proves, once for every well-formed table, that the
    resulting AQI is strictly increasing in the concentration. */
module Breakpoints {

  /** One row: the concentration range [cLow, cHigh] maps onto [iLow, iHigh]. */
  datatype Breakpoint = Breakpoint(cLow: real, cHigh: real, iLow: real, iHigh: real)

  predicate Rising(b: Breakpoint) {
    b.cLow < b.cHigh && b.iLow < b.iHigh
  }

  function Slope(b: Breakpoint): (s: real)
    requires Rising(b)
    ensures s > 0.0
  {
    (b.iHigh - b.iLow) / (b.cHigh - b.cLow)
  }

  /** Equation 1, with the slope computed first as the program does. The line
      is also used outside [cLow, cHigh]: that is how the program extrapolates. */
  function Interpolate(b: Breakpoint, c: real): real
    requires Rising(b)
  {
    b.iLow + (c - b.cLow) * Slope(b)
  }

  lemma InterpolateHitsUpperEdge(b: Breakpoint)
    requires Rising(b)
    ensures Interpolate(b, b.cHigh) == b.iHigh
  {
    var d := b.cHigh - b.cLow;
    assert Slope(b) * d == b.iHigh - b.iLow;
  }

  lemma InterpolateIncreasing(b: Breakpoint, x: real, y: real)
    requires Rising(b)
    requires x < y
    ensures Interpolate(b, x) < Interpolate(b, y)
  {
    var s := Slope(b);
    assert (y - b.cLow) * s - (x - b.cLow) * s == (y - x) * s;
    assert (y - x) * s > 0.0;
  }

  /** A table the interpolation can run on: every row rises, the upper
      concentration edges strictly increase, and each row's line evaluated
      at the previous row's upper edge lies above that row's upper AQI, so
      crossing a breakpoint never lowers the index. */
  ghost predicate Valid(t: seq<Breakpoint>) {
    && |t| > 0
    && (forall i :: 0 <= i < |t| ==> Rising(t[i]))
    && (forall i :: 0 <= i < |t| - 1 ==> t[i].cHigh < t[i + 1].cHigh)
    && (forall i :: 0 <= i < |t| - 1 ==> t[i].iHigh < Interpolate(t[i + 1], t[i].cHigh))
  }

  /** The first row whose upper edge is at least `c` is used; the last row
      is used for every larger concentration. */
  function TableAqi(t: seq<Breakpoint>, c: real): real
    requires Valid(t)
    decreases |t|
  {
    if |t| == 1 || c <= t[0].cHigh then Interpolate(t[0], c)
    else TableAqi(t[1..], c)
  }

  lemma ValidTail(t: seq<Breakpoint>)
    requires Valid(t) && |t| > 1
    ensures Valid(t[1..])
  {
    var u := t[1..];
    forall i | 0 <= i < |u| - 1
      ensures u[i].cHigh < u[i + 1].cHigh
      ensures u[i].iHigh < Interpolate(u[i + 1], u[i].cHigh)
    {
      assert u[i] == t[i + 1] && u[i + 1] == t[i + 2];
    }
  }

  /** Every well-formed table gives a strictly increasing AQI, across the
      breakpoints as well as inside a row. */
  lemma {:induction false} TableAqiStrictlyIncreasing(t: seq<Breakpoint>, x: real, y: real)
    requires Valid(t)
    requires x < y
    ensures TableAqi(t, x) < TableAqi(t, y)
    decreases |t|
  {
    if |t| == 1 || y <= t[0].cHigh {
      InterpolateIncreasing(t[0], x, y);
    } else {
      ValidTail(t);
      var edge := t[0].cHigh;
      if x <= edge {
        // x stays on the first row, y has moved on to the rest of the table
        if x < edge {
          InterpolateIncreasing(t[0], x, edge);
        }
        InterpolateHitsUpperEdge(t[0]);
        assert TableAqi(t[1..], edge) == Interpolate(t[1], edge);
        TableAqiStrictlyIncreasing(t[1..], edge, y);
      } else {
        TableAqiStrictlyIncreasing(t[1..], x, y);
      }
    }
  }

  /** The PM2.5 table the program hard-codes. The slopes 50/12, 49/23.3,
      49/19.9, 49/94.9 and 99/49.5 are this table's rows; the last one puts
      AQI 300 at 200 ug/m3. */
  const Pm25Table: seq<Breakpoint> := [
    Breakpoint(0.0, 12.0, 0.0, 50.0),
    Breakpoint(12.1, 35.4, 51.0, 100.0),
    Breakpoint(35.5, 55.4, 101.0, 150.0),
    Breakpoint(55.5, 150.4, 151.0, 200.0),
    Breakpoint(150.5, 200.0, 201.0, 300.0)
  ]

  /** The 24-hour PM2.5 breakpoints of the EPA document cited above. */
  const EpaPm25Table: seq<Breakpoint> := [
    Breakpoint(0.0, 12.0, 0.0, 50.0),
    Breakpoint(12.1, 35.4, 51.0, 100.0),
    Breakpoint(35.5, 55.4, 101.0, 150.0),
    Breakpoint(55.5, 150.4, 151.0, 200.0),
    Breakpoint(150.5, 250.4, 201.0, 300.0),
    Breakpoint(250.5, 350.4, 301.0, 400.0),
    Breakpoint(350.5, 500.4, 401.0, 500.0)
  ]

  lemma Pm25TableValid()
    ensures Valid(Pm25Table)
  {
    var t := Pm25Table;
    forall i | 0 <= i < |t| - 1
      ensures t[i].iHigh < Interpolate(t[i + 1], t[i].cHigh)
    {
      if i == 0 {
        assert Interpolate(t[1], 12.0) == 51.0 - 4.9 / 23.3;
      } else if i == 1 {
        assert Interpolate(t[2], 35.4) == 101.0 - 4.9 / 19.9;
      } else if i == 2 {
        assert Interpolate(t[3], 55.4) == 151.0 - 4.9 / 94.9;
      } else {
        assert Interpolate(t[4], 150.4) == 201.0 - 9.9 / 49.5;
      }
    }
  }

  /** The program's table is the EPA table up to 150.4 ug/m3; its last row
      keeps EPA's 150.5 and 201..300 but ends at 200 instead of 250.4, so it
      climbs twice as steeply and is not capped at AQI 300. */
  lemma Pm25TableAgainstEpa()
    ensures Pm25Table[..4] == EpaPm25Table[..4]
    ensures Pm25Table[4] == EpaPm25Table[4].(cHigh := 200.0)
    ensures Pm25Table[4] != EpaPm25Table[4]
    ensures Slope(Pm25Table[4]) == 2.0
    ensures Slope(EpaPm25Table[4]) < 1.0
  {
  }
}
