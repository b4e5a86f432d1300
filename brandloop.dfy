/**
 * The brand loop both forecasters run: `for brand, brand_df in
 * df.groupby("Brand")`, a loop body that skips the brand (`continue`),
 * raises, or appends one metrics row and one block of forecast rows, and
 * the two lists the loop accumulates. Nothing catches a raise, so one
 * brand that raises ends the whole run.
 */
module BrandLoop {
  import opened Values
  import opened Ordering
  import opened Frames
  import opened Scoring

  /** One forecast row: a date, the brand, and what the forecaster predicts for that day. */
  datatype Dated<P> = Dated(date: int, brand: string, prediction: P)

  /** What the loop body does with one brand: skip it at guard `why`, raise, or forecast it. */
  datatype Outcome<S, P> =
    | Skipped(why: S)
    | Raised
    | Forecasted(metrics: Metrics, rows: seq<Dated<P>>)

  /** The two lists the loop accumulates: the forecast rows, block after block, and the metrics rows. */
  datatype Accumulated<P> = Accumulated(forecasts: seq<Dated<P>>, metrics: seq<Metrics>)

  /**
   * One pass of the loop body: a forecast brand adds its block and its
   * metrics row together, a skipped one adds nothing, and a raise ends the
   * run (None).
   */
  function Add<S, P>(acc: Option<Accumulated<P>>, r: Outcome<S, P>): Option<Accumulated<P>>
  {
    match r
    case Raised => None
    case Skipped(_) => acc
    case Forecasted(m, rows) =>
      if acc.Some? then Some(Accumulated(acc.value.forecasts + rows, acc.value.metrics + [m])) else None
  }

  /** The brand loop over `bs`, with `body` the outcome of the loop body for each brand. */
  function RunBrands<S, P>(bs: seq<string>, body: string --> Outcome<S, P>): Option<Accumulated<P>>
    requires forall b :: body.requires(b)
  {
    if bs == [] then Some(Accumulated([], []))
    else Add(RunBrands(bs[..|bs| - 1], body), body(bs[|bs| - 1]))
  }

  /** One more turn of the brand loop. */
  lemma RunBrandsStep<S, P>(bs: seq<string>, i: nat, body: string --> Outcome<S, P>)
    requires forall b :: body.requires(b)
    requires i < |bs|
    ensures RunBrands(bs[..i + 1], body) == Add(RunBrands(bs[..i], body), body(bs[i]))
  {
    assert bs[..i + 1][..i] == bs[..i];
  }

  /** One turn of a loop that has not raised so far. */
  lemma LoopStep<S, P>(bs: seq<string>, i: nat, body: string --> Outcome<S, P>, acc: Accumulated<P>)
    requires forall b :: body.requires(b)
    requires i < |bs| && RunBrands(bs[..i], body) == Some(acc)
    ensures var r := body(bs[i]);
      RunBrands(bs[..i + 1], body) ==
        match r
        case Raised => None
        case Skipped(_) => Some(acc)
        case Forecasted(m, rows) => Some(Accumulated(acc.forecasts + rows, acc.metrics + [m]))
  {
    RunBrandsStep(bs, i, body);
  }

  /** Once the loop has raised, the run stays aborted. */
  lemma {:induction false} RunAbortsAfterRaise<S, P>(bs: seq<string>, i: nat, body: string --> Outcome<S, P>)
    requires forall b :: body.requires(b)
    requires i <= |bs| && RunBrands(bs[..i], body).None?
    ensures RunBrands(bs, body).None?
    decreases |bs| - i
  {
    if i < |bs| {
      RunBrandsStep(bs, i, body);
      RunAbortsAfterRaise(bs, i + 1, body);
    } else {
      assert bs[..i] == bs;
    }
  }

  /** The run ends in a raise exactly when some visited brand raises. */
  lemma {:induction false} RunRaisesIff<S, P>(bs: seq<string>, body: string --> Outcome<S, P>)
    requires forall b :: body.requires(b)
    ensures RunBrands(bs, body).None? <==> exists i :: 0 <= i < |bs| && body(bs[i]).Raised?
  {
    if bs != [] {
      var init := bs[..|bs| - 1];
      RunRaisesIff(init, body);
      if i :| 0 <= i < |init| && body(init[i]).Raised? {
        assert bs[i] == init[i];
      }
      if i :| 0 <= i < |bs| && body(bs[i]).Raised? {
        if i < |init| {
          assert init[i] == bs[i];
        }
      }
    }
  }

  /** A run that reaches its end ran every earlier prefix to the end, and no visited brand raised. */
  lemma RunStepFinished<S, P>(bs: seq<string>, body: string --> Outcome<S, P>)
    requires forall c :: body.requires(c)
    requires bs != [] && RunBrands(bs, body).Some?
    ensures var acc := RunBrands(bs[..|bs| - 1], body);
      var r := body(bs[|bs| - 1]);
      && acc.Some? && !r.Raised?
      && RunBrands(bs, body).value ==
           if r.Forecasted? then Accumulated(acc.value.forecasts + r.rows, acc.value.metrics + [r.metrics]) else acc.value
  {
  }

  /** The forecast rows of brand `b`, in order. */
  function RowsFor<P>(fs: seq<Dated<P>>, b: string): (r: seq<Dated<P>>)
    ensures forall k :: 0 <= k < |r| ==> r[k] in fs && r[k].brand == b
    ensures forall k :: 0 <= k < |fs| && fs[k].brand == b ==> fs[k] in r
  {
    if fs == [] then []
    else RowsFor(fs[..|fs| - 1], b) + (if fs[|fs| - 1].brand == b then [fs[|fs| - 1]] else [])
  }

  lemma {:induction false} RowsForAppend<P>(a: seq<Dated<P>>, c: seq<Dated<P>>, b: string)
    ensures RowsFor(a + c, b) == RowsFor(a, b) + RowsFor(c, b)
  {
    if c == [] {
      assert a + c == a;
    } else {
      var c' := c[..|c| - 1];
      assert (a + c)[..|a + c| - 1] == a + c';
      RowsForAppend(a, c', b);
    }
  }

  /** Filtering rows that all belong to one brand keeps all of them or none. */
  lemma {:induction false} RowsForUniform<P>(c: seq<Dated<P>>, b: string, owner: string)
    requires forall k :: 0 <= k < |c| ==> c[k].brand == owner
    ensures RowsFor(c, b) == if owner == b then c else []
  {
    if c != [] {
      var init := c[..|c| - 1];
      assert forall k :: 0 <= k < |init| ==> init[k] == c[k];
      RowsForUniform(init, b, owner);
      assert c == init + [c[|c| - 1]];
    }
  }

  /** An outcome that, when forecast, carries the brand's metrics row and only rows of the brand. */
  ghost predicate Tagged<S, P>(b: string, r: Outcome<S, P>)
  {
    r.Forecasted? ==> r.metrics.brand == b && forall k :: 0 <= k < |r.rows| ==> r.rows[k].brand == b
  }

  /**
   * Brand isolation of the metrics: when the loop over distinct brands `bs`
   * runs to the end, its metrics rows of brand `b` are the one the loop body
   * makes of `b`, and none when `b` was skipped or not visited.
   */
  lemma {:induction false} RunIsolatesMetrics<S, P>(bs: seq<string>, b: string, body: string --> Outcome<S, P>)
    requires forall c :: body.requires(c)
    requires forall c :: Tagged(c, body(c))
    requires forall i, j :: 0 <= i < j < |bs| ==> bs[i] != bs[j]
    requires RunBrands(bs, body).Some?
    ensures MetricsFor(RunBrands(bs, body).value.metrics, b) ==
      if b in bs && body(b).Forecasted? then [body(b).metrics] else []
  {
    if bs != [] {
      var init, c := bs[..|bs| - 1], bs[|bs| - 1];
      RunStepFinished(bs, body);
      RunIsolatesMetrics(init, b, body);
      assert b in bs <==> b in init || b == c;
      assert b == c ==> b !in init;
      var r := body(c);
      if r.Forecasted? {
        assert Tagged(c, r);
        var ms := RunBrands(init, body).value.metrics;
        assert (ms + [r.metrics])[..|ms|] == ms;
      }
    }
  }

  /**
   * Brand isolation of the forecasts: when the loop over distinct brands
   * `bs` runs to the end, its forecast rows of brand `b` are exactly the
   * block the loop body makes of `b`, and none when `b` was skipped or not
   * visited.
   */
  lemma {:induction false} RunIsolatesForecasts<S, P>(bs: seq<string>, b: string, body: string --> Outcome<S, P>)
    requires forall c :: body.requires(c)
    requires forall c :: Tagged(c, body(c))
    requires forall i, j :: 0 <= i < j < |bs| ==> bs[i] != bs[j]
    requires RunBrands(bs, body).Some?
    ensures RowsFor(RunBrands(bs, body).value.forecasts, b) ==
      if b in bs && body(b).Forecasted? then body(b).rows else []
  {
    if bs != [] {
      var init, c := bs[..|bs| - 1], bs[|bs| - 1];
      RunStepFinished(bs, body);
      RunIsolatesForecasts(init, b, body);
      assert b in bs <==> b in init || b == c;
      assert b == c ==> b !in init;
      var r := body(c);
      if r.Forecasted? {
        assert Tagged(c, r);
        RowsForAppend(RunBrands(init, body).value.forecasts, r.rows, b);
        RowsForUniform(r.rows, b, c);
      }
    }
  }

  /** When every forecast block has `h` rows, a finished run holds `h` forecast rows per metrics row. */
  lemma {:induction false} RunCounts<S, P>(bs: seq<string>, body: string --> Outcome<S, P>, h: nat)
    requires forall c :: body.requires(c)
    requires forall c :: body(c).Forecasted? ==> |body(c).rows| == h
    requires RunBrands(bs, body).Some?
    ensures |RunBrands(bs, body).value.forecasts| == h * |RunBrands(bs, body).value.metrics|
  {
    if bs != [] {
      RunStepFinished(bs, body);
      RunCounts(bs[..|bs| - 1], body, h);
    }
  }

  /** The brands the loop visits are the brands of the rows, each once. */
  lemma BrandsOfRows(rows: seq<Record>)
    ensures forall b :: b in Brands(rows) <==> exists i :: 0 <= i < |rows| && rows[i].brand == b
    ensures forall i, j :: 0 <= i < j < |Brands(rows)| ==> Brands(rows)[i] != Brands(rows)[j]
  {
    var bs := Brands(rows);
    StrLtIsStrictTotalOrder();
    forall i, j | 0 <= i < j < |bs| ensures bs[i] != bs[j] {
      assert StrLt(bs[i], bs[j]);
      StrLtIrreflexive(bs[i]);
    }
  }

  /** A loop over the brands of `rows` ends in a raise exactly when the loop body raises for the brand of some row. */
  lemma RunRaisesOverRows<S, P>(rows: seq<Record>, bs: seq<string>, body: string --> Outcome<S, P>)
    requires forall b :: body.requires(b)
    requires forall b :: b in bs <==> exists i :: 0 <= i < |rows| && rows[i].brand == b
    ensures RunBrands(bs, body).None? <==> exists i :: 0 <= i < |rows| && body(rows[i].brand).Raised?
  {
    RunRaisesIff(bs, body);
    if i :| 0 <= i < |bs| && body(bs[i]).Raised? {
      assert bs[i] in bs;
      var k :| 0 <= k < |rows| && rows[k].brand == bs[i];
    }
    if k :| 0 <= k < |rows| && body(rows[k].brand).Raised? {
      assert rows[k].brand in bs;
      var i :| 0 <= i < |bs| && bs[i] == rows[k].brand;
    }
  }

  /**
   * A run over the brands of `rows` that reaches its end returns, for every
   * brand of the rows, the metrics row and the forecast rows the loop body
   * makes of it when it is forecast, and none otherwise.
   */
  lemma FinishedRunIsolates<S, P>(rows: seq<Record>, body: string --> Outcome<S, P>)
    requires forall b :: body.requires(b)
    requires forall c :: Tagged(c, body(c))
    requires RunBrands(Brands(rows), body).Some?
    ensures forall b ::
      MetricsFor(RunBrands(Brands(rows), body).value.metrics, b) ==
        (if (exists i :: 0 <= i < |rows| && rows[i].brand == b) && body(b).Forecasted? then [body(b).metrics] else [])
    ensures forall b ::
      RowsFor(RunBrands(Brands(rows), body).value.forecasts, b) ==
        (if (exists i :: 0 <= i < |rows| && rows[i].brand == b) && body(b).Forecasted? then body(b).rows else [])
  {
    var bs := Brands(rows);
    BrandsOfRows(rows);
    forall b ensures MetricsFor(RunBrands(bs, body).value.metrics, b) ==
      if b in bs && body(b).Forecasted? then [body(b).metrics] else []
    {
      RunIsolatesMetrics(bs, b, body);
    }
    forall b ensures RowsFor(RunBrands(bs, body).value.forecasts, b) ==
      if b in bs && body(b).Forecasted? then body(b).rows else []
    {
      RunIsolatesForecasts(bs, b, body);
    }
  }
}
