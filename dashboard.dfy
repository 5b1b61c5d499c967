/**
 * The dashboard component (frontend/src/app/app.component.ts): the analysis
 * form, the fetched threat history with the summaries derived from it, and
 * the auto-refresh subscription handle.
 *
 * The HTTP client is asynchronous: a method that issues a request records
 * it (`pendingHistory`, `pendingPosts`, `sentPayloads`), and the outcome
 * arrives later as a call of the matching callback method. The rxjs timer
 * is represented by the set of live subscription handles; a tick may call
 * back only through a live handle.
 */
module Dashboard {
  import opened Outcomes
  import opened Text
  import opened IpAddress
  import opened Aggregation

  /**
   * The values of the form's controls, and also the shape of the form's value
   * object `threatForm.value`; an empty number input is `None`.
   */
  datatype FormValues = FormValues(
    sourceIp: string,
    destinationIp: string,
    threatType: string,
    severity: Option<int>,
    timestamp: string)

  /** The body of a successful analysis response, shown in the result card. */
  datatype AnalysisResult = AnalysisResult(alert: string, recommendation: string)

  /** The form as the constructor builds it: everything empty, severity 5. */
  function InitialForm(): FormValues
  {
    FormValues("", "", "", Some(5), "")
  }

  /**
   * The validators of the form group: `required` on every control,
   * `ipValidator` on both addresses, `min(1)` and `max(10)` on severity.
   */
  predicate FormValid(f: FormValues)
  {
    && f.sourceIp != "" && IpValidator(f.sourceIp).None?
    && f.destinationIp != "" && IpValidator(f.destinationIp).None?
    && f.threatType != ""
    && f.severity.Some? && 1 <= f.severity.value <= 10
    && f.timestamp != ""
  }

  /** A valid form holds two dotted quads, a type, a severity in 1..10 and a timestamp. */
  lemma FormValidSpec(f: FormValues)
    ensures FormValid(f) <==>
              && IsDottedQuad(f.sourceIp) && IsDottedQuad(f.destinationIp)
              && f.threatType != ""
              && f.severity.Some? && 1 <= f.severity.value <= 10
              && f.timestamp != ""
  {
    IpValidatorSpec(f.sourceIp);
    IpValidatorSpec(f.destinationIp);
    if IsDottedQuad(f.sourceIp) {
      var groups :| |groups| == 4 && (forall i :: 0 <= i < 4 ==> DecimalOctet(groups[i]))
                    && f.sourceIp == Join(groups, '.');
      assert f.sourceIp != "" by { assert |groups[0]| >= 1; }
    }
    if IsDottedQuad(f.destinationIp) {
      var groups :| |groups| == 4 && (forall i :: 0 <= i < 4 ==> DecimalOctet(groups[i]))
                    && f.destinationIp == Join(groups, '.');
      assert f.destinationIp != "" by { assert |groups[0]| >= 1; }
    }
  }

  /** The initial form is not valid: nothing can be submitted before the user fills it in. */
  lemma InitialFormInvalid()
    ensures !FormValid(InitialForm())
  {
  }

  /** `if (timestamp.length === 16) timestamp += ':00'`. */
  function PadTimestamp(ts: string): (padded: string)
    ensures |ts| == 16 ==> |padded| == 19 && padded[..16] == ts && padded[16..] == ":00"
    ensures |ts| != 16 ==> padded == ts
  {
    if |ts| == 16 then ts + ":00" else ts
  }

  /** `YYYY-MM-DDTHH:MM`, what a `datetime-local` input yields at minute precision. */
  predicate LocalMinute(ts: string)
  {
    && |ts| == 16
    && AllDigits(ts[..4]) && ts[4] == '-' && AllDigits(ts[5..7]) && ts[7] == '-' && AllDigits(ts[8..10])
    && ts[10] == 'T' && AllDigits(ts[11..13]) && ts[13] == ':' && AllDigits(ts[14..16])
  }

  /** `YYYY-MM-DDTHH:MM:SS`, the same at second precision. */
  predicate LocalSecond(ts: string)
  {
    && |ts| == 19 && LocalMinute(ts[..16]) && ts[16] == ':' && AllDigits(ts[17..19])
  }

  /**
   * Padding turns a minute-precision value into a second-precision one with
   * zero seconds, leaves a second-precision one alone, and is idempotent.
   */
  lemma PadTimestampShape(ts: string)
    ensures LocalMinute(ts) ==> LocalSecond(PadTimestamp(ts)) && PadTimestamp(ts)[17..] == "00"
    ensures LocalSecond(ts) ==> PadTimestamp(ts) == ts
    ensures PadTimestamp(PadTimestamp(ts)) == PadTimestamp(ts)
  {
    if LocalMinute(ts) {
      var padded := PadTimestamp(ts);
      assert padded[..16] == ts;
      assert padded[17..19] == "00";
    }
  }

  /**
   * The date part of a padded timestamp is the date the user picked. This is
   * the local value before conversion: the trend groups the service's
   * `isoformat()` of the UTC instant, whose date may be a day earlier or later.
   */
  lemma PaddedDatePrefix(ts: string)
    requires LocalMinute(ts)
    ensures DatePrefix(PadTimestamp(ts)) == ts[..10]
  {
    var padded := PadTimestamp(ts);
    assert padded == ts[..10] + padded[10..];
    forall i | 0 <= i < 10
      ensures ts[..10][i] != 'T'
    {
      if i < 4 { assert IsDigit(ts[..4][i]); }
      else if 5 <= i < 7 { assert IsDigit(ts[5..7][i - 5]); }
      else if 8 <= i { assert IsDigit(ts[8..10][i - 8]); }
    }
    SplitPrepend(ts[..10], padded[10..], 'T');
    assert padded[10..] == ['T'] + padded[11..];
  }

  /** Every field of the component, for stating a whole new state at once. */
  datatype AppState = AppState(
    form: FormValues,
    formValue: FormValues,
    result: Option<AnalysisResult>,
    threatHistory: seq<ThreatRecord>,
    loading: bool,
    loadingHistory: bool,
    autoRefresh: bool,
    autoRefreshSubscription: Option<nat>,
    riskScores: seq<RiskScore>,
    lastUpdated: string,
    threatChart: Option<ChartData>,
    trendChart: Option<ChartData>,
    pendingHistory: nat,
    pendingPosts: nat,
    sentPayloads: seq<FormValues>,
    liveSubscriptions: set<nat>,
    nextSubscription: nat)

  /** Every handle in use was issued before `next`. */
  ghost predicate HandlesIssued(live: set<nat>, held: Option<nat>, next: nat)
  {
    && (forall h :: h in live ==> h < next)
    && (held.Some? ==> held.value < next)
  }

  /** The risk table and the charts drawn so far all show `history`. */
  ghost predicate ViewsMatch(history: seq<ThreatRecord>, scores: seq<RiskScore>,
                             threatChart: Option<ChartData>, trendChart: Option<ChartData>)
  {
    && IsRiskTable(history, scores)
    && (threatChart.Some? ==> IsFirstSeenHistogram(ThreatTypes(history), threatChart.value))
    && (trendChart.Some? ==> IsDailySeries(DatePrefixes(history), trendChart.value))
  }

  class AppComponent {
    /** The values of the controls, which the validators check. */
    var form: FormValues
    /**
     * `threatForm.value`: the form group's cached value object, rebuilt from
     * the controls whenever one of them changes and otherwise mutable in place.
     */
    var formValue: FormValues
    var result: Option<AnalysisResult>
    var threatHistory: seq<ThreatRecord>
    var loading: bool
    var loadingHistory: bool
    var autoRefresh: bool
    var autoRefreshSubscription: Option<nat>
    var riskScores: seq<RiskScore>
    var lastUpdated: string
    /** The data last handed to each chart. */
    var threatChart: Option<ChartData>
    var trendChart: Option<ChartData>
    /** Whether `document.getElementById` finds each canvas. */
    const hasThreatCanvas: bool
    const hasTrendCanvas: bool
    /** Bookkeeping of the model, not fields of the component: requests issued whose outcome has not arrived yet. */
    ghost var pendingHistory: nat
    ghost var pendingPosts: nat
    /** Every payload posted to the analysis endpoint, in order. */
    ghost var sentPayloads: seq<FormValues>
    /** Timer subscriptions not yet unsubscribed, and the next fresh handle. */
    ghost var liveSubscriptions: set<nat>
    var nextSubscription: nat

    ghost function State(): AppState
      reads this
    {
      AppState(form, formValue, result, threatHistory, loading, loadingHistory, autoRefresh, autoRefreshSubscription,
               riskScores, lastUpdated, threatChart, trendChart, pendingHistory, pendingPosts, sentPayloads,
               liveSubscriptions, nextSubscription)
    }

    /**
     * The value object agrees with the controls except perhaps on the
     * timestamp, handles are issued once, the risk table belongs to the
     * current history, and a chart that has been drawn shows the current history.
     */
    ghost predicate Valid()
      reads this
    {
      && formValue.(timestamp := form.timestamp) == form
      && HandlesIssued(liveSubscriptions, autoRefreshSubscription, nextSubscription)
      && ViewsMatch(threatHistory, riskScores, threatChart, trendChart)
      && (threatChart.Some? ==> hasThreatCanvas)
      && (trendChart.Some? ==> hasTrendCanvas)
    }

    /** Timer subscriptions still live but no longer held by the component. */
    ghost function Orphans(): set<nat>
      reads this
    {
      if autoRefreshSubscription.Some? then liveSubscriptions - {autoRefreshSubscription.value}
      else liveSubscriptions
    }

    /** Builds the form and starts the first history load. */
    constructor (threatCanvas: bool, trendCanvas: bool, clockText: string)
      ensures Valid()
      ensures hasThreatCanvas == threatCanvas && hasTrendCanvas == trendCanvas
      ensures State() == AppState(InitialForm(), InitialForm(), None, [], false, true, false, None, [], clockText,
                                  None, None, 1, 0, [], {}, 0)
    {
      form := InitialForm();
      formValue := InitialForm();
      result := None;
      threatHistory := [];
      loading := false;
      loadingHistory := false;
      autoRefresh := false;
      autoRefreshSubscription := None;
      riskScores := [];
      lastUpdated := clockText;
      threatChart := None;
      trendChart := None;
      hasThreatCanvas := threatCanvas;
      hasTrendCanvas := trendCanvas;
      pendingHistory := 0;
      pendingPosts := 0;
      sentPayloads := [];
      liveSubscriptions := {};
      nextSubscription := 0;
      new;
      LoadThreatHistory();
    }

    /** The user edits the form controls; the form group rebuilds its value object from them. */
    method EditForm(values: FormValues)
      requires Valid()
      modifies this
      ensures Valid()
      ensures State() == old(State()).(form := values, formValue := values)
    {
      form := values;
      formValue := values;
    }

    /** `loadThreatHistory`: raise the spinner and issue `GET /threats/`; no guard against one in flight. */
    method LoadThreatHistory()
      requires Valid()
      modifies this
      ensures Valid()
      ensures State() == old(State()).(loadingHistory := true, pendingHistory := old(pendingHistory) + 1)
    {
      loadingHistory := true;
      pendingHistory := pendingHistory + 1;
    }

    /**
     * The success callback of the history request: replace the history
     * wholesale, drop the spinner, stamp the time, recompute the risk table
     * and redraw every chart whose canvas exists.
     */
    method OnHistoryLoaded(data: seq<ThreatRecord>, clockText: string)
      requires Valid() && pendingHistory > 0
      modifies this
      ensures Valid()
      ensures threatHistory == data && !loadingHistory && lastUpdated == clockText
      ensures IsRiskTable(data, riskScores)
      ensures threatChart.Some? == hasThreatCanvas && trendChart.Some? == hasTrendCanvas
      ensures State() == old(State()).(threatHistory := data, loadingHistory := false, lastUpdated := clockText,
                                       riskScores := riskScores, threatChart := threatChart,
                                       trendChart := trendChart, pendingHistory := old(pendingHistory) - 1)
    {
      var scores := ComputeRiskScores(data);
      threatHistory, riskScores := data, scores;
      loadingHistory := false;
      pendingHistory := pendingHistory - 1;
      lastUpdated := clockText;
      ghost var stored := State();
      UpdateCharts();
      assert State() == stored.(threatChart := threatChart, trendChart := trendChart);
    }

    /** `updateCharts`: one bar chart by type and one line chart by day, each only if its canvas exists. */
    method UpdateCharts()
      requires threatChart.Some? ==> hasThreatCanvas
      requires trendChart.Some? ==> hasTrendCanvas
      modifies this
      ensures threatChart.Some? == hasThreatCanvas && trendChart.Some? == hasTrendCanvas
      ensures threatChart.Some? ==> IsFirstSeenHistogram(ThreatTypes(threatHistory), threatChart.value)
      ensures trendChart.Some? ==> IsDailySeries(DatePrefixes(threatHistory), trendChart.value)
      ensures State() == old(State()).(threatChart := threatChart, trendChart := trendChart)
    {
      if hasThreatCanvas {
        var chart := ThreatTypeChart(threatHistory);
        threatChart := Some(chart);
      }
      if hasTrendCanvas {
        var chart := TrendChart(threatHistory);
        trendChart := Some(chart);
      }
    }

    /** The error callback of the history request: only the spinner goes; history, scores and charts stay. */
    method OnHistoryError()
      requires Valid() && pendingHistory > 0
      modifies this
      ensures Valid()
      ensures State() == old(State()).(loadingHistory := false, pendingHistory := old(pendingHistory) - 1)
    {
      loadingHistory := false;
      pendingHistory := pendingHistory - 1;
    }

    /**
     * `submitThreat`: nothing happens on an invalid form; otherwise raise the
     * spinner, clear the result, write the timestamp padded and converted to
     * UTC into the value object itself (`toUtc` stands for
     * `new Date(..).toISOString()` without the `.000Z`) and post a copy of
     * it. The controls keep the local timestamp, so the form stays valid, and
     * a second submit without an edit converts the UTC text once more.
     */
    method SubmitThreat(toUtc: string -> string)
      requires Valid()
      modifies this
      ensures Valid()
      ensures !FormValid(old(form)) ==> State() == old(State())
      ensures FormValid(old(form)) ==>
                var sent := if old(formValue).timestamp == "" then old(formValue)
                            else old(formValue).(timestamp := toUtc(PadTimestamp(old(formValue).timestamp)));
                State() == old(State()).(formValue := sent, loading := true, result := None,
                                         pendingPosts := old(pendingPosts) + 1,
                                         sentPayloads := old(sentPayloads) + [sent])
    {
      if !FormValid(form) {
        return;
      }
      loading := true;
      result := None;
      var timestamp := formValue.timestamp;
      if timestamp != "" {
        timestamp := PadTimestamp(timestamp);
        formValue := formValue.(timestamp := toUtc(timestamp));
      }
      var payload := formValue;
      sentPayloads := sentPayloads + [payload];
      pendingPosts := pendingPosts + 1;
    }

    /** The success callback of the analysis request: show the result and reload the history. */
    method OnAnalyzeSuccess(response: AnalysisResult)
      requires Valid() && pendingPosts > 0
      modifies this
      ensures Valid()
      ensures State() == old(State()).(result := Some(response), loading := false,
                                       pendingPosts := old(pendingPosts) - 1,
                                       loadingHistory := true, pendingHistory := old(pendingHistory) + 1)
    {
      result := Some(response);
      loading := false;
      pendingPosts := pendingPosts - 1;
      LoadThreatHistory();
    }

    /** The error callback of the analysis request: only the spinner goes. */
    method OnAnalyzeError()
      requires Valid() && pendingPosts > 0
      modifies this
      ensures Valid()
      ensures State() == old(State()).(loading := false, pendingPosts := old(pendingPosts) - 1)
    {
      loading := false;
      pendingPosts := pendingPosts - 1;
    }

    /**
     * `toggleAutoRefresh`: when the flag is on, subscribe a fresh 10-second
     * timer and hold it, without cancelling one already held; when it is
     * off, unsubscribe the held timer, if any, and drop it.
     */
    method ToggleAutoRefresh()
      requires Valid()
      modifies this
      ensures Valid()
      ensures autoRefresh ==>
                State() == old(State()).(autoRefreshSubscription := Some(old(nextSubscription)),
                                         liveSubscriptions := old(liveSubscriptions) + {old(nextSubscription)},
                                         nextSubscription := old(nextSubscription) + 1)
      ensures !autoRefresh && old(autoRefreshSubscription).Some? ==>
                State() == old(State()).(autoRefreshSubscription := None,
                                         liveSubscriptions := old(liveSubscriptions) - {old(autoRefreshSubscription).value})
      ensures !autoRefresh && old(autoRefreshSubscription).None? ==> State() == old(State())
      ensures autoRefresh ==> Orphans() == old(liveSubscriptions)
      ensures !autoRefresh ==> Orphans() == old(Orphans())
    {
      if autoRefresh {
        autoRefreshSubscription := Some(nextSubscription);
        liveSubscriptions := liveSubscriptions + {nextSubscription};
        nextSubscription := nextSubscription + 1;
      } else {
        if autoRefreshSubscription.Some? {
          liveSubscriptions := liveSubscriptions - {autoRefreshSubscription.value};
          autoRefreshSubscription := None;
        }
      }
    }

    /** The checkbox: `[(ngModel)]` stores the new value, then `(change)` toggles. */
    method OnCheckboxChange(checked: bool)
      requires Valid()
      modifies this
      ensures Valid()
      ensures autoRefresh == checked
      ensures checked ==> autoRefreshSubscription == Some(old(nextSubscription))
      ensures !checked ==> autoRefreshSubscription.None?
      ensures checked ==> Orphans() == old(liveSubscriptions)
      ensures !checked ==> Orphans() == old(Orphans())
      ensures State() == old(State()).(autoRefresh := checked, autoRefreshSubscription := autoRefreshSubscription,
                                       liveSubscriptions := liveSubscriptions, nextSubscription := nextSubscription)
    {
      autoRefresh := checked;
      ToggleAutoRefresh();
    }

    /** A tick of a live timer reloads the history. */
    method OnRefreshTick(handle: nat)
      requires Valid() && handle in liveSubscriptions
      modifies this
      ensures Valid()
      ensures State() == old(State()).(loadingHistory := true, pendingHistory := old(pendingHistory) + 1)
    {
      LoadThreatHistory();
    }

    /** `ngOnDestroy`: unsubscribe the held timer, if any; the field keeps its value. */
    method NgOnDestroy()
      requires Valid()
      modifies this
      ensures Valid()
      ensures autoRefreshSubscription.Some? ==>
                State() == old(State()).(liveSubscriptions := old(liveSubscriptions) - {autoRefreshSubscription.value})
      ensures autoRefreshSubscription.None? ==> State() == old(State())
      ensures Orphans() == old(Orphans())
      ensures autoRefreshSubscription.Some? ==> autoRefreshSubscription.value !in liveSubscriptions
    {
      if autoRefreshSubscription.Some? {
        liveSubscriptions := liveSubscriptions - {autoRefreshSubscription.value};
      }
    }
  }

  /**
   * Enabling auto-refresh while a timer is held (the flag set again without
   * an intervening disable) leaves the earlier timer live but unreachable:
   * it keeps reloading the history and no later call can unsubscribe it.
   */
  method AutoRefreshLeak(app: AppComponent) returns (orphan: nat)
    requires app.Valid() && app.autoRefreshSubscription.Some?
    requires app.autoRefreshSubscription.value in app.liveSubscriptions
    modifies app
    ensures app.Valid()
    ensures orphan == old(app.autoRefreshSubscription).value
    ensures orphan in app.liveSubscriptions && orphan in app.Orphans()
    ensures app.autoRefreshSubscription != Some(orphan)
  {
    orphan := app.autoRefreshSubscription.value;
    app.autoRefresh := true;
    app.ToggleAutoRefresh();
  }

  /**
   * Submitting twice without an edit in between, the first answer having
   * arrived: the second post carries the first post's UTC text converted
   * again, as if it were local time (unpadded when it already has seconds).
   */
  method ResubmitConvertsTwice(app: AppComponent, toUtc: string -> string, response: AnalysisResult)
    returns (first: FormValues, second: FormValues)
    requires app.Valid() && FormValid(app.form) && app.formValue == app.form
    requires toUtc(PadTimestamp(app.form.timestamp)) != ""
    modifies app
    ensures app.Valid()
    ensures app.sentPayloads == old(app.sentPayloads) + [first, second]
    ensures first == old(app.form).(timestamp := toUtc(PadTimestamp(old(app.form).timestamp)))
    ensures second == first.(timestamp := toUtc(PadTimestamp(first.timestamp)))
    ensures |first.timestamp| != 16 ==> second.timestamp == toUtc(first.timestamp)
    ensures app.form == old(app.form)
  {
    app.SubmitThreat(toUtc);
    first := app.formValue;
    app.OnAnalyzeSuccess(response);
    app.SubmitThreat(toUtc);
    second := app.formValue;
  }

  /**
   * Driven by the checkbox alone, which alternates on and off, the component
   * never orphans a timer: with none orphaned and a timer held exactly while
   * the box is ticked, a click keeps both facts.
   */
  method CheckboxKeepsNoOrphans(app: AppComponent)
    requires app.Valid() && app.Orphans() == {}
    requires app.autoRefresh <==> app.autoRefreshSubscription.Some?
    modifies app
    ensures app.Valid() && app.Orphans() == {}
    ensures app.autoRefresh <==> app.autoRefreshSubscription.Some?
    ensures app.autoRefresh == !old(app.autoRefresh)
  {
    app.OnCheckboxChange(!app.autoRefresh);
  }
}
