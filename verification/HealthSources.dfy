/** The two health sources: annotations on the Node, and XID metrics scraped from a DCGM exporter. */
module HealthSources {
  import opened Options
  import opened Strings
  import opened Decimal
  import opened Health
  import opened Nodes

  /** `Annotation.Observe`, reading the clock at `now`. The parser's own error text is not modelled. */
  function ObserveAnnotations(tf: TimeFormat, a: Annotations, now: int): Observation {
    var fault := TrimSpace(Read(a, InjectedFault));
    var device := TrimSpace(Read(a, InjectedFaultDevice));
    if fault != "" then Observation(Degraded, "synthetic-annotation", fault, device, now)
    else
      var recovery := TrimSpace(Read(a, RecoveryConfirmed));
      if recovery != "" then
        match tf.parse(recovery)
        case None =>
          Observation(Unknown, "synthetic-annotation", "invalid recovery confirmation timestamp", device, now)
        case Some(confirmedAt) =>
          Observation(Healthy, "synthetic-annotation", "recovery-confirmed", device, confirmedAt)
      else Observation(Unknown, "synthetic-annotation", "no synthetic observation", "", now)
  }

  /** A fault always wins over a confirmation, and health needs an explicit, readable one; fault and device
      are reported as annotated, without the white space around them, and a confirmation with its time. */
  lemma AnnotationEvidence(tf: TimeFormat, a: Annotations, now: int)
    ensures FromSource(ObserveAnnotations(tf, a, now), now)
    ensures ObserveAnnotations(tf, a, now).state == Degraded <==> TrimSpace(Read(a, InjectedFault)) != ""
    ensures ObserveAnnotations(tf, a, now).state == Healthy <==>
      TrimSpace(Read(a, InjectedFault)) == "" && AnnotationTime(tf, a, RecoveryConfirmed).Some?
    ensures var o := ObserveAnnotations(tf, a, now);
      var confirmed := TrimSpace(Read(a, RecoveryConfirmed)) != "";
      o.source == "synthetic-annotation" &&
      o.device == (if o.state != Unknown || confirmed then TrimSpace(Read(a, InjectedFaultDevice)) else "") &&
      o.observedAt == (if o.state == Healthy then AnnotationTime(tf, a, RecoveryConfirmed).value else now) &&
      o.reason ==
        (if o.state == Degraded then TrimSpace(Read(a, InjectedFault))
         else if o.state == Healthy then "recovery-confirmed"
         else if confirmed then "invalid recovery confirmation timestamp" else "no synthetic observation")
  {
  }

  /** A metric value: a float64, with the values that are not numbers set apart. */
  datatype Float = Finite(value: real) | NotFinite(text: string)

  /** One series of the XID metric family, with the labels the classifier reads. */
  datatype Series = Series(value: Option<Float>, uuid: string, device: string)

  datatype Scrape = Unparsable | Parsed(series: seq<Series>)

  /** `xidPolicies`. */
  function Policy(value: Float): Option<(State, string)> {
    if value.NotFinite? then None
    else if value.value == 0.0 then Some((Healthy, "xid-clear"))
    else if value.value == 31.0 then Some((Degraded, "critical-xid-31"))
    else if value.value == 43.0 then Some((Degraded, "critical-xid-43"))
    else if value.value == 62.0 then Some((Degraded, "critical-xid-62"))
    else if value.value == 79.0 then Some((Degraded, "critical-xid-79"))
    else None
  }

  /** The table: zero is clear, four values are critical and say so in their reason, nothing else is listed. */
  lemma PolicyExactly(value: Float)
    ensures Policy(value) == Some((Healthy, "xid-clear")) <==> value == Finite(0.0)
    ensures forall x: nat :: x in {31, 43, 62, 79} ==>
      Policy(Finite(x as real)) == Some((Degraded, "critical-xid-" + Digits(x)))
    ensures Policy(value).Some? <==> value.Finite? && value.value in {0.0, 31.0, 43.0, 62.0, 79.0}
  {
    assert Digits(3) == "3" && Digits(4) == "4" && Digits(6) == "6" && Digits(7) == "7";
    assert Digits(31) == "31" && Digits(43) == "43" && Digits(62) == "62" && Digits(79) == "79";
    assert "critical-xid-" + "31" == "critical-xid-31" && "critical-xid-" + "43" == "critical-xid-43" &&
           "critical-xid-" + "62" == "critical-xid-62" && "critical-xid-" + "79" == "critical-xid-79";
  }

  predicate IsClear(s: Series) {
    s.value == Some(Finite(0.0))
  }

  predicate IsCritical(s: Series) {
    s.value.Some? && Policy(s.value.value).Some? && Policy(s.value.value).value.0 == Degraded
  }

  lemma CriticalExactly(s: Series) returns (x: nat)
    ensures IsCritical(s) <==> s.value.Some? && s.value.value.Finite? && s.value.value.value in {31.0, 43.0, 62.0, 79.0}
    ensures IsCritical(s) ==> x in {31, 43, 62, 79} && s.value == Some(Finite(x as real))
    ensures IsCritical(s) ==> Policy(s.value.value).value.1 == "critical-xid-" + Digits(x)
  {
    x := 0;
    if s.value.Some? {
      PolicyExactly(s.value.value);
      if IsCritical(s) {
        var v := s.value.value.value;
        x := if v == 31.0 then 31 else if v == 43.0 then 43 else if v == 62.0 then 62 else 79;
      }
    }
  }

  function DeviceOf(s: Series): string {
    if s.uuid == "" then s.device else s.uuid
  }

  /** The state a scan of the remaining series ends with, when it may have met unclassified values. */
  function Scan(series: seq<Series>, unclassified: bool): State {
    if series == [] then (if unclassified then Unknown else Healthy)
    else if series[0].value.None? then Unknown
    else if IsCritical(series[0]) then Degraded
    else Scan(series[1..], unclassified || !IsClear(series[0]))
  }

  function XidState(series: seq<Series>): State {
    if series == [] then Unknown else Scan(series, false)
  }

  /** The printed values of the series that no policy covers. */
  function Unclassified(series: seq<Series>, show: Float -> string): seq<string> {
    if series == [] then []
    else
      var rest := Unclassified(series[..|series| - 1], show);
      var last := series[|series| - 1];
      if last.value.Some? && Policy(last.value.value).None? then rest + [show(last.value.value)] else rest
  }

  /** `strings.Join(parts, ",")`. */
  function Join(parts: seq<string>): string {
    if |parts| == 0 then ""
    else if |parts| == 1 then parts[0]
    else parts[0] + "," + Join(parts[1..])
  }

  /** The laws of the list of unclassified values, and of joining. */
  lemma {:induction false} UnclassifiedOfParts(series: seq<Series>, more: seq<Series>, show: Float -> string)
    ensures Unclassified(series + more, show) == Unclassified(series, show) + Unclassified(more, show)
    decreases |more|
  {
    if more == [] {
      assert series + more == series;
    } else {
      UnclassifiedOfParts(series, more[..|more| - 1], show);
      assert (series + more)[..|series + more| - 1] == series + more[..|more| - 1];
    }
  }

  lemma UnclassifiedOfOne(s: Series, show: Float -> string)
    ensures Unclassified([s], show) ==
      match s.value
      case None => []
      case Some(NotFinite(text)) => [show(NotFinite(text))]
      case Some(Finite(v)) => if v in {0.0, 31.0, 43.0, 62.0, 79.0} then [] else [show(Finite(v))]
  {
    assert [s][..0] == [];
    if s.value.Some? {
      PolicyExactly(s.value.value);
    }
  }

  lemma {:induction false} JoinOfParts(parts: seq<string>, more: seq<string>)
    requires parts != [] && more != []
    ensures Join(parts + more) == Join(parts) + "," + Join(more)
    ensures |more| == 1 ==> Join(more) == more[0]
    decreases |parts|
  {
    if |parts| == 1 {
      assert (parts + more)[1..] == more;
    } else {
      JoinOfParts(parts[1..], more);
      assert (parts + more)[1..] == parts[1..] + more;
      assert parts[0] + "," + (Join(parts[1..]) + "," + Join(more)) == Join(parts) + "," + Join(more);
    }
  }

  /** `m` is the first critical series, and every series before it has a value. */
  ghost predicate FirstCritical(series: seq<Series>, m: nat) {
    m < |series| && IsCritical(series[m]) &&
    forall j :: 0 <= j < m ==> series[j].value.Some? && !IsCritical(series[j])
  }

  /** Series `m`, the first critical one, with the value `x`, explains `o`. */
  ghost predicate DecidedBy(series: seq<Series>, m: nat, x: nat, o: Observation) {
    FirstCritical(series, m) && x in {31, 43, 62, 79} && series[m].value == Some(Finite(x as real)) &&
    o.reason == "critical-xid-" + Digits(x) &&
    o.device == if series[m].uuid != "" then series[m].uuid else series[m].device
  }

  /** Reason and device of `o` are those of its state. */
  ghost predicate Explained(scrape: Scrape, show: Float -> string, o: Observation) {
    match o.state
    case Degraded => scrape.Parsed? && exists m: nat, x: nat :: DecidedBy(scrape.series, m, x, o)
    case Healthy => o.reason == "xid-clear" && o.device == ""
    case _ =>
      o.device == "" &&
      o.reason ==
        if scrape.Unparsable? then "parse DCGM metrics"
        else if scrape.series == [] then "metric DCGM_FI_DEV_XID_ERRORS absent"
        else if !AllNumeric(scrape.series) then "metric DCGM_FI_DEV_XID_ERRORS has no numeric value"
        else "unclassified XID values: " + Join(Unclassified(scrape.series, show))
  }

  lemma CriticalExplains(series: seq<Series>, show: Float -> string, m: nat, o: Observation)
    requires FirstCritical(series, m) && o.state == Degraded
    requires o.reason == Policy(series[m].value.value).value.1 && o.device == DeviceOf(series[m])
    ensures Explained(Parsed(series), show, o)
  {
    var x := CriticalExactly(series[m]);
    assert DecidedBy(series, m, x, o);
  }

  /** Otherwise a missing value explains `o`, or the values no policy covers do. */
  lemma BlankExplains(series: seq<Series>, show: Float -> string, m: nat, o: Observation)
    requires m < |series| && series[m].value.None? && o.state == Unknown && o.device == ""
    requires o.reason == "metric DCGM_FI_DEV_XID_ERRORS has no numeric value"
    ensures Explained(Parsed(series), show, o)
  {
  }

  /** The first `i` series neither decide the state nor lack a value; `unclassified` lists the printed
      values of those no policy covers. */
  ghost predicate Undecided(series: seq<Series>, show: Float -> string, i: nat, unclassified: seq<string>)
    requires i <= |series|
  {
    Scan(series, false) == Scan(series[i..], unclassified != []) &&
    (forall j :: 0 <= j < i ==> series[j].value.Some? && !IsCritical(series[j])) &&
    unclassified == Unclassified(series[..i], show)
  }

  /** A series without a value, or a critical one, decides. */
  lemma RoundDecides(series: seq<Series>, show: Float -> string, i: nat, unclassified: seq<string>)
    requires i < |series| && Undecided(series, show, i, unclassified)
    ensures series[i].value.None? ==> Scan(series, false) == Unknown
    ensures IsCritical(series[i]) ==> Scan(series, false) == Degraded && FirstCritical(series, i)
  {
    assert series[i..][0] == series[i];
  }

  /** Any other only adds to the list of unclassified values. */
  lemma RoundGoesOn(series: seq<Series>, show: Float -> string, i: nat, unclassified: seq<string>)
    requires i < |series| && Undecided(series, show, i, unclassified)
    requires series[i].value.Some? && !IsCritical(series[i])
    ensures Undecided(series, show, i + 1,
      unclassified + if Policy(series[i].value.value).None? then [show(series[i].value.value)] else [])
  {
    assert series[i..][0] == series[i] && series[i..][1..] == series[i + 1..];
    assert series[..i + 1][..i] == series[..i];
    assert IsClear(series[i]) <==> Policy(series[i].value.value).Some?;
  }

  lemma RoundsEnd(series: seq<Series>, show: Float -> string, unclassified: seq<string>)
    requires Undecided(series, show, |series|, unclassified)
    ensures Scan(series, false) == (if unclassified != [] then Unknown else Healthy)
    ensures unclassified == Unclassified(series, show)
  {
    assert series[..|series|] == series;
  }

  /** `EvaluateXIDMetrics`: a loop with early returns. `show` prints a value. */
  method EvaluateXIDMetrics(scrape: Scrape, observedAt: int, show: Float -> string) returns (o: Observation)
    ensures o.source == "dcgm" && o.observedAt == observedAt
    ensures scrape.Unparsable? ==> o.state == Unknown
    ensures scrape.Parsed? ==> o.state == XidState(scrape.series)
    ensures Explained(scrape, show, o)
  {
    if scrape.Unparsable? {
      return Observation(Unknown, "dcgm", "parse DCGM metrics", "", observedAt);
    }
    var series := scrape.series;
    if |series| == 0 {
      return Observation(Unknown, "dcgm", "metric DCGM_FI_DEV_XID_ERRORS absent", "", observedAt);
    }
    var unclassified: seq<string> := [];
    var i := 0;
    while i < |series|
      invariant 0 <= i <= |series| && Undecided(series, show, i, unclassified)
    {
      var metric := series[i];
      RoundDecides(series, show, i, unclassified);
      if metric.value.None? {
        o := Observation(Unknown, "dcgm", "metric DCGM_FI_DEV_XID_ERRORS has no numeric value", "", observedAt);
        BlankExplains(series, show, i, o);
        return o;
      }
      var policy := Policy(metric.value.value);
      if policy.None? {
        RoundGoesOn(series, show, i, unclassified);
        unclassified := unclassified + [show(metric.value.value)];
      } else if policy.value.0 == Degraded {
        o := Observation(Degraded, "dcgm", policy.value.1, DeviceOf(metric), observedAt);
        CriticalExplains(series, show, i, o);
        return o;
      } else {
        RoundGoesOn(series, show, i, unclassified);
        assert unclassified + [] == unclassified;
      }
      i := i + 1;
    }
    RoundsEnd(series, show, unclassified);
    if unclassified != [] {
      return Observation(Unknown, "dcgm", "unclassified XID values: " + Join(unclassified), "", observedAt);
    }
    return Observation(Healthy, "dcgm", "xid-clear", "", observedAt);
  }

  lemma {:induction false} ScanHealthyExactly(series: seq<Series>, unclassified: bool)
    ensures Scan(series, unclassified) == Healthy <==>
      !unclassified && forall i :: 0 <= i < |series| ==> IsClear(series[i])
  {
    if series != [] {
      ScanHealthyExactly(series[1..], unclassified || !IsClear(series[0]));
      assert forall i :: 0 < i < |series| ==> series[i] == series[1..][i - 1];
    }
  }

  /** Healthy exactly when there is a series and every one has the value zero. */
  lemma HealthyExactly(series: seq<Series>)
    ensures XidState(series) == Healthy <==> series != [] && forall i :: 0 <= i < |series| ==> IsClear(series[i])
  {
    ScanHealthyExactly(series, false);
  }

  /** Degraded exactly when a critical series comes before any series without a value. */
  lemma {:induction false} ScanDegradedExactly(series: seq<Series>, unclassified: bool)
    ensures Scan(series, unclassified) == Degraded <==> exists m: nat :: FirstCritical(series, m)
    decreases |series|
  {
    if series != [] {
      var rest := series[1..];
      ScanDegradedExactly(rest, unclassified || !IsClear(series[0]));
      assert forall i :: 0 < i < |series| ==> series[i] == rest[i - 1];
      if series[0].value.Some? && !IsCritical(series[0]) {
        forall m: nat | FirstCritical(rest, m)
          ensures FirstCritical(series, m + 1)
        {
        }
        forall m: nat | FirstCritical(series, m)
          ensures m > 0 && FirstCritical(rest, m - 1)
        {
        }
      } else if IsCritical(series[0]) {
        assert FirstCritical(series, 0);
      }
    }
  }

  /** Adding a series, anywhere, to a set that is not healthy makes it healthy only if it is the first
      series there is, and clear. */
  lemma InsertionHealsExactly(series: seq<Series>, at: nat, extra: Series)
    requires at <= |series| && XidState(series) != Healthy
    ensures XidState(series[..at] + [extra] + series[at..]) == Healthy <==> series == [] && IsClear(extra)
  {
    var more := series[..at] + [extra] + series[at..];
    HealthyExactly(series);
    HealthyExactly(more);
    assert more[at] == extra;
    if series != [] {
      var i :| 0 <= i < |series| && !IsClear(series[i]);
      assert more[if i < at then i else i + 1] == series[i];
    }
  }

  predicate AllNumeric(series: seq<Series>) {
    forall i :: 0 <= i < |series| ==> series[i].value.Some?
  }

  lemma {:induction false} FirstOfCritical(series: seq<Series>, k: nat) returns (m: nat)
    requires AllNumeric(series) && k < |series| && IsCritical(series[k])
    ensures FirstCritical(series, m)
  {
    m := 0;
    while !IsCritical(series[m])
      invariant m <= k && forall j :: 0 <= j < m ==> !IsCritical(series[j])
      decreases k - m
    {
      m := m + 1;
    }
  }

  predicate AllBlank(series: seq<Series>) {
    forall i :: 0 <= i < |series| ==> series[i].value.None?
  }

  /** The parser gives a family one type: gauges, counters and untyped metrics all have a value,
      summaries and histograms none. */
  predicate OneType(series: seq<Series>) {
    AllNumeric(series) || AllBlank(series)
  }

  /** For every family the parser can hand over, the resulting state depends only on which series there
      are, not on their order. */
  lemma OrderDoesNotMatter(series: seq<Series>, shuffled: seq<Series>)
    requires multiset(series) == multiset(shuffled) && OneType(series)
    ensures XidState(series) == XidState(shuffled)
  {
    SameMembers(series, shuffled);
    SameMembers(shuffled, series);
    assert |series| == |multiset(series)| == |shuffled|;
    if series != [] {
      if AllNumeric(series) {
        NumericState(series);
        NumericState(shuffled);
      } else {
        assert shuffled[0] in series;
      }
    }
  }

  lemma SameMembers(series: seq<Series>, shuffled: seq<Series>)
    requires multiset(series) == multiset(shuffled)
    ensures forall s :: s in series ==> s in shuffled
  {
    forall s | s in series
      ensures s in shuffled
    {
      assert s in multiset(series);
    }
  }

  lemma NumericState(series: seq<Series>)
    requires forall s :: s in series ==> s.value.Some?
    requires series != []
    ensures XidState(series) ==
      if exists s :: s in series && IsCritical(s) then Degraded
      else if forall s :: s in series ==> IsClear(s) then Healthy else Unknown
  {
    HealthyExactly(series);
    ScanDegradedExactly(series, false);
    ScanStates(series, false);
    if s :| s in series && IsCritical(s) {
      var k :| 0 <= k < |series| && series[k] == s;
      var m := FirstOfCritical(series, k);
    }
  }

  lemma {:induction false} ScanStates(series: seq<Series>, unclassified: bool)
    ensures Scan(series, unclassified) in {Healthy, Degraded, Unknown}
  {
    if series != [] {
      ScanStates(series[1..], unclassified || !IsClear(series[0]));
    }
  }

  /** For lists that mix series with and without a value, which no parsed family is, the order would
      matter. */
  lemma OrderMattersWithoutValues()
    ensures var critical := Series(Some(Finite(79.0)), "", "");
      var blank := Series(None, "", "");
      XidState([critical, blank]) == Degraded && XidState([blank, critical]) == Unknown
  {
  }

  /** Metric evidence meets the assumption the controller's theorems make about sources. */
  lemma MetricEvidence(o: Observation, read: int)
    requires o.observedAt == read && (o.state == Unknown || exists series :: o.state == XidState(series))
    ensures FromMetrics(o, read)
  {
    if series :| o.state == XidState(series) {
      ScanStates(series, false);
    }
  }
}
