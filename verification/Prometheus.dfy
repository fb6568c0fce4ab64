/** The metrics text of the DCGM simulator, and the part of the Prometheus text exposition format
    ("Text format details") needed to read it back. */
module Prometheus {
  import opened Options
  import opened Decimal
  import opened Health
  import opened HealthSources

  /** `s.replace(c, sub)`. */
  function ReplaceChar(s: string, c: char, sub: string): string {
    if s == "" then ""
    else (if s[0] == c then sub else [s[0]]) + ReplaceChar(s[1..], c, sub)
  }

  /** `prometheus_escape`: three replacements, one after the other. */
  function PrometheusEscape(value: string): string {
    ReplaceChar(ReplaceChar(ReplaceChar(value, '\\', "\\\\"), '\n', "\\n"), '"', "\\\"")
  }

  function EscapeChar(c: char): string {
    if c == '\\' then "\\\\" else if c == '\n' then "\\n" else if c == '"' then "\\\"" else [c]
  }

  /** Escaping every character once. */
  function EscapeOnce(s: string): string {
    if s == "" then "" else EscapeChar(s[0]) + EscapeOnce(s[1..])
  }

  lemma {:induction false} ReplaceConcat(s: string, t: string, c: char, sub: string)
    ensures ReplaceChar(s + t, c, sub) == ReplaceChar(s, c, sub) + ReplaceChar(t, c, sub)
  {
    if s == "" {
      assert s + t == t;
    } else {
      assert (s + t)[1..] == s[1..] + t;
      ReplaceConcat(s[1..], t, c, sub);
    }
  }

  lemma ReplaceSingle(a: char, c: char, sub: string)
    ensures ReplaceChar([a], c, sub) == if a == c then sub else [a]
  {
    assert [a][1..] == "";
  }

  lemma ReplacePair(a: char, b: char, c: char, sub: string)
    requires a != c && b != c
    ensures ReplaceChar([a, b], c, sub) == [a, b]
  {
    assert [a, b] == [a] + [b];
    ReplaceConcat([a], [b], c, sub);
    ReplaceSingle(a, c, sub);
    ReplaceSingle(b, c, sub);
  }

  lemma EscapeOfChar(c: char)
    ensures PrometheusEscape([c]) == EscapeChar(c)
  {
    ReplaceSingle(c, '\\', "\\\\");
    if c == '\\' {
      ReplacePair('\\', '\\', '\n', "\\n");
      ReplacePair('\\', '\\', '"', "\\\"");
    } else {
      ReplaceSingle(c, '\n', "\\n");
      if c == '\n' {
        ReplacePair('\\', 'n', '"', "\\\"");
      } else {
        ReplaceSingle(c, '"', "\\\"");
      }
    }
  }

  /** The three replacements do not interfere: together they escape every character once. */
  lemma {:induction false} SequentialIsOnePass(s: string)
    ensures PrometheusEscape(s) == EscapeOnce(s)
  {
    if s != "" {
      var head, tail := [s[0]], s[1..];
      assert s == head + tail;
      ReplaceConcat(head, tail, '\\', "\\\\");
      ReplaceConcat(ReplaceChar(head, '\\', "\\\\"), ReplaceChar(tail, '\\', "\\\\"), '\n', "\\n");
      ReplaceConcat(ReplaceChar(ReplaceChar(head, '\\', "\\\\"), '\n', "\\n"),
                    ReplaceChar(ReplaceChar(tail, '\\', "\\\\"), '\n', "\\n"), '"', "\\\"");
      EscapeOfChar(s[0]);
      SequentialIsOnePass(tail);
    }
  }

  /** Reading a label value after its opening quote, up to the closing quote: the value and what
      follows. Only the three escapes of the format are allowed, and no bare newline. */
  function ReadLabelValue(text: string): (r: Option<(string, string)>)
    ensures r.Some? ==> |r.value.1| < |text|
  {
    if text == "" || text[0] == '\n' then None
    else if text[0] == '"' then Some(("", text[1..]))
    else if text[0] == '\\' then
      if |text| < 2 || text[1] !in {'\\', 'n', '"'} then None
      else
        var rest := ReadLabelValue(text[2..]);
        if rest.None? then None
        else Some(([if text[1] == 'n' then '\n' else text[1]] + rest.value.0, rest.value.1))
    else
      var rest := ReadLabelValue(text[1..]);
      if rest.None? then None else Some(([text[0]] + rest.value.0, rest.value.1))
  }

  /** Unescaping inverts escaping, for every value and whatever follows the closing quote. */
  lemma {:induction false} EscapeRoundTrip(value: string, rest: string)
    ensures ReadLabelValue(PrometheusEscape(value) + "\"" + rest) == Some((value, rest))
  {
    SequentialIsOnePass(value);
    EscapeOnceRoundTrip(value, rest);
  }

  /** An escaped character is read back, in front of whatever can be read. */
  lemma ReadEscapedChar(c: char, tail: string, value: string, rest: string)
    requires ReadLabelValue(tail) == Some((value, rest))
    ensures ReadLabelValue(EscapeChar(c) + tail) == Some(([c] + value, rest))
  {
    var e := EscapeChar(c);
    var text := e + tail;
    assert text[|e|..] == tail;
    if c in {'\\', '\n', '"'} {
      assert text[0] == '\\' && text[1] == e[1] && text[2..] == tail;
    } else {
      assert text[0] == c && text[1..] == tail;
    }
  }

  lemma {:induction false} EscapeOnceRoundTrip(value: string, rest: string)
    ensures ReadLabelValue(EscapeOnce(value) + "\"" + rest) == Some((value, rest))
  {
    var text := EscapeOnce(value) + "\"" + rest;
    if value == "" {
      assert text[1..] == rest;
    } else {
      var tail := EscapeOnce(value[1..]) + "\"" + rest;
      EscapeOnceRoundTrip(value[1..], rest);
      ReadEscapedChar(value[0], tail, value[1..], rest);
      assert text == EscapeChar(value[0]) + tail;
      assert value == [value[0]] + value[1..];
    }
  }

  /** The text before the first `c`, and the text after it. */
  function SplitAt(text: string, c: char): (r: Option<(string, string)>)
    ensures r.Some? ==> |r.value.1| < |text|
  {
    if text == "" then None
    else if text[0] == c then Some(("", text[1..]))
    else
      var rest := SplitAt(text[1..], c);
      if rest.None? then None else Some(([text[0]] + rest.value.0, rest.value.1))
  }

  lemma {:induction false} SplitAtFirst(before: string, c: char, after: string)
    requires c !in before
    ensures SplitAt(before + [c] + after, c) == Some((before, after))
  {
    var text := before + [c] + after;
    if before == "" {
      assert text[1..] == after;
    } else {
      assert text[1..] == before[1..] + [c] + after;
      SplitAtFirst(before[1..], c, after);
      assert before == [before[0]] + before[1..];
    }
  }

  type Labels = seq<(string, string)>

  datatype Sample = Sample(name: string, labels: Labels, value: int)

  /** `name="value"` pairs after the opening brace, up to and including the closing brace. */
  function ReadLabels(text: string): (r: Option<(Labels, string)>)
    ensures r.Some? ==> |r.value.1| < |text|
    decreases |text|
  {
    match SplitAt(text, '=')
    case None => None
    case Some((name, quoted)) =>
      if quoted == "" || quoted[0] != '"' then None
      else
        match ReadLabelValue(quoted[1..])
        case None => None
        case Some((value, rest)) =>
          if rest == "" then None
          else if rest[0] == '}' then Some(([(name, value)], rest[1..]))
          else if rest[0] == ',' then
            match ReadLabels(rest[1..])
            case None => None
            case Some((more, end)) => Some(([(name, value)] + more, end))
          else None
  }

  /** One sample line. */
  function ReadSample(text: string): (r: Option<(Sample, string)>)
    ensures r.Some? ==> |r.value.1| < |text|
  {
    match SplitAt(text, '{')
    case None => None
    case Some((name, inner)) =>
      match ReadLabels(inner)
      case None => None
      case Some((labels, tail)) =>
        if tail == "" || tail[0] != ' ' then None
        else
          match SplitAt(tail[1..], '\n')
          case None => None
          case Some((digits, rest)) =>
            if ReadInt(digits).None? then None else Some((Sample(name, labels, ReadInt(digits).value), rest))
  }

  /** A whole page: comment lines are skipped. */
  function ReadMetrics(text: string): Option<seq<Sample>>
    decreases |text|, 0
  {
    if text == "" then Some([])
    else if text[0] == '#' then
      match SplitAt(text, '\n')
      case None => Some([])
      case Some((comment, rest)) => ReadMetrics(rest)
    else
      match ReadSample(text)
      case None => None
      case Some((sample, rest)) => AfterSample(sample, rest)
  }

  function AfterSample(sample: Sample, rest: string): Option<seq<Sample>>
    decreases |rest|, 1
  {
    match ReadMetrics(rest)
    case None => None
    case Some(more) => Some([sample] + more)
  }

  const METRIC_NAME: string := "DCGM_FI_DEV_XID_ERRORS"

  function Uuid(nodeName: string): string {
    "GPU-SIM-" + nodeName + "-0"
  }

  function Label(name: string, value: string): string {
    name + "=\"" + PrometheusEscape(value) + "\""
  }

  /** The labels of `render_metrics`, with the closing brace, in front of `end`. The fixed values need
      no escaping, so escaping them as well gives the same text. */
  function LabelsThen(nodeName: string, end: string): string {
    Label("gpu", "0") + "," + (Label("UUID", Uuid(nodeName)) + "," +
      (Label("device", "nvidia0") + "," + (Label("Hostname", nodeName) + "}" + end)))
  }

  function SampleLine(xid: int, nodeName: string): string {
    METRIC_NAME + "{" + LabelsThen(nodeName, " " + ShowInt(xid) + "\n")
  }

  const HELP_LINE: string := "# HELP " + METRIC_NAME + " Last observed NVIDIA " + "XID error."

  const TYPE_LINE: string := "# TYPE " + METRIC_NAME + " gauge"

  const ABSENT_LINE: string := "# DCGM XID " + "observation absent"

  /** `render_metrics`. */
  function RenderMetrics(xid: Option<int>, nodeName: string): string {
    match xid
    case None => ABSENT_LINE + "\n"
    case Some(x) => HELP_LINE + "\n" + (TYPE_LINE + "\n" + SampleLine(x, nodeName))
  }

  /** Reading one label, written with an escaped value. */
  lemma ReadOneLabel(name: string, value: string, mark: char, rest: string)
    requires '=' !in name && mark in {',', '}'}
    ensures var text := name + "=\"" + PrometheusEscape(value) + "\"" + [mark] + rest;
      (mark == '}' ==> ReadLabels(text) == Some(([(name, value)], rest))) &&
      (mark == ',' && ReadLabels(rest).Some? ==>
         ReadLabels(text) == Some(([(name, value)] + ReadLabels(rest).value.0, ReadLabels(rest).value.1)))
  {
    var text := name + "=\"" + PrometheusEscape(value) + "\"" + [mark] + rest;
    var quoted := "\"" + (PrometheusEscape(value) + "\"" + ([mark] + rest));
    assert text == name + ['='] + quoted;
    SplitAtFirst(name, '=', quoted);
    assert quoted[1..] == PrometheusEscape(value) + "\"" + ([mark] + rest);
    EscapeRoundTrip(value, [mark] + rest);
    assert ([mark] + rest)[1..] == rest;
  }

  function ExpectedLabels(nodeName: string): Labels {
    [("gpu", "0"), ("UUID", Uuid(nodeName)), ("device", "nvidia0"), ("Hostname", nodeName)]
  }

  lemma LabelNamesAreClean()
    ensures '=' !in "gpu" && '=' !in "UUID" && '=' !in "device" && '=' !in "Hostname"
    ensures '{' !in METRIC_NAME && METRIC_NAME[0] != '#'
  {
  }

  lemma HelpIsComment()
    ensures HELP_LINE != "" && HELP_LINE[0] == '#' && '\n' !in HELP_LINE
  {
    assert '\n' !in METRIC_NAME && '\n' !in "# HELP ";
    assert '\n' !in " Last observed NVIDIA " && '\n' !in "XID error.";
    assert HELP_LINE[0] == "# HELP "[0];
  }

  lemma TypeIsComment()
    ensures TYPE_LINE != "" && TYPE_LINE[0] == '#' && '\n' !in TYPE_LINE
  {
    assert '\n' !in METRIC_NAME && '\n' !in "# TYPE " && '\n' !in " gauge";
    assert TYPE_LINE[0] == "# TYPE "[0];
  }

  lemma AbsentIsComment()
    ensures ABSENT_LINE != "" && ABSENT_LINE[0] == '#' && '\n' !in ABSENT_LINE
  {
    assert '\n' !in "# DCGM XID " && '\n' !in "observation absent";
    assert ABSENT_LINE[0] == "# DCGM XID "[0];
  }

  lemma ReadLabelThen(name: string, value: string, rest: string, labels: Labels, end: string)
    requires '=' !in name && ReadLabels(rest) == Some((labels, end))
    ensures ReadLabels(Label(name, value) + "," + rest) == Some(([(name, value)] + labels, end))
  {
    ReadOneLabel(name, value, ',', rest);
  }

  lemma ReadFourLabels(n1: string, v1: string, n2: string, v2: string, n3: string, v3: string,
                       n4: string, v4: string, end: string)
    requires '=' !in n1 && '=' !in n2 && '=' !in n3 && '=' !in n4
    ensures ReadLabels(
        Label(n1, v1) + "," + (Label(n2, v2) + "," + (Label(n3, v3) + "," + (Label(n4, v4) + "}" + end)))) ==
      Some(([(n1, v1), (n2, v2), (n3, v3), (n4, v4)], end))
  {
    var last := Label(n4, v4) + "}" + end;
    assert ReadLabels(last) == Some(([(n4, v4)], end)) by {
      ReadOneLabel(n4, v4, '}', end);
    }
    ReadLabelThen(n3, v3, last, [(n4, v4)], end);
    var third := Label(n3, v3) + "," + last;
    ReadLabelThen(n2, v2, third, [(n3, v3)] + [(n4, v4)], end);
    var second := Label(n2, v2) + "," + third;
    ReadLabelThen(n1, v1, second, [(n2, v2)] + ([(n3, v3)] + [(n4, v4)]), end);
    assert [(n1, v1)] + ([(n2, v2)] + ([(n3, v3)] + [(n4, v4)])) == [(n1, v1), (n2, v2), (n3, v3), (n4, v4)];
  }

  lemma ReadRenderedLabels(nodeName: string, end: string)
    ensures ReadLabels(LabelsThen(nodeName, end)) == Some((ExpectedLabels(nodeName), end))
  {
    LabelNamesAreClean();
    ReadFourLabels("gpu", "0", "UUID", Uuid(nodeName), "device", "nvidia0", "Hostname", nodeName, end);
  }

  /** A sample line with these labels and this value reads back as such. */
  lemma ReadSampleOf(name: string, inner: string, labels: Labels, x: int)
    requires '{' !in name && ReadLabels(inner) == Some((labels, " " + ShowInt(x) + "\n"))
    ensures ReadSample(name + "{" + inner) == Some((Sample(name, labels, x), ""))
  {
    var digits := ShowInt(x);
    var end := " " + digits + "\n";
    assert SplitAt(name + "{" + inner, '{') == Some((name, inner)) by { SplitAtFirst(name, '{', inner); }
    ReadShownInt(x);
    assert SplitAt(end[1..], '\n') == Some((digits, "")) by {
      SplitAtFirst(digits, '\n', "");
      assert end[1..] == digits + ['\n'] + "";
    }
  }

  lemma ReadSampleLine(xid: int, nodeName: string)
    ensures ReadSample(SampleLine(xid, nodeName)) ==
      Some((Sample(METRIC_NAME, ExpectedLabels(nodeName), xid), ""))
  {
    LabelNamesAreClean();
    var end := " " + ShowInt(xid) + "\n";
    ReadRenderedLabels(nodeName, end);
    ReadSampleOf(METRIC_NAME, LabelsThen(nodeName, end), ExpectedLabels(nodeName), xid);
  }

  lemma CommentsAreSkipped(comment: string, rest: string)
    requires comment != "" && comment[0] == '#' && '\n' !in comment
    ensures ReadMetrics(comment + "\n" + rest) == ReadMetrics(rest)
  {
    SplitAtFirst(comment, '\n', rest);
  }

  lemma ReadPage(help: string, kind: string, line: string, sample: Sample)
    requires help != "" && help[0] == '#' && '\n' !in help && kind != "" && kind[0] == '#' && '\n' !in kind
    requires line != "" && line[0] != '#' && ReadSample(line) == Some((sample, ""))
    ensures ReadMetrics(help + "\n" + (kind + "\n" + line)) == Some([sample])
  {
    var page := kind + "\n" + line;
    assert ReadMetrics(line) == Some([sample]) by {
      ReadLoneSample(line, sample);
    }
    assert ReadMetrics(page) == Some([sample]) by {
      CommentsAreSkipped(kind, line);
    }
    CommentsAreSkipped(help, page);
  }

  lemma ReadLoneSample(line: string, sample: Sample)
    requires line != "" && line[0] != '#' && ReadSample(line) == Some((sample, ""))
    ensures ReadMetrics(line) == Some([sample])
  {
    NothingFollows(sample);
  }

  lemma NothingFollows(sample: Sample)
    ensures AfterSample(sample, "") == Some([sample])
  {
    assert ReadMetrics("") == Some([]);
    assert [sample] + [] == [sample];
  }

  /** Parsing what the simulator renders gives exactly one series with the original labels and value,
      for every node name and every value; an absent value gives no series. */
  lemma RenderRoundTrip(xid: Option<int>, nodeName: string)
    ensures ReadMetrics(RenderMetrics(xid, nodeName)) ==
      match xid
      case None => Some([])
      case Some(x) => Some([Sample("DCGM_FI_DEV_XID_ERRORS",
          [("gpu", "0"), ("UUID", "GPU-SIM-" + nodeName + "-0"), ("device", "nvidia0"), ("Hostname", nodeName)], x)])
  {
    LabelNamesAreClean();
    match xid
    case None =>
      AbsentIsComment();
      CommentsAreSkipped(ABSENT_LINE, "");
      assert ABSENT_LINE + "\n" + "" == ABSENT_LINE + "\n";
    case Some(x) =>
      var line := SampleLine(x, nodeName);
      HelpIsComment();
      TypeIsComment();
      ReadSampleLine(x, nodeName);
      assert line[0] == METRIC_NAME[0];
      ReadPage(HELP_LINE, TYPE_LINE, line, Sample(METRIC_NAME, ExpectedLabels(nodeName), x));
  }

  function LabelValue(labels: Labels, name: string): string {
    if labels == [] then ""
    else if labels[0].0 == name then labels[0].1
    else LabelValue(labels[1..], name)
  }

  /** What the classifier reads of a sample. */
  function SeriesOf(s: Sample): Series {
    Series(Some(Finite(s.value as real)), LabelValue(s.labels, "UUID"), LabelValue(s.labels, "device"))
  }

  function SeriesOfAll(samples: seq<Sample>): seq<Series> {
    seq(|samples|, i requires 0 <= i < |samples| => SeriesOf(samples[i]))
  }

  /** From the simulator to the classifier: the state the controller sees for a simulated value. */
  lemma SimulatedState(xid: Option<int>, nodeName: string)
    ensures ReadMetrics(RenderMetrics(xid, nodeName)).Some?
    ensures var series := SeriesOfAll(ReadMetrics(RenderMetrics(xid, nodeName)).value);
      XidState(series) ==
        (if xid.None? then Unknown
         else if xid.value == 0 then Healthy
         else if xid.value in {31, 43, 62, 79} then Degraded
         else Unknown) &&
      (xid.Some? ==> |series| == 1 && DeviceOf(series[0]) == "GPU-SIM-" + nodeName + "-0")
  {
    RenderRoundTrip(xid, nodeName);
    if xid.Some? {
      var sample := Sample(METRIC_NAME, ExpectedLabels(nodeName), xid.value);
      assert SeriesOfAll([sample]) == [SeriesOf(sample)];
      UuidIsRead(nodeName);
      SingleSeriesState(SeriesOf(sample), xid.value);
    }
  }

  /** And what the classifier says of it: state, reason and device. */
  lemma SimulatedEvidence(xid: Option<int>, nodeName: string, show: Float -> string, series: seq<Series>,
                          o: Observation)
    requires ReadMetrics(RenderMetrics(xid, nodeName)).Some?
    requires series == SeriesOfAll(ReadMetrics(RenderMetrics(xid, nodeName)).value)
    requires o.state == XidState(series) && Explained(Parsed(series), show, o)
    ensures (o.state, o.reason, o.device) ==
      match xid
      case None => (Unknown, "metric DCGM_FI_DEV_XID_ERRORS absent", "")
      case Some(x) =>
        if x == 0 then (Healthy, "xid-clear", "")
        else if x in {31, 43, 62, 79} then (Degraded, "critical-xid-" + Digits(x), "GPU-SIM-" + nodeName + "-0")
        else (Unknown, "unclassified XID values: " + show(Finite(x as real)), "")
  {
    match xid
    case None =>
      RenderRoundTrip(xid, nodeName);
    case Some(x) =>
      SimulatedSeries(x, nodeName, series);
      assert series == [series[0]];
      SingleEvidence(x, series[0], show, o);
  }

  /** The evidence of a single series with an integer value and an identified device. */
  lemma SingleEvidence(x: int, s: Series, show: Float -> string, o: Observation)
    requires s.value == Some(Finite(x as real)) && s.uuid != ""
    requires o.state == XidState([s]) && Explained(Parsed([s]), show, o)
    ensures (o.state, o.reason, o.device) ==
      if x == 0 then (Healthy, "xid-clear", "")
      else if x in {31, 43, 62, 79} then (Degraded, "critical-xid-" + Digits(x), s.uuid)
      else (Unknown, "unclassified XID values: " + show(Finite(x as real)), "")
  {
    SingleSeriesState(s, x);
    if o.state == Unknown {
      UnclassifiedOfOne(s, show);
    } else if o.state == Degraded {
      var m: nat, y: nat :| DecidedBy([s], m, y, o);
    }
  }

  lemma SimulatedSeries(x: int, nodeName: string, series: seq<Series>)
    requires ReadMetrics(RenderMetrics(Some(x), nodeName)).Some?
    requires series == SeriesOfAll(ReadMetrics(RenderMetrics(Some(x), nodeName)).value)
    ensures |series| == 1 && series[0].value == Some(Finite(x as real))
    ensures series[0].uuid == "GPU-SIM-" + nodeName + "-0"
  {
    RenderRoundTrip(Some(x), nodeName);
    UuidIsRead(nodeName);
  }

  lemma UuidIsRead(nodeName: string)
    ensures LabelValue(ExpectedLabels(nodeName), "UUID") == Uuid(nodeName)
  {
    var labels := ExpectedLabels(nodeName);
    assert "gpu" != "UUID" by { assert |"gpu"| == 3 && |"UUID"| == 4; }
    assert LabelValue(labels, "UUID") == LabelValue(labels[1..], "UUID");
  }

  lemma SingleSeriesState(s: Series, x: int)
    requires s.value == Some(Finite(x as real))
    ensures XidState([s]) ==
      if x == 0 then Healthy else if x in {31, 43, 62, 79} then Degraded else Unknown
  {
    assert [s][1..] == [];
    assert x as real == 31.0 <==> x == 31;
    assert x as real == 43.0 <==> x == 43;
    assert x as real == 62.0 <==> x == 62;
    assert x as real == 79.0 <==> x == 79;
    assert IsClear(s) <==> x == 0;
    assert IsCritical(s) <==> x in {31, 43, 62, 79};
    assert Scan([], false) == Healthy && Scan([], true) == Unknown;
  }
}
