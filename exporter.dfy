/** The mock CSP exporter: the customer table, the per-customer emission
    rules of `generate_metrics`, its `_fmt` line and the `do_GET` router.
    What the clock, `sin` and `random.uniform` contribute to each `_wave`
    call, and the day of the month each customer's block reads, are
    parameters. */
module MetricsExporter {
  import opened Wrappers
  import opened Text
  import opened Numerals
  import opened Exposition

  // ---------------------------------------------------------------------
  // Customer table
  // ---------------------------------------------------------------------

  datatype ExportServer = ExportServer(resourceId: string, instanceType: string)

  datatype Customer = Customer(customerId: string, name: string, csp: string, region: string,
                               servers: seq<ExportServer>,
                               cpuBase: real, cpuAmp: real, memBase: real, memAmp: real, costScale: real)

  /** `CUSTOMERS`, in the order the payload lists them. */
  const CUSTOMERS: seq<Customer> := [
    Customer("alpha", "Alpha Corp", "aws", "ap-northeast-2",
             [ExportServer("web-01", "t3.medium"), ExportServer("web-02", "t3.medium"), ExportServer("db-01", "r5.large")],
             35.0, 15.0, 50.0, 10.0, 1.0),
    Customer("beta", "Beta Inc", "aws", "ap-northeast-2",
             [ExportServer("app-01", "c5.xlarge"), ExportServer("app-02", "c5.xlarge")],
             78.0, 7.0, 65.0, 10.0, 1.4),
    Customer("gamma", "Gamma LLC", "aws", "us-east-1",
             [ExportServer("web-01", "m5.xlarge"), ExportServer("api-01", "m5.xlarge"),
              ExportServer("db-01", "r5.2xlarge"), ExportServer("batch-01", "c5.2xlarge")],
             45.0, 20.0, 60.0, 15.0, 3.2),
    Customer("delta", "Delta Co", "aws", "ap-northeast-2",
             [ExportServer("web-01", "t3.small"), ExportServer("db-01", "t3.medium")],
             25.0, 10.0, 40.0, 8.0, 0.5),
    Customer("epsilon", "Epsilon Ltd", "aws", "ap-northeast-2",
             [ExportServer("web-01", "t3.medium"), ExportServer("web-02", "t3.medium"), ExportServer("db-01", "r5.large")],
             12.0, 5.0, 20.0, 5.0, 1.1)
  ]

  datatype Service = Service(name: string, baseDaily: real)

  /** `SERVICE_COSTS`, in insertion order: base daily cost in USD. */
  const SERVICE_COSTS: seq<Service> := [Service("AmazonEC2", 8.50), Service("AmazonS3", 2.30), Service("AmazonRDS", 6.80)]

  // ---------------------------------------------------------------------
  // `_wave`
  // ---------------------------------------------------------------------

  /** What the clock (through `sin`) and `random.uniform` contribute to one call. */
  datatype WaveDraw = WaveDraw(sine: real, noise: real)

  /** A draw `_wave` can make: a sine in [-1, 1] and noise within a fifth
      of the amplitude. */
  predicate DrawFits(amplitude: real, d: WaveDraw)
  {
    -1.0 <= d.sine <= 1.0 && -(amplitude * 0.2) <= d.noise <= amplitude * 0.2
  }

  /** `_wave`: base plus amplitude times the sine plus the noise, cut off
      at zero. */
  function Wave(base: real, amplitude: real, d: WaveDraw): (r: real)
    ensures r >= 0.0
  {
    Max(0.0, base + amplitude * d.sine + d.noise)
  }

  lemma MulBetween(a: real, s: real)
    requires a >= 0.0 && -1.0 <= s <= 1.0
    ensures -a <= a * s <= a
  {
    assert a * (1.0 - s) >= 0.0 && a * (1.0 + s) >= 0.0;
  }

  /** A wave stays within 1.2 amplitudes of its base, and never below zero. */
  lemma WaveBounds(base: real, amplitude: real, d: WaveDraw)
    requires amplitude >= 0.0 && DrawFits(amplitude, d)
    ensures Max(0.0, base - 1.2 * amplitude) <= Wave(base, amplitude, d) <= Max(0.0, base + 1.2 * amplitude)
  {
    MulBetween(amplitude, d.sine);
  }

  /** Which `_wave` call a draw belongs to. */
  datatype Signal = Cpu | Memory | NetIn | NetOut | DiskRead | DiskWrite

  datatype WaveCall =
    | ServerWave(customer: nat, server: nat, signal: Signal)
    | CostWave(customer: nat, service: nat)
    | ScrapeWave(customer: nat)

  // ---------------------------------------------------------------------
  // `_fmt`
  // ---------------------------------------------------------------------

  /** The line `_fmt` writes, before it is written out: labels in insertion
      order, the value with four decimals, no timestamp. */
  function FmtSample(name: string, labels: seq<Label>, value: real): Sample
  {
    Sample(name, labels, FixedPoint(value, 4), None)
  }

  /** `_fmt(name, labels, value)`: the name and the label segment, then a
      space and the four-decimal value, with nothing after it. */
  function Fmt(name: string, labels: seq<Label>, value: real): (line: string)
    ensures name + ['{'] <= line
    ensures EndsWith(line, " " + FixedPoint(value, 4))
  {
    assert " " + FixedPoint(value, 4) + TimestampText(None) == " " + FixedPoint(value, 4);
    Render(FmtSample(name, labels, value))
  }

  lemma FixedPointClean(v: real)
    ensures ' ' !in FixedPoint(v, 4) && '\n' !in FixedPoint(v, 4)
  {
    FixedPointNumber(v, 4);
    var t := FixedPoint(v, 4);
    forall i | 0 <= i < |t| ensures t[i] != ' ' && t[i] != '\n' { }
  }

  /** An `_fmt` line reads back as the name, the labels in the order given,
      and a value with four decimals within half a unit in the last place
      of the number; there is no timestamp. */
  lemma FmtReadsBack(name: string, labels: seq<Label>, value: real)
    requires '{' !in name && '\n' !in name && CleanLabels(labels)
    ensures var p := ParseLine(Fmt(name, labels, value));
      && p.Some? && p.value.name == name && p.value.labels == labels && p.value.timestamp == None
      && FractionDigits(p.value.value) == 4
      && var d := ParseFixed(p.value.value);
         && d.Some? && d.value.places == 4
         && -0.5 <= d.value.units as real - Scale(value, 4) <= 0.5
  {
    FixedPointClean(value);
    ParseRender(Fmt(name, labels, value), FmtSample(name, labels, value));
    FixedPointRoundTrip(value, 4);
    FixedPointAccuracy(value, 4);
  }

  // ---------------------------------------------------------------------
  // Label sets
  // ---------------------------------------------------------------------

  function BaseLabels(c: Customer, s: ExportServer): seq<Label>
  {
    [Label("customer_id", c.customerId), Label("csp", c.csp), Label("region", c.region), Label("resource_id", s.resourceId)]
  }

  /** `{**base_labels, "instance_type": itype}`. */
  function FullLabels(c: Customer, s: ExportServer): seq<Label>
  {
    BaseLabels(c, s) + [Label("instance_type", s.instanceType)]
  }

  function CustomerLabels(c: Customer): seq<Label>
  {
    [Label("customer_id", c.customerId), Label("csp", c.csp)]
  }

  function CostLabels(c: Customer, s: Service): seq<Label>
  {
    CustomerLabels(c) + [Label("service", s.name)]
  }

  /** The CPU labels are the four base labels in order with `instance_type`
      appended last; the two sets agree on every base key. */
  lemma FullLabelsExtendBase(c: Customer, s: ExportServer)
    ensures |FullLabels(c, s)| == 5 && FullLabels(c, s)[..4] == BaseLabels(c, s)
    ensures FullLabels(c, s)[4] == Label("instance_type", s.instanceType)
    ensures forall i :: 0 <= i < 4 ==> FullLabels(c, s)[i].key != "instance_type"
  {
  }

  // ---------------------------------------------------------------------
  // The emission rules
  // ---------------------------------------------------------------------

  /** The six readings of one server. */
  datatype ServerReadings = ServerReadings(cpu: real, mem: real, netIn: real, netOut: real, diskRead: real, diskWrite: real)

  /** The readings of server `si` of customer `ci`, as `generate_metrics`
      derives them from its draws: whatever the draws, utilisations lie in
      [0, 100] and the byte gauges are never negative. */
  function ReadingsOf(ci: nat, c: Customer, si: nat, draw: WaveCall -> WaveDraw): (r: ServerReadings)
    ensures 0.0 <= r.cpu <= 100.0 && 0.0 <= r.mem <= 100.0
    ensures r.netIn >= 0.0 && r.netOut >= 0.0 && r.diskRead >= 0.0 && r.diskWrite >= 0.0
  {
    ServerReadings(
      Min(100.0, Max(0.0, Wave(c.cpuBase, c.cpuAmp, draw(ServerWave(ci, si, Cpu))))),
      Min(100.0, Max(0.0, Wave(c.memBase, c.memAmp, draw(ServerWave(ci, si, Memory))))),
      Wave(5000000.0, 2000000.0, draw(ServerWave(ci, si, NetIn))),
      Wave(3000000.0, 1500000.0, draw(ServerWave(ci, si, NetOut))),
      Wave(1000000.0, 500000.0, draw(ServerWave(ci, si, DiskRead))),
      Wave(800000.0, 400000.0, draw(ServerWave(ci, si, DiskWrite))))
  }

  /** The six lines of one server. */
  function ServerRow(ci: nat, c: Customer, si: nat, draw: WaveCall -> WaveDraw): (ss: seq<Sample>)
    requires si < |c.servers|
    ensures |ss| == 6
  {
    var s := c.servers[si];
    var bl := BaseLabels(c, s);
    var r := ReadingsOf(ci, c, si, draw);
    [FmtSample("msp_csp_cpu_utilization", FullLabels(c, s), r.cpu),
     FmtSample("msp_csp_memory_utilization", bl, r.mem),
     FmtSample("msp_csp_network_in_bytes", bl, r.netIn),
     FmtSample("msp_csp_network_out_bytes", bl, r.netOut),
     FmtSample("msp_csp_disk_read_bytes", bl, r.diskRead),
     FmtSample("msp_csp_disk_write_bytes", bl, r.diskWrite)]
  }

  /** The lines of the first `upto` servers of a customer. */
  function ServerRows(ci: nat, c: Customer, draw: WaveCall -> WaveDraw, upto: nat): (ss: seq<Sample>)
    requires upto <= |c.servers|
    ensures |ss| == 6 * upto
  {
    if upto == 0 then [] else ServerRows(ci, c, draw, upto - 1) + ServerRow(ci, c, upto - 1, draw)
  }

  /** Servers reported running: one fewer than the total for "epsilon",
      whose fleet has one stopped server. */
  function RunningCount(c: Customer): (running: int)
    ensures |c.servers| - 1 <= running <= |c.servers|
    ensures running < |c.servers| <==> c.customerId == "epsilon"
  {
    if c.customerId == "epsilon" then |c.servers| - 1 else |c.servers|
  }

  /** Every customer of the table has no more servers running than it has,
      and at least none; only "epsilon" has fewer. */
  lemma RunningAtMostTotal(i: nat)
    requires i < |CUSTOMERS|
    ensures 0 <= RunningCount(CUSTOMERS[i]) <= |CUSTOMERS[i].servers|
    ensures RunningCount(CUSTOMERS[i]) < |CUSTOMERS[i].servers| <==> CUSTOMERS[i].customerId == "epsilon"
  {
  }

  /** The daily cost of service `k` for customer `ci`: a wave around the
      base daily cost scaled by the customer, with a tenth of it as
      amplitude. */
  function Daily(ci: nat, c: Customer, k: nat, draw: WaveCall -> WaveDraw): (r: real)
    requires k < |SERVICE_COSTS|
    ensures r >= 0.0
  {
    var b := SERVICE_COSTS[k].baseDaily * c.costScale;
    Wave(b, b * 0.1, draw(CostWave(ci, k)))
  }

  /** A daily cost projected over the days of the month so far. */
  function Monthly(daily: real, day: nat): real
  {
    daily * day as real
  }

  /** `monthly_total` after the first `upto` services: the running sum of
      each daily cost times the day of the month. */
  function MonthlyTotal(ci: nat, c: Customer, draw: WaveCall -> WaveDraw, day: nat, upto: nat): (total: real)
    requires upto <= |SERVICE_COSTS|
    ensures total >= 0.0
  {
    if upto == 0 then 0.0
    else
      var daily := Daily(ci, c, upto - 1, draw);
      assert Monthly(daily, day) >= 0.0;
      MonthlyTotal(ci, c, draw, day, upto - 1) + Monthly(daily, day)
  }

  /** The daily costs of the first `upto` services added up. */
  function DailySum(ci: nat, c: Customer, draw: WaveCall -> WaveDraw, upto: nat): real
    requires upto <= |SERVICE_COSTS|
  {
    if upto == 0 then 0.0 else DailySum(ci, c, draw, upto - 1) + Daily(ci, c, upto - 1, draw)
  }

  /** The monthly total is the sum of the daily costs times the day of the
      month, and so never negative. */
  lemma {:induction false} MonthlyTotalIsDailySum(ci: nat, c: Customer, draw: WaveCall -> WaveDraw, day: nat, upto: nat)
    requires upto <= |SERVICE_COSTS|
    ensures MonthlyTotal(ci, c, draw, day, upto) == DailySum(ci, c, draw, upto) * day as real
    ensures MonthlyTotal(ci, c, draw, day, upto) >= 0.0
  {
    if upto > 0 {
      MonthlyTotalIsDailySum(ci, c, draw, day, upto - 1);
      var d := Daily(ci, c, upto - 1, draw);
      assert (DailySum(ci, c, draw, upto - 1) + d) * day as real
          == DailySum(ci, c, draw, upto - 1) * day as real + d * day as real;
      assert d * day as real >= 0.0;
    }
  }

  /** The daily and monthly lines of the first `upto` services. */
  function CostRows(ci: nat, c: Customer, draw: WaveCall -> WaveDraw, day: nat, upto: nat): (ss: seq<Sample>)
    requires upto <= |SERVICE_COSTS|
    ensures |ss| == 2 * upto
  {
    if upto == 0 then []
    else
      CostRows(ci, c, draw, day, upto - 1) + CostPair(ci, c, draw, day, upto - 1)
  }

  /** The daily and monthly lines of service `k`. */
  function CostPair(ci: nat, c: Customer, draw: WaveCall -> WaveDraw, day: nat, k: nat): seq<Sample>
    requires k < |SERVICE_COSTS|
  {
    var labels := CostLabels(c, SERVICE_COSTS[k]);
    [FmtSample("msp_csp_cost_daily", labels, Daily(ci, c, k, draw)),
     FmtSample("msp_csp_cost_monthly", labels, Monthly(Daily(ci, c, k, draw), day))]
  }

  lemma CostRowsStep(ci: nat, c: Customer, draw: WaveCall -> WaveDraw, day: nat, k: nat)
    requires k < |SERVICE_COSTS|
    ensures CostRows(ci, c, draw, day, k + 1) == CostRows(ci, c, draw, day, k) + CostPair(ci, c, draw, day, k)
  {
  }

  lemma MonthlyTotalStep(ci: nat, c: Customer, draw: WaveCall -> WaveDraw, day: nat, k: nat)
    requires k < |SERVICE_COSTS|
    ensures MonthlyTotal(ci, c, draw, day, k + 1) == MonthlyTotal(ci, c, draw, day, k) + Monthly(Daily(ci, c, k, draw), day)
  {
  }

  /** The two instance lines. */
  function InstanceRows(c: Customer): seq<Sample>
  {
    [FmtSample("msp_csp_instance_count", CustomerLabels(c), |c.servers| as real),
     FmtSample("msp_csp_instance_running", CustomerLabels(c), RunningCount(c) as real)]
  }

  /** The monthly total, then the two collector health lines. */
  function ClosingRows(ci: nat, c: Customer, draw: WaveCall -> WaveDraw, day: nat): seq<Sample>
  {
    [FmtSample("msp_csp_cost_monthly_total", CustomerLabels(c), MonthlyTotal(ci, c, draw, day, |SERVICE_COSTS|)),
     FmtSample("msp_collector_up", CustomerLabels(c), 1.0),
     FmtSample("msp_collector_last_scrape_duration_seconds", CustomerLabels(c), Wave(0.8, 0.3, draw(ScrapeWave(ci))))]
  }

  /** Everything customer `ci` emits: six lines per server, two instance
      lines, two per service, the monthly total and two health lines. */
  function CustomerSamples(ci: nat, c: Customer, draw: WaveCall -> WaveDraw, day: nat): (ss: seq<Sample>)
    ensures |ss| == 6 * |c.servers| + 11
  {
    ServerRows(ci, c, draw, |c.servers|) + InstanceRows(c)
      + CostRows(ci, c, draw, day, |SERVICE_COSTS|) + ClosingRows(ci, c, draw, day)
  }

  /** The lines of the first `upto` customers. */
  function ExportSamples(draw: WaveCall -> WaveDraw, days: nat -> nat, upto: nat): (ss: seq<Sample>)
    requires upto <= |CUSTOMERS|
    ensures |ss| == ExportLineCount(upto)
  {
    if upto == 0 then []
    else ExportSamples(draw, days, upto - 1) + CustomerSamples(upto - 1, CUSTOMERS[upto - 1], draw, days(upto - 1))
  }

  function ExportLineCount(upto: nat): nat
    requires upto <= |CUSTOMERS|
  {
    if upto == 0 then 0 else ExportLineCount(upto - 1) + 6 * |CUSTOMERS[upto - 1].servers| + 11
  }

  /** The five customers and their fourteen servers give 139 lines. */
  lemma ExportLineTotal()
    ensures ExportLineCount(|CUSTOMERS|) == 139
  {
    assert ExportLineCount(1) == 29;
    assert ExportLineCount(2) == 52;
    assert ExportLineCount(3) == 87;
    assert ExportLineCount(4) == 110;
  }

  /** None of the exporter's label sets repeats a key. */
  lemma LabelSetsDistinct(c: Customer, s: ExportServer, sv: Service)
    ensures DistinctKeys(BaseLabels(c, s)) && DistinctKeys(FullLabels(c, s))
    ensures DistinctKeys(CustomerLabels(c)) && DistinctKeys(CostLabels(c, sv))
  {
    assert "customer_id"[0] != "resource_id"[0];
  }

  /** No line of a server's six repeats a label key. */
  lemma ServerRowDistinct(ci: nat, c: Customer, si: nat, draw: WaveCall -> WaveDraw)
    requires si < |c.servers|
    ensures AllDistinctKeys(ServerRow(ci, c, si, draw))
  {
    LabelSetsDistinct(c, c.servers[si], SERVICE_COSTS[0]);
  }

  lemma ServerRowsStep(ci: nat, c: Customer, draw: WaveCall -> WaveDraw, k: nat)
    requires k < |c.servers|
    ensures ServerRows(ci, c, draw, k + 1) == ServerRows(ci, c, draw, k) + ServerRow(ci, c, k, draw)
  {
  }

  lemma {:induction false} ServerRowsDistinct(ci: nat, c: Customer, draw: WaveCall -> WaveDraw, upto: nat)
    requires upto <= |c.servers|
    ensures AllDistinctKeys(ServerRows(ci, c, draw, upto))
  {
    if upto > 0 {
      ServerRowsDistinct(ci, c, draw, upto - 1);
      ServerRowDistinct(ci, c, upto - 1, draw);
      ServerRowsStep(ci, c, draw, upto - 1);
      AllDistinctKeysAppend(ServerRows(ci, c, draw, upto - 1), ServerRow(ci, c, upto - 1, draw));
    }
  }

  lemma {:induction false} CostRowsDistinct(ci: nat, c: Customer, draw: WaveCall -> WaveDraw, day: nat, upto: nat)
    requires upto <= |SERVICE_COSTS|
    ensures AllDistinctKeys(CostRows(ci, c, draw, day, upto))
  {
    if upto > 0 {
      CostRowsDistinct(ci, c, draw, day, upto - 1);
      LabelSetsDistinct(c, ExportServer("", ""), SERVICE_COSTS[upto - 1]);
      assert AllDistinctKeys(CostPair(ci, c, draw, day, upto - 1));
      AllDistinctKeysAppend(CostRows(ci, c, draw, day, upto - 1), CostPair(ci, c, draw, day, upto - 1));
    }
  }

  /** The instance, monthly-total and health lines repeat no label key. */
  lemma CustomerRowsDistinct(ci: nat, c: Customer, draw: WaveCall -> WaveDraw, day: nat)
    ensures AllDistinctKeys(InstanceRows(c)) && AllDistinctKeys(ClosingRows(ci, c, draw, day))
  {
    LabelSetsDistinct(c, ExportServer("", ""), SERVICE_COSTS[0]);
  }

  /** No line a customer emits repeats a label key. */
  lemma CustomerSamplesDistinct(ci: nat, c: Customer, draw: WaveCall -> WaveDraw, day: nat)
    ensures AllDistinctKeys(CustomerSamples(ci, c, draw, day))
  {
    var servers := ServerRows(ci, c, draw, |c.servers|);
    var instances := InstanceRows(c);
    var costs := CostRows(ci, c, draw, day, |SERVICE_COSTS|);
    var closing := ClosingRows(ci, c, draw, day);
    ServerRowsDistinct(ci, c, draw, |c.servers|);
    CostRowsDistinct(ci, c, draw, day, |SERVICE_COSTS|);
    CustomerRowsDistinct(ci, c, draw, day);
    AllDistinctKeysAppend(servers, instances);
    AllDistinctKeysAppend(servers + instances, costs);
    AllDistinctKeysAppend(servers + instances + costs, closing);
    assert CustomerSamples(ci, c, draw, day) == servers + instances + costs + closing;
  }

  /** The text `generate_metrics` returns: every line, newline-terminated. */
  function ExportPayload(draw: WaveCall -> WaveDraw, days: nat -> nat): string
  {
    Payload(RenderAll(ExportSamples(draw, days, |CUSTOMERS|)))
  }

  // ---------------------------------------------------------------------
  // `generate_metrics`
  // ---------------------------------------------------------------------

  /** `generate_metrics`: for every customer in order, its server lines,
      instance lines, cost lines with the running monthly total, and health
      lines, joined by newlines with a trailing newline. `days(ci)` is the
      day of the month read during customer `ci`'s block. */
  method GenerateMetrics(draw: WaveCall -> WaveDraw, days: nat -> nat) returns (payload: string)
    ensures payload == ExportPayload(draw, days)
  {
    var lines: seq<string> := [];
    for ci := 0 to |CUSTOMERS|
      invariant lines == RenderAll(ExportSamples(draw, days, ci))
    {
      var block := CustomerLines(ci, CUSTOMERS[ci], draw, days(ci));
      RenderAllAppend(ExportSamples(draw, days, ci), CustomerSamples(ci, CUSTOMERS[ci], draw, days(ci)));
      lines := lines + block;
    }
    payload := Join(lines, '\n') + "\n";
  }

  /** The body of `generate_metrics`'s customer loop: the server lines,
      the instance lines, the cost lines, then the monthly total and the
      health lines. */
  method CustomerLines(ci: nat, cust: Customer, draw: WaveCall -> WaveDraw, day: nat) returns (lines: seq<string>)
    ensures lines == RenderAll(CustomerSamples(ci, cust, draw, day))
  {
    var serverLines := ServerLines(ci, cust, draw);
    var custLabels := CustomerLabels(cust);
    var total := |cust.servers|;
    var running := if cust.customerId == "epsilon" then total - 1 else total;
    var instanceLines := [Fmt("msp_csp_instance_count", custLabels, total as real),
                          Fmt("msp_csp_instance_running", custLabels, running as real)];
    var costLines, monthlyTotal := CostLines(ci, cust, draw, day);
    var closingLines := [Fmt("msp_csp_cost_monthly_total", custLabels, monthlyTotal),
                         Fmt("msp_collector_up", custLabels, 1.0),
                         Fmt("msp_collector_last_scrape_duration_seconds", custLabels, Wave(0.8, 0.3, draw(ScrapeWave(ci))))];
    lines := serverLines + instanceLines + costLines + closingLines;
    assert running == RunningCount(cust);
    InstanceRowsText(cust);
    ClosingRowsText(ci, cust, draw, day);
    CustomerSamplesParts(ci, cust, draw, day);
  }

  lemma InstanceRowsText(c: Customer)
    ensures RenderAll(InstanceRows(c))
         == [Fmt("msp_csp_instance_count", CustomerLabels(c), |c.servers| as real),
             Fmt("msp_csp_instance_running", CustomerLabels(c), RunningCount(c) as real)]
  {
  }

  lemma ClosingRowsText(ci: nat, c: Customer, draw: WaveCall -> WaveDraw, day: nat)
    ensures RenderAll(ClosingRows(ci, c, draw, day))
         == [Fmt("msp_csp_cost_monthly_total", CustomerLabels(c), MonthlyTotal(ci, c, draw, day, |SERVICE_COSTS|)),
             Fmt("msp_collector_up", CustomerLabels(c), 1.0),
             Fmt("msp_collector_last_scrape_duration_seconds", CustomerLabels(c), Wave(0.8, 0.3, draw(ScrapeWave(ci))))]
  {
  }

  lemma CustomerSamplesParts(ci: nat, c: Customer, draw: WaveCall -> WaveDraw, day: nat)
    ensures RenderAll(CustomerSamples(ci, c, draw, day))
         == RenderAll(ServerRows(ci, c, draw, |c.servers|)) + RenderAll(InstanceRows(c))
            + RenderAll(CostRows(ci, c, draw, day, |SERVICE_COSTS|)) + RenderAll(ClosingRows(ci, c, draw, day))
  {
    var servers := ServerRows(ci, c, draw, |c.servers|);
    var costs := CostRows(ci, c, draw, day, |SERVICE_COSTS|);
    RenderAllAppend(servers, InstanceRows(c));
    RenderAllAppend(servers + InstanceRows(c), costs);
    RenderAllAppend(servers + InstanceRows(c) + costs, ClosingRows(ci, c, draw, day));
  }

  /** The server loop of one customer. */
  method ServerLines(ci: nat, cust: Customer, draw: WaveCall -> WaveDraw) returns (lines: seq<string>)
    ensures lines == RenderAll(ServerRows(ci, cust, draw, |cust.servers|))
  {
    lines := [];
    for si := 0 to |cust.servers|
      invariant lines == RenderAll(ServerRows(ci, cust, draw, si))
    {
      var row := ServerRowLines(ci, cust, si, draw);
      RenderAllAppend(ServerRows(ci, cust, draw, si), ServerRow(ci, cust, si, draw));
      lines := lines + row;
    }
  }

  /** One pass of the server loop: six waves, two of them clamped to
      [0, 100], and their six lines. */
  method ServerRowLines(ci: nat, cust: Customer, si: nat, draw: WaveCall -> WaveDraw) returns (row: seq<string>)
    requires si < |cust.servers|
    ensures row == RenderAll(ServerRow(ci, cust, si, draw))
  {
    var srv := cust.servers[si];
    var baseLabels := BaseLabels(cust, srv);
    var fullLabels := baseLabels + [Label("instance_type", srv.instanceType)];
    var cpu := Wave(cust.cpuBase, cust.cpuAmp, draw(ServerWave(ci, si, Cpu)));
    cpu := Min(100.0, Max(0.0, cpu));
    var mem := Wave(cust.memBase, cust.memAmp, draw(ServerWave(ci, si, Memory)));
    mem := Min(100.0, Max(0.0, mem));
    var netIn := Wave(5000000.0, 2000000.0, draw(ServerWave(ci, si, NetIn)));
    var netOut := Wave(3000000.0, 1500000.0, draw(ServerWave(ci, si, NetOut)));
    var diskR := Wave(1000000.0, 500000.0, draw(ServerWave(ci, si, DiskRead)));
    var diskW := Wave(800000.0, 400000.0, draw(ServerWave(ci, si, DiskWrite)));
    row := [Fmt("msp_csp_cpu_utilization", fullLabels, cpu),
            Fmt("msp_csp_memory_utilization", baseLabels, mem),
            Fmt("msp_csp_network_in_bytes", baseLabels, netIn),
            Fmt("msp_csp_network_out_bytes", baseLabels, netOut),
            Fmt("msp_csp_disk_read_bytes", baseLabels, diskR),
            Fmt("msp_csp_disk_write_bytes", baseLabels, diskW)];
  }

  /** The cost loop of one customer: a daily and a monthly line per
      service, and the monthly costs added up. */
  method CostLines(ci: nat, cust: Customer, draw: WaveCall -> WaveDraw, day: nat) returns (lines: seq<string>, monthlyTotal: real)
    ensures lines == RenderAll(CostRows(ci, cust, draw, day, |SERVICE_COSTS|))
    ensures monthlyTotal == MonthlyTotal(ci, cust, draw, day, |SERVICE_COSTS|)
  {
    lines := [];
    monthlyTotal := 0.0;
    for k := 0 to |SERVICE_COSTS|
      invariant lines == RenderAll(CostRows(ci, cust, draw, day, k))
      invariant monthlyTotal == MonthlyTotal(ci, cust, draw, day, k)
    {
      var pair, monthly := CostPairLines(ci, cust, draw, day, k);
      CostRowsStep(ci, cust, draw, day, k);
      MonthlyTotalStep(ci, cust, draw, day, k);
      RenderAllAppend(CostRows(ci, cust, draw, day, k), CostPair(ci, cust, draw, day, k));
      lines := lines + pair;
      monthlyTotal := monthlyTotal + monthly;
    }
  }

  /** One pass of the cost loop: the daily wave, the monthly cost it makes
      by the day of the month, and their two lines. */
  method CostPairLines(ci: nat, cust: Customer, draw: WaveCall -> WaveDraw, day: nat, k: nat) returns (pair: seq<string>, monthly: real)
    requires k < |SERVICE_COSTS|
    ensures pair == RenderAll(CostPair(ci, cust, draw, day, k))
    ensures monthly == Monthly(Daily(ci, cust, k, draw), day)
  {
    var service := SERVICE_COSTS[k];
    var costLabels := CustomerLabels(cust) + [Label("service", service.name)];
    var baseDaily := service.baseDaily * cust.costScale;
    assert costLabels == CostLabels(cust, SERVICE_COSTS[k]);
    var daily := Wave(baseDaily, baseDaily * 0.1, draw(CostWave(ci, k)));
    assert daily == Daily(ci, cust, k, draw);
    monthly := daily * day as real;
    assert monthly == Monthly(daily, day);
    pair := [Fmt("msp_csp_cost_daily", costLabels, daily), Fmt("msp_csp_cost_monthly", costLabels, monthly)];
    CostPairText(ci, cust, draw, day, k);
  }

  lemma CostPairText(ci: nat, c: Customer, draw: WaveCall -> WaveDraw, day: nat, k: nat)
    requires k < |SERVICE_COSTS|
    ensures RenderAll(CostPair(ci, c, draw, day, k))
         == [Fmt("msp_csp_cost_daily", CostLabels(c, SERVICE_COSTS[k]), Daily(ci, c, k, draw)),
             Fmt("msp_csp_cost_monthly", CostLabels(c, SERVICE_COSTS[k]), Monthly(Daily(ci, c, k, draw), day))]
  {
  }

  // ---------------------------------------------------------------------
  // `do_GET`
  // ---------------------------------------------------------------------

  /** What `do_GET` writes: the status line, the two headers and the body. */
  datatype Response = Response(status: nat, contentType: string, contentLength: string, body: string)

  /** Bytes UTF-8 takes for one code point. */
  function CharBytes(c: char): nat
  {
    if c as int < 0x80 then 1 else if c as int < 0x800 then 2 else if c as int < 0x10000 then 3 else 4
  }

  /** `len(s.encode("utf-8"))`. */
  function Utf8Length(s: string): (n: nat)
    ensures n >= |s|
  {
    if s == [] then 0 else CharBytes(s[0]) + Utf8Length(s[1..])
  }

  predicate Ascii(s: string)
  {
    forall i :: 0 <= i < |s| ==> s[i] as int < 0x80
  }

  /** Text of seven-bit characters takes one byte per character. */
  lemma {:induction false} AsciiLength(s: string)
    requires Ascii(s)
    ensures Utf8Length(s) == |s|
  {
    if s != [] {
      AsciiLength(s[1..]);
    }
  }

  /** A response whose Content-Length is the encoded body's length. */
  function Reply(status: nat, contentType: string, body: string): (r: Response)
    ensures ParseInt(r.contentLength) == Some(Utf8Length(body))
  {
    IntToStringRoundTrip(Utf8Length(body));
    Response(status, contentType, IntToString(Utf8Length(body)), body)
  }

  /** `_QuietHandler.do_GET`: `/metrics` serves the generated payload,
      `/healthz` serves "ok", anything else is a 404 "Not Found"; the
      Content-Length header always reads back as the body's byte length. */
  method HandleGet(path: string, draw: WaveCall -> WaveDraw, days: nat -> nat) returns (resp: Response)
    ensures path == "/metrics" ==>
      resp == Reply(200, "text/plain; charset=utf-8", ExportPayload(draw, days))
    ensures path == "/healthz" ==> resp == Reply(200, "text/plain", "ok")
    ensures path != "/metrics" && path != "/healthz" ==> resp == Reply(404, "text/plain", "Not Found")
  {
    if path == "/metrics" {
      var body := GenerateMetrics(draw, days);
      resp := Reply(200, "text/plain; charset=utf-8", body);
    } else if path == "/healthz" {
      resp := Reply(200, "text/plain", "ok");
    } else {
      resp := Reply(404, "text/plain", "Not Found");
    }
  }

  /** The health check announces two bytes. */
  lemma HealthReplyLength()
    ensures Reply(200, "text/plain", "ok").contentLength == "2"
  {
    AsciiLength("ok");
  }

  /** The 404 reply announces nine bytes. */
  lemma NotFoundReplyLength()
    ensures Reply(404, "text/plain", "Not Found").contentLength == "9"
  {
    assert Utf8Length("Not Found") == 9;
  }
}
