/** The fleet simulator's line builder: the readings of one push, the
    exposition lines of each server and the payload of the whole fleet.
    Clocks, `sin`, the random draws and Python's `hash` are parameters. */
module AlloySimulator {
  import opened Wrappers
  import opened Text
  import opened Numerals
  import opened Exposition
  import opened AlloyFleet

  // ---------------------------------------------------------------------
  // Pure helpers
  // ---------------------------------------------------------------------

  /** `_clamp`: `max(lo, min(hi, value))`. */
  function Clamp(v: real, lo: real, hi: real): (r: real)
    ensures lo <= hi ==> lo <= r <= hi
    ensures lo <= v <= hi ==> r == v
    ensures v < lo ==> r == lo
    ensures lo <= hi < v ==> r == hi
  {
    Max(lo, Min(hi, v))
  }

  /** The bucket `_phase_for` takes from the key's hash: Python's `%` with a
      positive divisor, never negative. */
  function PhaseBucket(h: int): (b: nat)
    ensures b < 1000
    ensures (h - b) % 1000 == 0
  {
    h % 1000
  }

  /** A negative hash lands in the range too, counted up from the divisor. */
  lemma PhaseBucketNegative()
    ensures PhaseBucket(-1) == 999 && PhaseBucket(-1000) == 0 && PhaseBucket(1234) == 234
  {
  }

  /** The arguments of one `_wave` call; the phase is the server's bucket
      plus a fixed shift. */
  datatype WaveArgs = WaveArgs(base: real, amplitude: real, periodSeconds: real,
                               phaseBucket: nat, phaseShift: real, noise: real)

  /** What the clock, `sin` and `random.uniform` contribute to one call. */
  datatype WaveDraw = WaveDraw(sine: real, jitter: real)

  predicate DrawFits(a: WaveArgs, d: WaveDraw)
  {
    -1.0 <= d.sine <= 1.0 && -a.noise <= d.jitter <= a.noise
  }

  /** `_wave`: base, plus amplitude times the sine, plus the jitter. */
  function Wave(a: WaveArgs, d: WaveDraw): real
  {
    a.base + a.amplitude * d.sine + d.jitter
  }

  /** A wave stays within amplitude plus noise of its base. */
  lemma WaveRange(a: WaveArgs, d: WaveDraw)
    requires DrawFits(a, d) && a.amplitude >= 0.0
    ensures a.base - a.amplitude - a.noise <= Wave(a, d) <= a.base + a.amplitude + a.noise
  {
    MulNonneg(a.amplitude, 1.0 - d.sine);
    MulNonneg(a.amplitude, 1.0 + d.sine);
  }

  function CpuWave(customerId: string, phase: nat): WaveArgs
  {
    if customerId == "beta" then WaveArgs(80.0, 10.0, 240.0, phase, 0.0, 3.0)
    else WaveArgs(35.0, 15.0, 300.0, phase, 0.0, 5.0)
  }

  function MemWave(role: Role, phase: nat): WaveArgs
  {
    match role
    case Db => WaveArgs(65.0, 10.0, 600.0, phase, 0.0, 3.0)
    case Batch => WaveArgs(55.0, 15.0, 360.0, phase, 0.0, 4.0)
    case _ => WaveArgs(45.0, 12.0, 300.0, phase, 0.0, 4.0)
  }

  function FsWave(srv: Server, phase: nat): WaveArgs
  {
    if srv.customerId == "gamma" && srv.serverName == "batch-01" then WaveArgs(90.0, 5.0, 900.0, phase, 0.0, 1.0)
    else if srv.role == Db then WaveArgs(55.0, 8.0, 600.0, phase, 0.0, 2.0)
    else WaveArgs(40.0, 10.0, 300.0, phase, 0.0, 3.0)
  }

  function RxWave(phase: nat): WaveArgs
  {
    WaveArgs(5000000.0, 3000000.0, 180.0, phase, 0.0, 500000.0)
  }

  function TxWave(phase: nat): WaveArgs
  {
    WaveArgs(2000000.0, 1500000.0, 200.0, phase, 1.0, 300000.0)
  }

  /** Everything outside the program one server's block reads: five wave
      draws, the two load jitters, the seconds since start and the uptime
      offset. */
  datatype ServerDraws = ServerDraws(cpu: WaveDraw, mem: WaveDraw, fs: WaveDraw, rx: WaveDraw, tx: WaveDraw,
                                     load1Jitter: real, load5Jitter: real, elapsed: real, uptimeOffset: int)

  /** Every reading of one server's block. */
  datatype Readings = Readings(
    cpuPct: real, memPct: real, fsPct: real,
    memAvail: int, memFree: int, memBuffers: int, memCached: int, fsAvail: int,
    rxRate: real, txRate: real, load1: real, load5: real, uptime: int)

  /** The readings `_build_server_metrics` computes from the draws. */
  function ReadingsOf(srv: Server, phase: nat, d: ServerDraws): (r: Readings)
    ensures 0.0 <= r.cpuPct <= 100.0 && 0.0 <= r.memPct <= 100.0 && 0.0 <= r.fsPct <= 100.0
    ensures r.rxRate >= 0.0 && r.txRate >= 0.0 && r.load1 >= 0.0 && r.load5 >= 0.0
  {
    var spec := Spec(srv.role);
    var cpuPct := Clamp(Wave(CpuWave(srv.customerId, phase), d.cpu), 0.0, 100.0);
    var memPct := Clamp(Wave(MemWave(srv.role, phase), d.mem), 0.0, 100.0);
    var fsPct := Clamp(Wave(FsWave(srv, phase), d.fs), 0.0, 100.0);
    var memAvail := Trunc(spec.ramBytes as real * (1.0 - memPct / 100.0));
    Readings(
      cpuPct, memPct, fsPct,
      memAvail, Trunc(memAvail as real * 0.3), Trunc(memAvail as real * 0.1), Trunc(memAvail as real * 0.4),
      Trunc(spec.diskBytes as real * (1.0 - fsPct / 100.0)),
      Max(0.0, Wave(RxWave(phase), d.rx)), Max(0.0, Wave(TxWave(phase), d.tx)),
      Max(0.0, cpuPct / 100.0 * spec.numCpus as real + d.load1Jitter),
      Max(0.0, cpuPct / 100.0 * spec.numCpus as real * 0.9 + d.load5Jitter),
      Trunc(d.elapsed) + d.uptimeOffset)
  }

  lemma ScaleDown(a: real, x: real)
    requires a >= 0.0 && 0.0 <= x <= 1.0
    ensures 0.0 <= a * x <= a
  {
    MulNonneg(a, x);
    MulNonneg(a, 1.0 - x);
  }

  /** The gauges stay in range whatever the draws: utilisations in [0, 100],
      available memory and disk between zero and the total, the three
      memory parts within what is available, rates and loads never
      negative. */
  lemma ReadingsBounds(srv: Server, phase: nat, d: ServerDraws)
    ensures var r := ReadingsOf(srv, phase, d);
      && 0.0 <= r.cpuPct <= 100.0 && 0.0 <= r.memPct <= 100.0 && 0.0 <= r.fsPct <= 100.0
      && 0 <= r.memAvail <= Spec(srv.role).ramBytes
      && 0 <= r.memFree && 0 <= r.memBuffers && 0 <= r.memCached
      && r.memFree + r.memBuffers + r.memCached <= r.memAvail
      && 0 <= r.fsAvail <= Spec(srv.role).diskBytes
      && r.rxRate >= 0.0 && r.txRate >= 0.0 && r.load1 >= 0.0 && r.load5 >= 0.0
  {
    var r := ReadingsOf(srv, phase, d);
    var spec := Spec(srv.role);
    ScaleDown(spec.ramBytes as real, 1.0 - r.memPct / 100.0);
    ScaleDown(spec.diskBytes as real, 1.0 - r.fsPct / 100.0);
    var a := r.memAvail as real;
    assert r.memFree as real <= a * 0.3;
    assert r.memBuffers as real <= a * 0.1;
    assert r.memCached as real <= a * 0.4;
  }

  /** When the clock has not gone back and the offset is drawn from its
      range, the uptime is at least a day. */
  lemma UptimeBound(srv: Server, phase: nat, d: ServerDraws)
    requires d.elapsed >= 0.0 && 86400 <= d.uptimeOffset <= 864000
    ensures ReadingsOf(srv, phase, d).uptime >= 86400
  {
  }

  /** `_fmt`: an integral value below 10^15 in magnitude as bare integer
      digits, anything else with two decimals. */
  function Fmt(v: real): (text: string)
    ensures NumberText(text)
  {
    if v == Trunc(v) as real && Abs(v) < 1000000000000000.0 then
      IntToStringNumber(Trunc(v));
      IntToString(Trunc(v))
    else
      FixedPointNumber(v, 2);
      FixedPoint(v, 2)
  }

  /** An integral value's text reads back as that integer. */
  lemma FmtIntegral(v: real)
    requires v == Trunc(v) as real && Abs(v) < 1000000000000000.0
    ensures ParseInt(Fmt(v)) == Some(Trunc(v)) && Trunc(v) as real == v
  {
    IntToStringRoundTrip(Trunc(v));
  }

  /** Any other value's text has two decimals and lies within half a
      hundredth of the value. */
  lemma FmtFraction(v: real)
    requires !(v == Trunc(v) as real && Abs(v) < 1000000000000000.0)
    ensures ParseFixed(Fmt(v)).Some?
    ensures ParseFixed(Fmt(v)).value.places == 2
    ensures -0.5 <= ParseFixed(Fmt(v)).value.units as real - Scale(v, 2) <= 0.5
  {
    FixedPointAccuracy(v, 2);
  }

  /** 1000000.0 is written "1000000". */
  lemma FmtWholeExample()
    ensures Fmt(1000000.0) == "1000000"
  {
    assert Trunc(1000000.0) == 1000000;
    assert NatToString(1000000) == "1000000";
  }

  /** 1234.5 is written "1234.50". */
  lemma FmtFractionExample()
    ensures Fmt(1234.5) == "1234.50"
  {
    assert Trunc(1234.5) == 1234;
    var q := ScaledMagnitude(1234.5, 2);
    assert Scale(1234.5, 2) == 123450.0;
    assert q == 123450;
    assert WholeUnits(q, 2) == 1234;
    assert NatToString(1234) == "1234";
    assert LastDigits(q, 2) == "50";
  }

  // ---------------------------------------------------------------------
  // Exposition lines
  // ---------------------------------------------------------------------

  /** The labels every line of a server starts with. */
  function BaseLabels(customerId: string, serverName: string): seq<Label>
  {
    [Label("customer_id", customerId), Label("server_name", serverName), Label("environment", ENVIRONMENT)]
  }

  function Line(name: string, labels: seq<Label>, value: string, ts: string): Sample
  {
    Sample(name, labels, value, Some(ts))
  }

  function UnameSample(srv: Server, ts: string): Sample
  {
    Line("node_uname_info",
         BaseLabels(srv.customerId, srv.serverName)
           + [Label("nodename", srv.serverName), Label("sysname", "Linux"), Label("release", "5.15.0-generic")],
         "1", ts)
  }

  function CpuSample(bl: seq<Label>, ts: string, k: CpuKey, value: real): Sample
  {
    Line("node_cpu_seconds_total", bl + [Label("cpu", NatToString(k.cpu)), Label("mode", ModeName(k.mode))], Fmt(value), ts)
  }

  /** Every core below `n` has all six counters. */
  ghost predicate Covers(cpu: map<CpuKey, real>, n: nat)
  {
    forall k: CpuKey :: k.cpu < n ==> k in cpu
  }

  /** The lines of core `c` for the first `j` modes, in mode order. */
  function CpuModes(bl: seq<Label>, ts: string, cpu: map<CpuKey, real>, c: nat, j: nat): (row: seq<Sample>)
    requires Covers(cpu, c + 1) && j <= |MODES|
    ensures |row| == j
  {
    if j == 0 then [] else CpuModes(bl, ts, cpu, c, j - 1) + [CpuSample(bl, ts, CpuKey(c, MODES[j - 1]), cpu[CpuKey(c, MODES[j - 1])])]
  }

  /** The six lines of core `c`, in mode order. */
  function CpuRow(bl: seq<Label>, ts: string, cpu: map<CpuKey, real>, c: nat): (row: seq<Sample>)
    requires Covers(cpu, c + 1)
    ensures |row| == 6
  {
    CpuModes(bl, ts, cpu, c, |MODES|)
  }

  /** The counter lines of the cores below `n`, core by core. */
  function CpuSamples(bl: seq<Label>, ts: string, cpu: map<CpuKey, real>, n: nat): (ss: seq<Sample>)
    requires Covers(cpu, n)
    ensures |ss| == 6 * n
  {
    if n == 0 then [] else CpuSamples(bl, ts, cpu, n - 1) + CpuRow(bl, ts, cpu, n - 1)
  }

  /** Every line of `ss` starts its labels with `bl`. */
  predicate StartWith(bl: seq<Label>, ss: seq<Sample>)
  {
    forall i :: 0 <= i < |ss| ==> bl <= ss[i].labels
  }

  lemma StartWithAppend(bl: seq<Label>, a: seq<Sample>, b: seq<Sample>)
    requires StartWith(bl, a) && StartWith(bl, b)
    ensures StartWith(bl, a + b)
  {
    forall i | 0 <= i < |a + b| ensures bl <= (a + b)[i].labels {
      if i >= |a| {
        assert (a + b)[i] == b[i - |a|];
      }
    }
  }

  /** The five memory lines. */
  function MemorySamples(bl: seq<Label>, ts: string, spec: RoleSpec, r: Readings): (ss: seq<Sample>)
    ensures |ss| == 5 && StartWith(bl, ss)
  {
    [Line("node_memory_MemTotal_bytes", bl, NatToString(spec.ramBytes), ts),
     Line("node_memory_MemAvailable_bytes", bl, IntToString(r.memAvail), ts),
     Line("node_memory_MemFree_bytes", bl, IntToString(r.memFree), ts),
     Line("node_memory_Buffers_bytes", bl, IntToString(r.memBuffers), ts),
     Line("node_memory_Cached_bytes", bl, IntToString(r.memCached), ts)]
  }

  /** The two filesystem lines of the root mount. */
  function FilesystemSamples(bl: seq<Label>, ts: string, spec: RoleSpec, r: Readings): (ss: seq<Sample>)
    ensures |ss| == 2 && StartWith(bl, ss)
  {
    var fsLabels := bl + [Label("mountpoint", "/"), Label("fstype", "ext4"), Label("device", "/dev/sda1")];
    [Line("node_filesystem_size_bytes", fsLabels, NatToString(spec.diskBytes), ts),
     Line("node_filesystem_avail_bytes", fsLabels, IntToString(r.fsAvail), ts)]
  }

  /** The two byte counters of `eth0`. */
  function NetworkSamples(bl: seq<Label>, ts: string, rx: real, tx: real): (ss: seq<Sample>)
    ensures |ss| == 2 && StartWith(bl, ss)
  {
    var netLabels := bl + [Label("device", "eth0")];
    [Line("node_network_receive_bytes_total", netLabels, Fmt(rx), ts),
     Line("node_network_transmit_bytes_total", netLabels, Fmt(tx), ts)]
  }

  /** The two load averages and the uptime. */
  function LoadSamples(bl: seq<Label>, ts: string, r: Readings): (ss: seq<Sample>)
    ensures |ss| == 3 && StartWith(bl, ss)
  {
    [Line("node_load1", bl, Fmt(r.load1), ts),
     Line("node_load5", bl, Fmt(r.load5), ts),
     Line("node_uptime_seconds", bl, IntToString(r.uptime), ts)]
  }

  /** The twelve lines after the counters: memory, filesystem, network,
      load and uptime. */
  function TailSamples(bl: seq<Label>, ts: string, spec: RoleSpec, r: Readings, rx: real, tx: real): (ss: seq<Sample>)
    ensures |ss| == 12
  {
    MemorySamples(bl, ts, spec, r) + FilesystemSamples(bl, ts, spec, r) + NetworkSamples(bl, ts, rx, tx) + LoadSamples(bl, ts, r)
  }

  /** The block of one server, read from its advanced counters: the uname
      line, the counter lines, the rest. */
  function ServerSamples(srv: Server, ts: string, r: Readings, c: Counters): (ss: seq<Sample>)
    requires Covers(c.cpu, Spec(srv.role).numCpus)
    ensures |ss| == 13 + 6 * Spec(srv.role).numCpus
  {
    var bl := BaseLabels(srv.customerId, srv.serverName);
    [UnameSample(srv, ts)] + CpuSamples(bl, ts, c.cpu, Spec(srv.role).numCpus) + TailSamples(bl, ts, Spec(srv.role), r, c.rx, c.tx)
  }

  /** Every counter line of core `c` starts its labels with `bl`. */
  lemma {:induction false} CpuModesLabels(bl: seq<Label>, ts: string, cpu: map<CpuKey, real>, c: nat, j: nat)
    requires Covers(cpu, c + 1) && j <= |MODES|
    ensures StartWith(bl, CpuModes(bl, ts, cpu, c, j))
  {
    if j > 0 {
      CpuModesLabels(bl, ts, cpu, c, j - 1);
      var k := CpuKey(c, MODES[j - 1]);
      StartWithAppend(bl, CpuModes(bl, ts, cpu, c, j - 1), [CpuSample(bl, ts, k, cpu[k])]);
    }
  }

  /** Every counter line of the cores below `n` starts its labels with `bl`. */
  lemma {:induction false} CpuSamplesLabels(bl: seq<Label>, ts: string, cpu: map<CpuKey, real>, n: nat)
    requires Covers(cpu, n)
    ensures StartWith(bl, CpuSamples(bl, ts, cpu, n))
  {
    if n > 0 {
      CpuSamplesLabels(bl, ts, cpu, n - 1);
      CpuModesLabels(bl, ts, cpu, n - 1, |MODES|);
      StartWithAppend(bl, CpuSamples(bl, ts, cpu, n - 1), CpuRow(bl, ts, cpu, n - 1));
    }
  }

  /** Every line after the counters starts its labels with `bl`. */
  lemma TailSamplesLabels(bl: seq<Label>, ts: string, spec: RoleSpec, r: Readings, rx: real, tx: real)
    ensures StartWith(bl, TailSamples(bl, ts, spec, r, rx, tx))
  {
    var mem := MemorySamples(bl, ts, spec, r);
    var fs := FilesystemSamples(bl, ts, spec, r);
    var net := NetworkSamples(bl, ts, rx, tx);
    var load := LoadSamples(bl, ts, r);
    StartWithAppend(bl, mem, fs);
    StartWithAppend(bl, mem + fs, net);
    StartWithAppend(bl, mem + fs + net, load);
  }

  /** Every line of a server's block starts its labels with the server's
      `customer_id`, `server_name` and `environment`, in that order. */
  lemma ServerSamplesBaseLabels(srv: Server, ts: string, r: Readings, c: Counters)
    requires Covers(c.cpu, Spec(srv.role).numCpus)
    ensures forall i :: 0 <= i < |ServerSamples(srv, ts, r, c)| ==>
              BaseLabels(srv.customerId, srv.serverName) <= ServerSamples(srv, ts, r, c)[i].labels
  {
    var bl := BaseLabels(srv.customerId, srv.serverName);
    var n := Spec(srv.role).numCpus;
    var head := [UnameSample(srv, ts)];
    var cs := CpuSamples(bl, ts, c.cpu, n);
    var tail := TailSamples(bl, ts, Spec(srv.role), r, c.rx, c.tx);
    assert StartWith(bl, head);
    CpuSamplesLabels(bl, ts, c.cpu, n);
    TailSamplesLabels(bl, ts, Spec(srv.role), r, c.rx, c.tx);
    StartWithAppend(bl, head, cs);
    StartWithAppend(bl, head + cs, tail);
    assert ServerSamples(srv, ts, r, c) == head + cs + tail;
  }

  /** The base labels followed by labels whose keys are distinct and none
      of `customer_id`, `server_name`, `environment` have distinct keys. */
  lemma BaseLabelsDistinct(customerId: string, serverName: string, extra: seq<Label>)
    requires DistinctKeys(extra)
    requires forall j :: 0 <= j < |extra| ==>
               extra[j].key != "customer_id" && extra[j].key != "server_name" && extra[j].key != "environment"
    ensures DistinctKeys(BaseLabels(customerId, serverName) + extra)
  {
    var bl := BaseLabels(customerId, serverName);
    assert "customer_id"[0] != "server_name"[0] && "customer_id"[0] != "environment"[0] && "server_name"[0] != "environment"[0];
    assert DistinctKeys(bl);
    DistinctKeysAppend(bl, extra);
  }

  /** Every counter line of core `c` has distinct label keys. */
  lemma {:induction false} CpuModesDistinct(customerId: string, serverName: string, ts: string,
                                            cpu: map<CpuKey, real>, c: nat, j: nat)
    requires Covers(cpu, c + 1) && j <= |MODES|
    ensures AllDistinctKeys(CpuModes(BaseLabels(customerId, serverName), ts, cpu, c, j))
  {
    if j > 0 {
      var bl := BaseLabels(customerId, serverName);
      CpuModesDistinct(customerId, serverName, ts, cpu, c, j - 1);
      var k := CpuKey(c, MODES[j - 1]);
      BaseLabelsDistinct(customerId, serverName, [Label("cpu", NatToString(k.cpu)), Label("mode", ModeName(k.mode))]);
      AllDistinctKeysAppend(CpuModes(bl, ts, cpu, c, j - 1), [CpuSample(bl, ts, k, cpu[k])]);
    }
  }

  /** Every counter line of the cores below `n` has distinct label keys. */
  lemma {:induction false} CpuSamplesDistinct(customerId: string, serverName: string, ts: string,
                                              cpu: map<CpuKey, real>, n: nat)
    requires Covers(cpu, n)
    ensures AllDistinctKeys(CpuSamples(BaseLabels(customerId, serverName), ts, cpu, n))
  {
    if n > 0 {
      var bl := BaseLabels(customerId, serverName);
      CpuSamplesDistinct(customerId, serverName, ts, cpu, n - 1);
      CpuModesDistinct(customerId, serverName, ts, cpu, n - 1, |MODES|);
      AllDistinctKeysAppend(CpuSamples(bl, ts, cpu, n - 1), CpuRow(bl, ts, cpu, n - 1));
    }
  }

  /** The uname line has distinct label keys. */
  lemma UnameDistinct(srv: Server, ts: string)
    ensures AllDistinctKeys([UnameSample(srv, ts)])
  {
    BaseLabelsDistinct(srv.customerId, srv.serverName,
                       [Label("nodename", srv.serverName), Label("sysname", "Linux"), Label("release", "5.15.0-generic")]);
  }

  lemma MemoryDistinct(bl: seq<Label>, ts: string, spec: RoleSpec, r: Readings)
    requires DistinctKeys(bl)
    ensures AllDistinctKeys(MemorySamples(bl, ts, spec, r))
  {
  }

  lemma FilesystemDistinct(bl: seq<Label>, ts: string, spec: RoleSpec, r: Readings)
    requires DistinctKeys(bl + [Label("mountpoint", "/"), Label("fstype", "ext4"), Label("device", "/dev/sda1")])
    ensures AllDistinctKeys(FilesystemSamples(bl, ts, spec, r))
  {
  }

  lemma NetworkDistinct(bl: seq<Label>, ts: string, rx: real, tx: real)
    requires DistinctKeys(bl + [Label("device", "eth0")])
    ensures AllDistinctKeys(NetworkSamples(bl, ts, rx, tx))
  {
  }

  lemma LoadDistinct(bl: seq<Label>, ts: string, r: Readings)
    requires DistinctKeys(bl)
    ensures AllDistinctKeys(LoadSamples(bl, ts, r))
  {
  }

  /** Every line after the counters has distinct label keys. */
  lemma TailSamplesDistinct(customerId: string, serverName: string, ts: string, spec: RoleSpec,
                            r: Readings, rx: real, tx: real)
    ensures AllDistinctKeys(TailSamples(BaseLabels(customerId, serverName), ts, spec, r, rx, tx))
  {
    var bl := BaseLabels(customerId, serverName);
    BaseLabelsDistinct(customerId, serverName, []);
    assert bl + [] == bl;
    BaseLabelsDistinct(customerId, serverName,
                       [Label("mountpoint", "/"), Label("fstype", "ext4"), Label("device", "/dev/sda1")]);
    BaseLabelsDistinct(customerId, serverName, [Label("device", "eth0")]);
    var mem := MemorySamples(bl, ts, spec, r);
    var fs := FilesystemSamples(bl, ts, spec, r);
    var net := NetworkSamples(bl, ts, rx, tx);
    var load := LoadSamples(bl, ts, r);
    MemoryDistinct(bl, ts, spec, r);
    FilesystemDistinct(bl, ts, spec, r);
    NetworkDistinct(bl, ts, rx, tx);
    LoadDistinct(bl, ts, r);
    AllDistinctKeysAppend(mem, fs);
    AllDistinctKeysAppend(mem + fs, net);
    AllDistinctKeysAppend(mem + fs + net, load);
  }

  /** No line of a server's block repeats a label key. */
  lemma ServerSamplesDistinct(srv: Server, ts: string, r: Readings, c: Counters)
    requires Covers(c.cpu, Spec(srv.role).numCpus)
    ensures AllDistinctKeys(ServerSamples(srv, ts, r, c))
  {
    var bl := BaseLabels(srv.customerId, srv.serverName);
    var n := Spec(srv.role).numCpus;
    var head := [UnameSample(srv, ts)];
    var cs := CpuSamples(bl, ts, c.cpu, n);
    var tail := TailSamples(bl, ts, Spec(srv.role), r, c.rx, c.tx);
    UnameDistinct(srv, ts);
    CpuSamplesDistinct(srv.customerId, srv.serverName, ts, c.cpu, n);
    TailSamplesDistinct(srv.customerId, srv.serverName, ts, Spec(srv.role), r, c.rx, c.tx);
    AllDistinctKeysAppend(head, cs);
    AllDistinctKeysAppend(head + cs, tail);
    assert ServerSamples(srv, ts, r, c) == head + cs + tail;
  }

  /** Text holding none of the characters the line format reserves: a
      brace, a comma, an equals sign, a space or a newline. */
  predicate NameChars(s: string)
  {
    forall i :: 0 <= i < |s| ==> s[i] != '{' && s[i] != '}' && s[i] != ',' && s[i] != '=' && s[i] != ' ' && s[i] != '\n'
  }

  lemma NameCharsPlain(s: string)
    requires NameChars(s)
    ensures '{' !in s && '}' !in s && ',' !in s && '=' !in s && ' ' !in s && '\n' !in s
  {
  }

  lemma NumberNameChars(s: string)
    requires NumberText(s)
    ensures NameChars(s)
  {
  }

  lemma IntNameChars(i: int)
    ensures NameChars(IntToString(i))
  {
    IntToStringNumber(i);
  }

  lemma NatNameChars(n: nat)
    ensures NameChars(NatToString(n))
  {
  }

  /** A label of reserved-free text is one the reader takes back. */
  lemma LabelPlain(key: string, value: string)
    requires NameChars(key) && NameChars(value)
    ensures CleanLabels([Label(key, value)])
  {
    NameCharsPlain(key);
    NameCharsPlain(value);
  }

  /** A line of reserved-free name, value and timestamp over clean labels
      is one the reader takes back. */
  lemma LinePlain(name: string, labels: seq<Label>, value: string, ts: string)
    requires NameChars(name) && CleanLabels(labels) && NameChars(value) && NameChars(ts)
    ensures WellFormed(Line(name, labels, value, ts))
  {
    NameCharsPlain(name);
    NameCharsPlain(value);
    NameCharsPlain(ts);
  }

  /** Every counter line of core `c` is well formed. */
  lemma {:induction false} CpuModesWellFormed(bl: seq<Label>, ts: string, cpu: map<CpuKey, real>, c: nat, j: nat)
    requires Covers(cpu, c + 1) && j <= |MODES|
    requires CleanLabels(bl) && NameChars(ts)
    ensures AllWellFormed(CpuModes(bl, ts, cpu, c, j))
  {
    if j > 0 {
      CpuModesWellFormed(bl, ts, cpu, c, j - 1);
      var k := CpuKey(c, MODES[j - 1]);
      var v := cpu[k];
      NatNameChars(k.cpu);
      NumberNameChars(Fmt(v));
      CpuNames();
      ModeNameChars(k.mode);
      LabelPlain("cpu", NatToString(k.cpu));
      LabelPlain("mode", ModeName(k.mode));
      CleanLabelsAppend([Label("cpu", NatToString(k.cpu))], [Label("mode", ModeName(k.mode))]);
      CleanLabelsAppend(bl, [Label("cpu", NatToString(k.cpu)), Label("mode", ModeName(k.mode))]);
      LinePlain("node_cpu_seconds_total", bl + [Label("cpu", NatToString(k.cpu)), Label("mode", ModeName(k.mode))], Fmt(v), ts);
      AllWellFormedAppend(CpuModes(bl, ts, cpu, c, j - 1), [CpuSample(bl, ts, k, v)]);
    }
  }

  lemma CpuNames()
    ensures NameChars("cpu") && NameChars("mode") && NameChars("node_cpu_seconds_total")
  {
  }

  lemma ModeNameChars(m: Mode)
    ensures NameChars(ModeName(m))
  {
    match m
    case Idle => assert NameChars("idle");
    case User => assert NameChars("user");
    case System => assert NameChars("system");
    case IoWait => assert NameChars("iowait");
    case Nice => assert NameChars("nice");
    case SoftIrq => assert NameChars("softirq");
  }

  /** Every counter line of the cores below `n` is well formed. */
  lemma {:induction false} CpuSamplesWellFormed(bl: seq<Label>, ts: string, cpu: map<CpuKey, real>, n: nat)
    requires Covers(cpu, n) && CleanLabels(bl) && NameChars(ts)
    ensures AllWellFormed(CpuSamples(bl, ts, cpu, n))
  {
    if n > 0 {
      CpuSamplesWellFormed(bl, ts, cpu, n - 1);
      CpuModesWellFormed(bl, ts, cpu, n - 1, |MODES|);
      AllWellFormedAppend(CpuSamples(bl, ts, cpu, n - 1), CpuRow(bl, ts, cpu, n - 1));
    }
  }

  lemma MemoryNames()
    ensures NameChars("node_memory_MemTotal_bytes") && NameChars("node_memory_MemAvailable_bytes")
    ensures NameChars("node_memory_MemFree_bytes") && NameChars("node_memory_Buffers_bytes")
    ensures NameChars("node_memory_Cached_bytes")
  {
    MemoryTotalNames();
    MemoryPartNames();
  }

  lemma MemoryTotalNames()
    ensures NameChars("node_memory_MemTotal_bytes") && NameChars("node_memory_MemAvailable_bytes")
  {
  }

  lemma MemoryPartNames()
    ensures NameChars("node_memory_MemFree_bytes") && NameChars("node_memory_Buffers_bytes")
    ensures NameChars("node_memory_Cached_bytes")
  {
  }

  lemma MemoryWellFormed(bl: seq<Label>, ts: string, spec: RoleSpec, r: Readings)
    requires CleanLabels(bl) && NameChars(ts)
    ensures AllWellFormed(MemorySamples(bl, ts, spec, r))
  {
    NatNameChars(spec.ramBytes);
    IntNameChars(r.memAvail);
    IntNameChars(r.memFree);
    IntNameChars(r.memBuffers);
    IntNameChars(r.memCached);
    MemoryNames();
    LinePlain("node_memory_MemTotal_bytes", bl, NatToString(spec.ramBytes), ts);
    LinePlain("node_memory_MemAvailable_bytes", bl, IntToString(r.memAvail), ts);
    LinePlain("node_memory_MemFree_bytes", bl, IntToString(r.memFree), ts);
    LinePlain("node_memory_Buffers_bytes", bl, IntToString(r.memBuffers), ts);
    LinePlain("node_memory_Cached_bytes", bl, IntToString(r.memCached), ts);
  }

  lemma FilesystemNames()
    ensures NameChars("mountpoint") && NameChars("/") && NameChars("fstype") && NameChars("ext4")
    ensures NameChars("device") && NameChars("/dev/sda1")
    ensures NameChars("node_filesystem_size_bytes") && NameChars("node_filesystem_avail_bytes")
  {
    FilesystemMetricNames();
  }

  lemma FilesystemMetricNames()
    ensures NameChars("node_filesystem_size_bytes") && NameChars("node_filesystem_avail_bytes")
  {
  }

  lemma FilesystemWellFormed(bl: seq<Label>, ts: string, spec: RoleSpec, r: Readings)
    requires CleanLabels(bl) && NameChars(ts)
    ensures AllWellFormed(FilesystemSamples(bl, ts, spec, r))
  {
    FilesystemNames();
    LabelPlain("mountpoint", "/");
    LabelPlain("fstype", "ext4");
    LabelPlain("device", "/dev/sda1");
    CleanLabelsAppend([Label("mountpoint", "/")], [Label("fstype", "ext4")]);
    CleanLabelsAppend([Label("mountpoint", "/"), Label("fstype", "ext4")], [Label("device", "/dev/sda1")]);
    var fsLabels := bl + [Label("mountpoint", "/"), Label("fstype", "ext4"), Label("device", "/dev/sda1")];
    CleanLabelsAppend(bl, [Label("mountpoint", "/"), Label("fstype", "ext4"), Label("device", "/dev/sda1")]);
    NatNameChars(spec.diskBytes);
    IntNameChars(r.fsAvail);
    LinePlain("node_filesystem_size_bytes", fsLabels, NatToString(spec.diskBytes), ts);
    LinePlain("node_filesystem_avail_bytes", fsLabels, IntToString(r.fsAvail), ts);
  }

  lemma NetworkNames()
    ensures NameChars("device") && NameChars("eth0")
    ensures NameChars("node_network_receive_bytes_total") && NameChars("node_network_transmit_bytes_total")
  {
    NetworkReceiveName();
    NetworkTransmitName();
  }

  lemma NetworkReceiveName()
    ensures NameChars("node_network_receive_bytes_total")
  {
  }

  lemma NetworkTransmitName()
    ensures NameChars("node_network_transmit_bytes_total")
  {
  }

  lemma NetworkWellFormed(bl: seq<Label>, ts: string, rx: real, tx: real)
    requires CleanLabels(bl) && NameChars(ts)
    ensures AllWellFormed(NetworkSamples(bl, ts, rx, tx))
  {
    NetworkNames();
    LabelPlain("device", "eth0");
    var netLabels := bl + [Label("device", "eth0")];
    CleanLabelsAppend(bl, [Label("device", "eth0")]);
    NumberNameChars(Fmt(rx));
    NumberNameChars(Fmt(tx));
    LinePlain("node_network_receive_bytes_total", netLabels, Fmt(rx), ts);
    LinePlain("node_network_transmit_bytes_total", netLabels, Fmt(tx), ts);
  }

  lemma LoadNames()
    ensures NameChars("node_load1") && NameChars("node_load5") && NameChars("node_uptime_seconds")
  {
  }

  lemma LoadWellFormed(bl: seq<Label>, ts: string, r: Readings)
    requires CleanLabels(bl) && NameChars(ts)
    ensures AllWellFormed(LoadSamples(bl, ts, r))
  {
    NumberNameChars(Fmt(r.load1));
    NumberNameChars(Fmt(r.load5));
    IntNameChars(r.uptime);
    LoadNames();
    LinePlain("node_load1", bl, Fmt(r.load1), ts);
    LinePlain("node_load5", bl, Fmt(r.load5), ts);
    LinePlain("node_uptime_seconds", bl, IntToString(r.uptime), ts);
  }

  /** The base labels of a server whose customer id and name hold no
      reserved character are clean. */
  lemma BaseNames()
    ensures NameChars("customer_id") && NameChars("server_name") && NameChars("environment") && NameChars(ENVIRONMENT)
  {
  }

  lemma BaseLabelsPlain(customerId: string, serverName: string)
    requires NameChars(customerId) && NameChars(serverName)
    ensures CleanLabels(BaseLabels(customerId, serverName))
  {
    BaseNames();
    LabelPlain("customer_id", customerId);
    LabelPlain("server_name", serverName);
    LabelPlain("environment", ENVIRONMENT);
    CleanLabelsAppend([Label("customer_id", customerId)], [Label("server_name", serverName)]);
    CleanLabelsAppend([Label("customer_id", customerId), Label("server_name", serverName)], [Label("environment", ENVIRONMENT)]);
  }

  lemma UnameNames()
    ensures NameChars("nodename") && NameChars("sysname") && NameChars("Linux")
    ensures NameChars("release") && NameChars("5.15.0-generic") && NameChars("node_uname_info") && NameChars("1")
  {
  }

  lemma UnameWellFormed(srv: Server, ts: string)
    requires NameChars(srv.customerId) && NameChars(srv.serverName) && NameChars(ts)
    ensures AllWellFormed([UnameSample(srv, ts)])
  {
    var bl := BaseLabels(srv.customerId, srv.serverName);
    BaseLabelsPlain(srv.customerId, srv.serverName);
    UnameNames();
    LabelPlain("nodename", srv.serverName);
    LabelPlain("sysname", "Linux");
    LabelPlain("release", "5.15.0-generic");
    CleanLabelsAppend([Label("nodename", srv.serverName)], [Label("sysname", "Linux")]);
    CleanLabelsAppend([Label("nodename", srv.serverName), Label("sysname", "Linux")], [Label("release", "5.15.0-generic")]);
    var extra := [Label("nodename", srv.serverName), Label("sysname", "Linux"), Label("release", "5.15.0-generic")];
    CleanLabelsAppend(bl, extra);
    LinePlain("node_uname_info", bl + extra, "1", ts);
  }

  lemma TailSamplesWellFormed(bl: seq<Label>, ts: string, spec: RoleSpec, r: Readings, rx: real, tx: real)
    requires CleanLabels(bl) && NameChars(ts)
    ensures AllWellFormed(TailSamples(bl, ts, spec, r, rx, tx))
  {
    var mem := MemorySamples(bl, ts, spec, r);
    var fs := FilesystemSamples(bl, ts, spec, r);
    var net := NetworkSamples(bl, ts, rx, tx);
    var load := LoadSamples(bl, ts, r);
    MemoryWellFormed(bl, ts, spec, r);
    FilesystemWellFormed(bl, ts, spec, r);
    NetworkWellFormed(bl, ts, rx, tx);
    LoadWellFormed(bl, ts, r);
    AllWellFormedAppend(mem, fs);
    AllWellFormedAppend(mem + fs, net);
    AllWellFormedAppend(mem + fs + net, load);
  }

  /** Every line of a server's block is one the line reader takes back,
      once the server's customer id and name carry no separator. */
  lemma ServerSamplesWellFormed(srv: Server, ts: string, r: Readings, c: Counters)
    requires Covers(c.cpu, Spec(srv.role).numCpus)
    requires NameChars(srv.customerId) && NameChars(srv.serverName) && NameChars(ts)
    ensures AllWellFormed(ServerSamples(srv, ts, r, c))
  {
    var bl := BaseLabels(srv.customerId, srv.serverName);
    var n := Spec(srv.role).numCpus;
    var head := [UnameSample(srv, ts)];
    var cs := CpuSamples(bl, ts, c.cpu, n);
    var tail := TailSamples(bl, ts, Spec(srv.role), r, c.rx, c.tx);
    BaseLabelsPlain(srv.customerId, srv.serverName);
    UnameWellFormed(srv, ts);
    CpuSamplesWellFormed(bl, ts, c.cpu, n);
    TailSamplesWellFormed(bl, ts, Spec(srv.role), r, c.rx, c.tx);
    AllWellFormedAppend(head, cs);
    AllWellFormedAppend(head + cs, tail);
    assert ServerSamples(srv, ts, r, c) == head + cs + tail;
  }

  /** The counters one push leaves: `advance_cpu` with the reading's
      utilisation, then `advance_network` with its rates. */
  function After(c: Counters, r: Readings, interval: nat): Counters
  {
    NetTick(CpuTick(c, r.cpuPct, interval as real), r.rxRate, r.txRate, interval as real)
  }

  /** The counters of `srv` once its push is done, starting from the
      registry contents `c`. */
  function Pushed(c: map<string, Counters>, srv: Server, h: int, d: ServerDraws, init: StateDraws, interval: nat): Counters
    requires |init.baselines| == 6 * Spec(srv.role).numCpus
  {
    After(GetOrCreate(c, StateKey(srv.customerId, srv.serverName), Spec(srv.role).numCpus, init),
          ReadingsOf(srv, PhaseBucket(h), d), interval)
  }

  /** A push reads nothing of the registry but the server's own entry. */
  lemma PushedSameEntry(c: map<string, Counters>, c': map<string, Counters>, srv: Server, h: int, d: ServerDraws,
                        init: StateDraws, interval: nat)
    requires |init.baselines| == 6 * Spec(srv.role).numCpus
    requires (StateKey(srv.customerId, srv.serverName) in c) == (StateKey(srv.customerId, srv.serverName) in c')
    requires StateKey(srv.customerId, srv.serverName) in c ==>
               c[StateKey(srv.customerId, srv.serverName)] == c'[StateKey(srv.customerId, srv.serverName)]
    ensures Pushed(c, srv, h, d, init, interval) == Pushed(c', srv, h, d, init, interval)
  {
  }

  /** A registered state under `key` is sound and has at least `n` cores. */
  ghost predicate Fits(c: map<string, Counters>, key: string, n: nat)
  {
    key in c ==> Sound(c[key]) && c[key].numCpus >= n
  }

  /** A push keeps the counter keys, and the pushed counters cover the
      role's cores. */
  lemma PushedFits(c: map<string, Counters>, srv: Server, h: int, d: ServerDraws, init: StateDraws, interval: nat)
    requires |init.baselines| == 6 * Spec(srv.role).numCpus
    requires Fits(c, StateKey(srv.customerId, srv.serverName), Spec(srv.role).numCpus)
    ensures Sound(Pushed(c, srv, h, d, init, interval))
    ensures Pushed(c, srv, h, d, init, interval).numCpus >= Spec(srv.role).numCpus
    ensures Covers(Pushed(c, srv, h, d, init, interval).cpu, Spec(srv.role).numCpus)
  {
  }

  /** A push never lowers a counter: the pushed state keeps the CPU keys of
      the registered one, and no CPU or byte counter is below its value
      there. */
  lemma PushedMonotone(c: map<string, Counters>, srv: Server, h: int, d: ServerDraws, init: StateDraws, interval: nat)
    requires |init.baselines| == 6 * Spec(srv.role).numCpus
    requires StateKey(srv.customerId, srv.serverName) in c
    ensures var old_ := c[StateKey(srv.customerId, srv.serverName)];
            var new_ := Pushed(c, srv, h, d, init, interval);
            && new_.cpu.Keys == old_.cpu.Keys
            && (forall k | k in old_.cpu :: new_.cpu[k] >= old_.cpu[k])
            && new_.rx >= old_.rx && new_.tx >= old_.tx
  {
    var old_ := c[StateKey(srv.customerId, srv.serverName)];
    var r := ReadingsOf(srv, PhaseBucket(h), d);
    ReadingsBounds(srv, PhaseBucket(h), d);
    CpuAfterMonotone(old_.cpu, r.cpuPct, interval as real);
    NetTickGrows(CpuTick(old_, r.cpuPct, interval as real), r.rxRate, r.txRate, interval as real);
  }

  /** `_build_server_metrics`: fetches or creates the server's state,
      advances its counters by one push interval and returns the server's
      block of lines, read from the advanced counters. Only that server's
      entry of the registry changes. */
  method BuildServerMetrics(store: StateStore, srv: Server, tsMs: int, h: int,
                            d: ServerDraws, init: StateDraws, pushInterval: nat)
    returns (lines: seq<string>)
    requires store.Valid()
    requires |init.baselines| == 6 * Spec(srv.role).numCpus
    requires Fits(store.Contents(), StateKey(srv.customerId, srv.serverName), Spec(srv.role).numCpus)
    modifies store, store.states.Values
    ensures store.Valid()
    ensures forall st | st in store.states.Values :: st in old(store.states.Values) || fresh(st)
    ensures store.Contents() == old(store.Contents())[StateKey(srv.customerId, srv.serverName) :=
              Pushed(old(store.Contents()), srv, h, d, init, pushInterval)]
    ensures Covers(Pushed(old(store.Contents()), srv, h, d, init, pushInterval).cpu, Spec(srv.role).numCpus)
    ensures lines == RenderAll(ServerSamples(srv, IntToString(tsMs), ReadingsOf(srv, PhaseBucket(h), d),
                                             Pushed(old(store.Contents()), srv, h, d, init, pushInterval)))
  {
    var spec := Spec(srv.role);
    var key := StateKey(srv.customerId, srv.serverName);
    ghost var c0 := store.Contents();
    ghost var g := GetOrCreate(c0, key, spec.numCpus, init);
    GetOrCreateFits(c0, key, spec.numCpus, init);
    var st := store.GetState(srv.customerId, srv.serverName, srv.role, init);
    assert st.Snapshot() == store.Contents()[key] == g;
    var ts := IntToString(tsMs);
    var bl := BaseLabels(srv.customerId, srv.serverName);
    var r := ReadingsOf(srv, PhaseBucket(h), d);
    ghost var c1 := store.Contents();
    var cpuSamples, rx, tx := AdvanceAndRead(store, key, r, pushInterval, bl, ts, spec.numCpus);
    ghost var pushed := After(g, r, pushInterval);
    assert pushed == Pushed(c0, srv, h, d, init, pushInterval);
    assert store.Contents() == c1[key := pushed];
    UpdateTwice(c0, key, g, pushed);
    PushedFits(c0, srv, h, d, init, pushInterval);
    lines := RenderAll([UnameSample(srv, ts)] + cpuSamples + TailSamples(bl, ts, spec, r, rx, tx));
  }

  lemma UpdateTwice<K, V>(m: map<K, V>, k: K, a: V, b: V)
    ensures m[k := a][k := b] == m[k := b]
  {
  }

  /** The counters `_get_state` hands back fit the role's cores. */
  lemma GetOrCreateFits(c: map<string, Counters>, key: string, n: nat, init: StateDraws)
    requires |init.baselines| == 6 * n && Fits(c, key, n)
    ensures Sound(GetOrCreate(c, key, n, init)) && Covers(GetOrCreate(c, key, n, init).cpu, n)
  {
  }

  /** The rest of one server's push on its registered state: `advance_cpu`,
      the counter lines read from the advanced counters, then
      `advance_network` and the byte counters it leaves. */
  method AdvanceAndRead(store: StateStore, key: string, r: Readings, pushInterval: nat,
                        bl: seq<Label>, ts: string, n: nat)
    returns (cpuSamples: seq<Sample>, rx: real, tx: real)
    requires store.Valid() && key in store.states && Covers(store.states[key].cpuSeconds, n)
    modifies store.states[key]
    ensures store.Valid() && store.states == old(store.states)
    ensures store.Contents() == old(store.Contents())[key := After(old(store.states[key].Snapshot()), r, pushInterval)]
    ensures cpuSamples == CpuSamples(bl, ts, After(old(store.states[key].Snapshot()), r, pushInterval).cpu, n)
    ensures rx == After(old(store.states[key].Snapshot()), r, pushInterval).rx
    ensures tx == After(old(store.states[key].Snapshot()), r, pushInterval).tx
  {
    var st := store.states[key];
    ghost var c0 := store.Contents();
    ghost var g := st.Snapshot();
    ghost var g1 := CpuTick(g, r.cpuPct, pushInterval as real);
    store.AdvanceCpu(key, r.cpuPct, pushInterval as real);
    assert st.Snapshot() == store.Contents()[key] == g1;
    cpuSamples := CpuLines(bl, ts, st.cpuSeconds, n);
    ghost var c1 := store.Contents();
    store.AdvanceNetwork(key, r.rxRate, r.txRate, pushInterval as real);
    assert store.Contents() == c1[key := After(g, r, pushInterval)];
    UpdateTwice(c0, key, g1, After(g, r, pushInterval));
    rx, tx := st.netRxBytes, st.netTxBytes;
  }

  /** The nested loop over cores and modes that reads the counters. */
  method CpuLines(bl: seq<Label>, ts: string, cpu: map<CpuKey, real>, n: nat) returns (samples: seq<Sample>)
    requires Covers(cpu, n)
    ensures samples == CpuSamples(bl, ts, cpu, n)
  {
    samples := [];
    for c := 0 to n
      invariant samples == CpuSamples(bl, ts, cpu, c)
    {
      var row := CoreLines(bl, ts, cpu, c);
      samples := samples + row;
    }
  }

  /** The inner loop: core `c`'s six lines, mode by mode. */
  method CoreLines(bl: seq<Label>, ts: string, cpu: map<CpuKey, real>, c: nat) returns (row: seq<Sample>)
    requires Covers(cpu, c + 1)
    ensures row == CpuRow(bl, ts, cpu, c)
  {
    row := [];
    for j := 0 to |MODES|
      invariant row == CpuModes(bl, ts, cpu, c, j)
    {
      var k := CpuKey(c, MODES[j]);
      row := row + [CpuSample(bl, ts, k, cpu[k])];
    }
  }

  // ---------------------------------------------------------------------
  // The whole payload
  // ---------------------------------------------------------------------

  /** Every registered state of a listed server is sound and has at least
      that server's cores. */
  ghost predicate Compatible(c: map<string, Counters>)
  {
    forall i | 0 <= i < |SERVERS| :: Fits(c, ServerKey(i), Spec(SERVERS[i].role).numCpus)
  }

  /** The inputs of one push of the fleet: one hash, one set of draws and one
      fresh-state draw sized by its role per server. */
  ghost predicate InputsFit(hashes: seq<int>, draws: seq<ServerDraws>, inits: seq<StateDraws>)
  {
    |hashes| == |SERVERS| && |draws| == |SERVERS| && |inits| == |SERVERS|
    && forall i | 0 <= i < |SERVERS| :: |inits[i].baselines| == 6 * Spec(SERVERS[i].role).numCpus
  }

  /** The registry contents after the pushes of the first `upto` servers, in
      `SERVERS` order. */
  function FleetAfter(c0: map<string, Counters>, hashes: seq<int>, draws: seq<ServerDraws>, inits: seq<StateDraws>,
                      interval: nat, upto: nat): map<string, Counters>
    requires InputsFit(hashes, draws, inits) && upto <= |SERVERS|
  {
    if upto == 0 then c0
    else
      var i := upto - 1;
      var c := FleetAfter(c0, hashes, draws, inits, interval, i);
      c[ServerKey(i) := Pushed(c, SERVERS[i], hashes[i], draws[i], inits[i], interval)]
  }

  /** Pushes keep every listed server's registered state fitting. */
  lemma {:induction false} FleetAfterCompatible(c0: map<string, Counters>, hashes: seq<int>, draws: seq<ServerDraws>,
                                                inits: seq<StateDraws>, interval: nat, upto: nat)
    requires InputsFit(hashes, draws, inits) && upto <= |SERVERS| && Compatible(c0)
    ensures Compatible(FleetAfter(c0, hashes, draws, inits, interval, upto))
  {
    if upto > 0 {
      var i := upto - 1;
      var c := FleetAfter(c0, hashes, draws, inits, interval, i);
      FleetAfterCompatible(c0, hashes, draws, inits, interval, i);
      PushKeepsCompatible(c, i, hashes[i], draws[i], inits[i], interval);
    }
  }

  /** One push keeps the registry compatible with the server table. */
  lemma PushKeepsCompatible(c: map<string, Counters>, i: nat, h: int, d: ServerDraws, init: StateDraws, interval: nat)
    requires i < |SERVERS| && Compatible(c)
    requires |init.baselines| == 6 * Spec(SERVERS[i].role).numCpus
    ensures Compatible(c[ServerKey(i) := Pushed(c, SERVERS[i], h, d, init, interval)])
  {
    forall j | 0 <= j < |SERVERS|
      ensures Fits(c[ServerKey(i) := Pushed(c, SERVERS[i], h, d, init, interval)], ServerKey(j), Spec(SERVERS[j].role).numCpus)
    {
      PushKeepsFits(c, i, h, d, init, interval, j);
    }
  }

  /** One push keeps every listed server's registered state fitting. */
  lemma PushKeepsFits(c: map<string, Counters>, i: nat, h: int, d: ServerDraws, init: StateDraws, interval: nat, j: nat)
    requires i < |SERVERS| && j < |SERVERS| && Compatible(c)
    requires |init.baselines| == 6 * Spec(SERVERS[i].role).numCpus
    ensures Fits(c[ServerKey(i) := Pushed(c, SERVERS[i], h, d, init, interval)], ServerKey(j), Spec(SERVERS[j].role).numCpus)
  {
    if j == i {
      PushedFits(c, SERVERS[i], h, d, init, interval);
    } else {
      ServerKeysDistinct(j, i);
      assert Fits(c, ServerKey(j), Spec(SERVERS[j].role).numCpus);
    }
  }

  /** Each of the first `upto` servers' counters advanced exactly once, from
      where they stood before the fleet push. */
  lemma {:induction false} FleetAfterEntry(c0: map<string, Counters>, hashes: seq<int>, draws: seq<ServerDraws>,
                                           inits: seq<StateDraws>, interval: nat, upto: nat, j: nat)
    requires InputsFit(hashes, draws, inits) && j < upto <= |SERVERS|
    ensures ServerKey(j) in FleetAfter(c0, hashes, draws, inits, interval, upto)
    ensures FleetAfter(c0, hashes, draws, inits, interval, upto)[ServerKey(j)]
            == Pushed(c0, SERVERS[j], hashes[j], draws[j], inits[j], interval)
  {
    var i := upto - 1;
    if j == i {
      forall k | 0 <= k < i ensures ServerKey(j) != ServerKey(k) {
        ServerKeysDistinct(j, k);
      }
      FleetAfterUntouched(c0, hashes, draws, inits, interval, i, ServerKey(j));
      PushedSameEntry(FleetAfter(c0, hashes, draws, inits, interval, i), c0, SERVERS[j], hashes[j], draws[j], inits[j], interval);
    } else {
      FleetAfterEntry(c0, hashes, draws, inits, interval, i, j);
      ServerKeysDistinct(j, i);
    }
  }

  /** A key none of the first `upto` servers uses is present after their
      pushes exactly when it was before, with the same counters. */
  lemma {:induction false} FleetAfterUntouched(c0: map<string, Counters>, hashes: seq<int>, draws: seq<ServerDraws>,
                                               inits: seq<StateDraws>, interval: nat, upto: nat, key: string)
    requires InputsFit(hashes, draws, inits) && upto <= |SERVERS|
    requires forall j | 0 <= j < upto :: key != ServerKey(j)
    ensures (key in FleetAfter(c0, hashes, draws, inits, interval, upto)) == (key in c0)
    ensures key in c0 ==> FleetAfter(c0, hashes, draws, inits, interval, upto)[key] == c0[key]
  {
    if upto > 0 {
      FleetAfterUntouched(c0, hashes, draws, inits, interval, upto - 1, key);
    }
  }

  /** The readings of the `i`-th server. */
  function FleetReadings(i: nat, hashes: seq<int>, draws: seq<ServerDraws>): Readings
    requires i < |SERVERS| && |hashes| == |draws| == |SERVERS|
  {
    ReadingsOf(SERVERS[i], PhaseBucket(hashes[i]), draws[i])
  }

  /** The block of the `i`-th server, pushed from the registry contents `c`. */
  function ServerBlock(c: map<string, Counters>, ts: string, hashes: seq<int>, draws: seq<ServerDraws>,
                       inits: seq<StateDraws>, interval: nat, i: nat): (ss: seq<Sample>)
    requires InputsFit(hashes, draws, inits) && i < |SERVERS|
    requires Fits(c, ServerKey(i), Spec(SERVERS[i].role).numCpus)
    ensures |ss| == 13 + 6 * Spec(SERVERS[i].role).numCpus
  {
    PushedFits(c, SERVERS[i], hashes[i], draws[i], inits[i], interval);
    ServerSamples(SERVERS[i], ts, FleetReadings(i, hashes, draws),
                  Pushed(c, SERVERS[i], hashes[i], draws[i], inits[i], interval))
  }

  /** Lines of the first `upto` servers, each read from its counters just
      after its own push. */
  function FleetSamples(c0: map<string, Counters>, ts: string, hashes: seq<int>, draws: seq<ServerDraws>,
                        inits: seq<StateDraws>, interval: nat, upto: nat): (ss: seq<Sample>)
    requires InputsFit(hashes, draws, inits) && upto <= |SERVERS| && Compatible(c0)
    ensures |ss| == FleetLineCount(upto)
  {
    if upto == 0 then []
    else
      FleetAfterCompatible(c0, hashes, draws, inits, interval, upto - 1);
      FleetSamples(c0, ts, hashes, draws, inits, interval, upto - 1)
        + ServerBlock(FleetAfter(c0, hashes, draws, inits, interval, upto - 1), ts, hashes, draws, inits, interval, upto - 1)
  }

  /** No line of a server's block in the fleet payload repeats a label key. */
  lemma ServerBlockDistinct(c: map<string, Counters>, ts: string, hashes: seq<int>, draws: seq<ServerDraws>,
                            inits: seq<StateDraws>, interval: nat, i: nat)
    requires InputsFit(hashes, draws, inits) && i < |SERVERS|
    requires Fits(c, ServerKey(i), Spec(SERVERS[i].role).numCpus)
    ensures AllDistinctKeys(ServerBlock(c, ts, hashes, draws, inits, interval, i))
  {
    PushedFits(c, SERVERS[i], hashes[i], draws[i], inits[i], interval);
    ServerSamplesDistinct(SERVERS[i], ts, FleetReadings(i, hashes, draws),
                          Pushed(c, SERVERS[i], hashes[i], draws[i], inits[i], interval));
  }

  lemma FleetSamplesStep(c0: map<string, Counters>, ts: string, hashes: seq<int>, draws: seq<ServerDraws>,
                         inits: seq<StateDraws>, interval: nat, i: nat)
    requires InputsFit(hashes, draws, inits) && i < |SERVERS| && Compatible(c0)
    ensures Compatible(FleetAfter(c0, hashes, draws, inits, interval, i))
    ensures FleetSamples(c0, ts, hashes, draws, inits, interval, i + 1)
            == FleetSamples(c0, ts, hashes, draws, inits, interval, i)
               + ServerBlock(FleetAfter(c0, hashes, draws, inits, interval, i), ts, hashes, draws, inits, interval, i)
  {
    FleetAfterCompatible(c0, hashes, draws, inits, interval, i);
  }

  /** No line of the fleet's payload repeats a label key. */
  lemma {:induction false} FleetSamplesDistinct(c0: map<string, Counters>, ts: string, hashes: seq<int>,
                                                draws: seq<ServerDraws>, inits: seq<StateDraws>, interval: nat, upto: nat)
    requires InputsFit(hashes, draws, inits) && upto <= |SERVERS| && Compatible(c0)
    ensures AllDistinctKeys(FleetSamples(c0, ts, hashes, draws, inits, interval, upto))
  {
    if upto > 0 {
      var i := upto - 1;
      FleetSamplesDistinct(c0, ts, hashes, draws, inits, interval, i);
      FleetSamplesStep(c0, ts, hashes, draws, inits, interval, i);
      var c := FleetAfter(c0, hashes, draws, inits, interval, i);
      assert Fits(c, ServerKey(i), Spec(SERVERS[i].role).numCpus);
      ServerBlockDistinct(c, ts, hashes, draws, inits, interval, i);
      AllDistinctKeysAppend(FleetSamples(c0, ts, hashes, draws, inits, interval, i),
                            ServerBlock(c, ts, hashes, draws, inits, interval, i));
    }
  }

  /** No customer id or server name of the fleet holds a character the
      line format reserves. */
  lemma ServerNamesPlain(i: nat)
    requires i < |SERVERS|
    ensures NameChars(SERVERS[i].customerId) && NameChars(SERVERS[i].serverName)
  {
    CustomerNames();
    HostNames();
    var srv := SERVERS[i];
    assert srv.customerId in {"alpha", "beta", "gamma", "delta", "epsilon"};
    assert srv.serverName in {"web-01", "web-02", "db-01", "app-01", "app-02", "api-01", "batch-01"};
  }

  lemma CustomerNames()
    ensures NameChars("alpha") && NameChars("beta") && NameChars("gamma")
    ensures NameChars("delta") && NameChars("epsilon")
  {
  }

  lemma HostNames()
    ensures NameChars("web-01") && NameChars("web-02") && NameChars("db-01") && NameChars("app-01")
    ensures NameChars("app-02") && NameChars("api-01") && NameChars("batch-01")
  {
  }

  lemma ServerBlockWellFormed(c: map<string, Counters>, ts: string, hashes: seq<int>, draws: seq<ServerDraws>,
                              inits: seq<StateDraws>, interval: nat, i: nat)
    requires InputsFit(hashes, draws, inits) && i < |SERVERS| && NameChars(ts)
    requires Fits(c, ServerKey(i), Spec(SERVERS[i].role).numCpus)
    ensures AllWellFormed(ServerBlock(c, ts, hashes, draws, inits, interval, i))
  {
    PushedFits(c, SERVERS[i], hashes[i], draws[i], inits[i], interval);
    ServerNamesPlain(i);
    ServerSamplesWellFormed(SERVERS[i], ts, FleetReadings(i, hashes, draws),
                            Pushed(c, SERVERS[i], hashes[i], draws[i], inits[i], interval));
  }

  /** Every line of the fleet's payload is one the line reader takes back. */
  lemma {:induction false} FleetSamplesWellFormed(c0: map<string, Counters>, ts: string, hashes: seq<int>,
                                                  draws: seq<ServerDraws>, inits: seq<StateDraws>, interval: nat, upto: nat)
    requires InputsFit(hashes, draws, inits) && upto <= |SERVERS| && Compatible(c0) && NameChars(ts)
    ensures AllWellFormed(FleetSamples(c0, ts, hashes, draws, inits, interval, upto))
  {
    if upto > 0 {
      var i := upto - 1;
      FleetSamplesWellFormed(c0, ts, hashes, draws, inits, interval, i);
      FleetSamplesStep(c0, ts, hashes, draws, inits, interval, i);
      var c := FleetAfter(c0, hashes, draws, inits, interval, i);
      assert Fits(c, ServerKey(i), Spec(SERVERS[i].role).numCpus);
      ServerBlockWellFormed(c, ts, hashes, draws, inits, interval, i);
      AllWellFormedAppend(FleetSamples(c0, ts, hashes, draws, inits, interval, i),
                          ServerBlock(c, ts, hashes, draws, inits, interval, i));
    }
  }

  /** The payload `build_all_metrics` sends splits at its newlines into
      exactly its 638 lines and an empty tail, and each line reads back as
      the sample it was written from. */
  lemma FleetPayloadReadsBack(c0: map<string, Counters>, tsMs: int, hashes: seq<int>, draws: seq<ServerDraws>,
                              inits: seq<StateDraws>, interval: nat)
    requires InputsFit(hashes, draws, inits) && Compatible(c0)
    ensures var ss := FleetSamples(c0, IntToString(tsMs), hashes, draws, inits, interval, |SERVERS|);
            |ss| == 638
            && Split(Payload(RenderAll(ss)), '\n') == RenderAll(ss) + [""]
            && forall k :: 0 <= k < |ss| ==> ParseLine(RenderAll(ss)[k]) == Some(ss[k])
  {
    var ts := IntToString(tsMs);
    var ss := FleetSamples(c0, ts, hashes, draws, inits, interval, |SERVERS|);
    FleetLineTotal();
    IntNameChars(tsMs);
    FleetSamplesWellFormed(c0, ts, hashes, draws, inits, interval, |SERVERS|);
    PayloadOfSamples(ss);
    forall k | 0 <= k < |ss| ensures ParseLine(RenderAll(ss)[k]) == Some(ss[k]) {
      ParseRender(RenderAll(ss)[k], ss[k]);
    }
  }

  /** Across one fleet push no counter of an already registered server goes
      down: its entry stays, keeps its CPU keys, and every CPU and byte
      counter is at least what it was. */
  lemma FleetAfterMonotone(c0: map<string, Counters>, hashes: seq<int>, draws: seq<ServerDraws>,
                           inits: seq<StateDraws>, interval: nat, upto: nat, j: nat)
    requires InputsFit(hashes, draws, inits) && j < upto <= |SERVERS| && ServerKey(j) in c0
    ensures var after := FleetAfter(c0, hashes, draws, inits, interval, upto);
            && ServerKey(j) in after
            && after[ServerKey(j)].cpu.Keys == c0[ServerKey(j)].cpu.Keys
            && (forall k | k in c0[ServerKey(j)].cpu :: after[ServerKey(j)].cpu[k] >= c0[ServerKey(j)].cpu[k])
            && after[ServerKey(j)].rx >= c0[ServerKey(j)].rx && after[ServerKey(j)].tx >= c0[ServerKey(j)].tx
  {
    FleetAfterEntry(c0, hashes, draws, inits, interval, upto, j);
    PushedMonotone(c0, SERVERS[j], hashes[j], draws[j], inits[j], interval);
  }

  /** `build_all_metrics`: every server's block in `SERVERS` order under one
      shared timestamp, joined by newlines with a trailing newline. */
  method BuildAllMetrics(store: StateStore, tsMs: int, hashes: seq<int>, draws: seq<ServerDraws>,
                         inits: seq<StateDraws>, pushInterval: nat)
    returns (payload: string)
    requires store.Valid() && Compatible(store.Contents()) && InputsFit(hashes, draws, inits)
    modifies store, store.states.Values
    ensures store.Valid()
    ensures store.Contents() == FleetAfter(old(store.Contents()), hashes, draws, inits, pushInterval, |SERVERS|)
    ensures payload == Payload(RenderAll(FleetSamples(old(store.Contents()), IntToString(tsMs), hashes, draws,
                                                      inits, pushInterval, |SERVERS|)))
  {
    ghost var c0 := store.Contents();
    var ts := IntToString(tsMs);
    var allLines: seq<string> := [];
    for i := 0 to |SERVERS|
      invariant store.Valid()
      invariant store.Contents() == FleetAfter(c0, hashes, draws, inits, pushInterval, i)
      invariant forall st | st in store.states.Values :: st in old(store.states.Values) || fresh(st)
      invariant allLines == RenderAll(FleetSamples(c0, ts, hashes, draws, inits, pushInterval, i))
    {
      allLines := ExtendWithServer(store, c0, tsMs, hashes, draws, inits, pushInterval, i, allLines);
    }
    payload := Join(allLines, '\n') + "\n";
  }

  /** One turn of `build_all_metrics`'s loop: the `i`-th server's push, its
      lines appended to those of the servers before it. */
  method ExtendWithServer(store: StateStore, ghost c0: map<string, Counters>, tsMs: int, hashes: seq<int>,
                          draws: seq<ServerDraws>, inits: seq<StateDraws>, pushInterval: nat, i: nat,
                          allLines: seq<string>)
    returns (extended: seq<string>)
    requires InputsFit(hashes, draws, inits) && i < |SERVERS| && Compatible(c0)
    requires store.Valid() && store.Contents() == FleetAfter(c0, hashes, draws, inits, pushInterval, i)
    requires allLines == RenderAll(FleetSamples(c0, IntToString(tsMs), hashes, draws, inits, pushInterval, i))
    modifies store, store.states.Values
    ensures store.Valid()
    ensures store.Contents() == FleetAfter(c0, hashes, draws, inits, pushInterval, i + 1)
    ensures forall st | st in store.states.Values :: st in old(store.states.Values) || fresh(st)
    ensures extended == RenderAll(FleetSamples(c0, IntToString(tsMs), hashes, draws, inits, pushInterval, i + 1))
  {
    var ts := IntToString(tsMs);
    FleetAfterCompatible(c0, hashes, draws, inits, pushInterval, i);
    ghost var c := store.Contents();
    var lines := BuildServerMetrics(store, SERVERS[i], tsMs, hashes[i], draws[i], inits[i], pushInterval);
    assert lines == RenderAll(ServerBlock(c, ts, hashes, draws, inits, pushInterval, i));
    RenderAllAppend(FleetSamples(c0, ts, hashes, draws, inits, pushInterval, i),
                    ServerBlock(c, ts, hashes, draws, inits, pushInterval, i));
    extended := allLines + lines;
  }
}
