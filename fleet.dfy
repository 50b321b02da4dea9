/** The fleet simulator's server tables and the per-server cumulative
    counters: the `ServerState` objects and the lazily filled registry that
    holds them. The random draws a new state starts from are parameters. */
module AlloyFleet {
  import opened Text
  import opened Numerals

  // ---------------------------------------------------------------------
  // Server tables
  // ---------------------------------------------------------------------

  const GiB: nat := 1024 * 1024 * 1024

  datatype Role = Web | Db | App | Api | Batch

  datatype RoleSpec = RoleSpec(ramBytes: nat, diskBytes: nat, numCpus: nat)

  /** `ROLE_SPECS`: RAM, disk and core count per role. */
  function Spec(role: Role): RoleSpec
  {
    match role
    case Web => RoleSpec(8 * GiB, 50 * GiB, 4)
    case Db => RoleSpec(16 * GiB, 200 * GiB, 8)
    case App => RoleSpec(8 * GiB, 50 * GiB, 4)
    case Api => RoleSpec(8 * GiB, 50 * GiB, 4)
    case Batch => RoleSpec(32 * GiB, 500 * GiB, 8)
  }

  datatype Server = Server(customerId: string, serverName: string, role: Role)

  /** `SERVERS`, in the order the payload lists them. */
  const SERVERS: seq<Server> := [
    Server("alpha", "web-01", Web),
    Server("alpha", "web-02", Web),
    Server("alpha", "db-01", Db),
    Server("beta", "app-01", App),
    Server("beta", "app-02", App),
    Server("gamma", "web-01", Web),
    Server("gamma", "api-01", Api),
    Server("gamma", "db-01", Db),
    Server("gamma", "batch-01", Batch),
    Server("delta", "web-01", Web),
    Server("delta", "db-01", Db),
    Server("epsilon", "web-01", Web),
    Server("epsilon", "web-02", Web),
    Server("epsilon", "db-01", Db)
  ]

  const ENVIRONMENT: string := "production"

  // ---------------------------------------------------------------------
  // CPU counter keys
  // ---------------------------------------------------------------------

  datatype Mode = Idle | User | System | IoWait | Nice | SoftIrq

  /** The six modes in the order every loop visits them. */
  const MODES: seq<Mode> := [Idle, User, System, IoWait, Nice, SoftIrq]

  function ModeName(m: Mode): string
  {
    match m
    case Idle => "idle"
    case User => "user"
    case System => "system"
    case IoWait => "iowait"
    case Nice => "nice"
    case SoftIrq => "softirq"
  }

  /** Where `m` stands in `MODES`. */
  function ModeIndex(m: Mode): (i: nat)
    ensures i < |MODES| && MODES[i] == m
  {
    match m
    case Idle => 0
    case User => 1
    case System => 2
    case IoWait => 3
    case Nice => 4
    case SoftIrq => 5
  }

  /** The `cpu_seconds` key `"{cpu}:{mode}"`, kept as the pair it spells. */
  datatype CpuKey = CpuKey(cpu: nat, mode: Mode)

  function KeyText(k: CpuKey): string
  {
    NatToString(k.cpu) + [':'] + ModeName(k.mode)
  }

  /** Distinct pairs spell distinct dictionary keys, so keying the counters by
      the pair loses nothing. */
  lemma KeyTextInjective(a: CpuKey, b: CpuKey)
    requires KeyText(a) == KeyText(b)
    ensures a == b
  {
    var sa, sb := NatToString(a.cpu), NatToString(b.cpu);
    assert ':' !in sa by {
      forall j | 0 <= j < |sa| ensures sa[j] != ':' { assert IsDigit(sa[j]); }
    }
    assert ':' !in sb by {
      forall j | 0 <= j < |sb| ensures sb[j] != ':' { assert IsDigit(sb[j]); }
    }
    SplitAtFirst(KeyText(a), sa, ':', ModeName(a.mode));
    SplitAtFirst(KeyText(b), sb, ':', ModeName(b.mode));
    NatToStringValue(a.cpu);
    NatToStringValue(b.cpu);
  }

  /** The keys of a server with `n` cores: every core below `n`, every mode. */
  ghost predicate IsCoreKeys(keys: set<CpuKey>, n: nat)
  {
    forall k: CpuKey :: k in keys <==> k.cpu < n
  }

  /** The six keys of one core. */
  function RowKeys(cpu: nat): set<CpuKey>
  {
    {CpuKey(cpu, Idle), CpuKey(cpu, User), CpuKey(cpu, System),
     CpuKey(cpu, IoWait), CpuKey(cpu, Nice), CpuKey(cpu, SoftIrq)}
  }

  lemma RowKeysCount(cpu: nat)
    ensures |RowKeys(cpu)| == 6
  {
    var s1 := {CpuKey(cpu, Idle)};
    var s2 := s1 + {CpuKey(cpu, User)};
    var s3 := s2 + {CpuKey(cpu, System)};
    var s4 := s3 + {CpuKey(cpu, IoWait)};
    var s5 := s4 + {CpuKey(cpu, Nice)};
    var s6 := s5 + {CpuKey(cpu, SoftIrq)};
    assert |s2| == 2 by { assert CpuKey(cpu, User) !in s1; }
    assert |s3| == 3 by { assert CpuKey(cpu, System) !in s2; }
    assert |s4| == 4 by { assert CpuKey(cpu, IoWait) !in s3; }
    assert |s5| == 5 by { assert CpuKey(cpu, Nice) !in s4; }
    assert |s6| == 6 by { assert CpuKey(cpu, SoftIrq) !in s5; }
    assert RowKeys(cpu) == s6;
  }

  lemma RowKeysAre(cpu: nat)
    ensures forall k: CpuKey :: k in RowKeys(cpu) <==> k.cpu == cpu
  {
    forall k: CpuKey | k.cpu == cpu ensures k in RowKeys(cpu) {
      match k.mode
      case Idle =>
      case User =>
      case System =>
      case IoWait =>
      case Nice =>
      case SoftIrq =>
    }
  }

  /** A key set for `n` cores has exactly 6·n keys. */
  lemma {:induction false} CoreKeysCount(keys: set<CpuKey>, n: nat)
    requires IsCoreKeys(keys, n)
    ensures |keys| == 6 * n
  {
    if n == 0 {
      assert keys == {} by {
        forall k | k in keys ensures false { }
      }
    } else {
      var row := RowKeys(n - 1);
      var lower := keys - row;
      RowKeysAre(n - 1);
      assert IsCoreKeys(lower, n - 1);
      CoreKeysCount(lower, n - 1);
      RowKeysCount(n - 1);
      assert keys == lower + row;
      assert lower * row == {};
    }
  }

  // ---------------------------------------------------------------------
  // Cumulative counters
  // ---------------------------------------------------------------------

  /** The share of a tick a mode receives: idle the non-busy part, the busy
      part split .55/.30/.10/.03/.02 among the other five modes. */
  function Share(m: Mode, busy: real): real
  {
    match m
    case Idle => 1.0 - busy
    case User => busy * 0.55
    case System => busy * 0.30
    case IoWait => busy * 0.10
    case Nice => busy * 0.03
    case SoftIrq => busy * 0.02
  }

  /** The counters after one `advance_cpu` tick. */
  function CpuAfter(s: map<CpuKey, real>, busy: real, interval: real): (r: map<CpuKey, real>)
    ensures r.Keys == s.Keys
  {
    map k | k in s :: s[k] + Share(k.mode, busy) * interval
  }

  /** The counters once the cores below `upto` have had their tick. */
  function CoresAfter(s: map<CpuKey, real>, upto: nat, busy: real, interval: real): (r: map<CpuKey, real>)
    ensures r.Keys == s.Keys
  {
    map k | k in s :: if k.cpu < upto then s[k] + Share(k.mode, busy) * interval else s[k]
  }

  /** The counters once core `cpu` alone has had its tick. */
  function CoreAfter(s: map<CpuKey, real>, cpu: nat, busy: real, interval: real): (r: map<CpuKey, real>)
    ensures r.Keys == s.Keys
  {
    map k | k in s :: if k.cpu == cpu then s[k] + Share(k.mode, busy) * interval else s[k]
  }

  lemma CoresAfterNext(s: map<CpuKey, real>, cpu: nat, busy: real, interval: real)
    ensures CoreAfter(CoresAfter(s, cpu, busy, interval), cpu, busy, interval) == CoresAfter(s, cpu + 1, busy, interval)
  {
  }

  /** The six modes of a core gain exactly one interval between them. */
  lemma SharesSum(busy: real, interval: real)
    ensures Share(Idle, busy) * interval + Share(User, busy) * interval
          + Share(System, busy) * interval + Share(IoWait, busy) * interval
          + Share(Nice, busy) * interval + Share(SoftIrq, busy) * interval == interval
  {
  }

  /** The sum of one core's six counters. */
  function CoreTotal(s: map<CpuKey, real>, cpu: nat): real
    requires RowKeys(cpu) <= s.Keys
  {
    s[CpuKey(cpu, Idle)] + s[CpuKey(cpu, User)] + s[CpuKey(cpu, System)]
      + s[CpuKey(cpu, IoWait)] + s[CpuKey(cpu, Nice)] + s[CpuKey(cpu, SoftIrq)]
  }

  /** Conservation: one tick raises every core's total by exactly `interval`. */
  lemma CoreTotalAfter(s: map<CpuKey, real>, cpu: nat, busy: real, interval: real)
    requires RowKeys(cpu) <= s.Keys
    ensures RowKeys(cpu) <= CpuAfter(s, busy, interval).Keys
    ensures CoreTotal(CpuAfter(s, busy, interval), cpu) == CoreTotal(s, cpu) + interval
  {
    SharesSum(busy, interval);
  }

  lemma MulNonneg(x: real, y: real)
    requires x >= 0.0 && y >= 0.0
    ensures x * y >= 0.0
  {
  }

  /** With a utilisation in [0, 100] and a non-negative interval no
      counter goes down. */
  lemma CpuAfterMonotone(s: map<CpuKey, real>, pct: real, interval: real)
    requires 0.0 <= pct <= 100.0 && interval >= 0.0
    ensures forall k | k in s :: CpuAfter(s, pct / 100.0, interval)[k] >= s[k]
  {
    forall k | k in s ensures CpuAfter(s, pct / 100.0, interval)[k] >= s[k] {
      MulNonneg(Share(k.mode, pct / 100.0), interval);
    }
  }

  /** At 50% for 15 seconds every core's idle counter gains 7.5 seconds and
      its user counter 4.125. */
  lemma HalfBusyExample(s: map<CpuKey, real>, c: nat)
    requires CpuKey(c, Idle) in s && CpuKey(c, User) in s
    ensures CpuAfter(s, 50.0 / 100.0, 15.0)[CpuKey(c, Idle)] == s[CpuKey(c, Idle)] + 7.5
    ensures CpuAfter(s, 50.0 / 100.0, 15.0)[CpuKey(c, User)] == s[CpuKey(c, User)] + 4.125
  {
  }

  /** The keys of the cores below `n`. */
  function CoreKeys(n: nat): (keys: set<CpuKey>)
    ensures IsCoreKeys(keys, n)
  {
    if n == 0 then {} else RowKeysAre(n - 1); CoreKeys(n - 1) + RowKeys(n - 1)
  }

  /** The counters a fresh state starts from: one per core below `n` and
      mode, the one for core `c` and mode `m` being the draw
      `baselines[6 * c + index of m]`, in the order the loops draw them. */
  function InitialCpu(n: nat, baselines: seq<real>): (r: map<CpuKey, real>)
    requires |baselines| == 6 * n
    ensures IsCoreKeys(r.Keys, n)
    ensures forall k | k in r :: r[k] == baselines[6 * k.cpu + ModeIndex(k.mode)]
  {
    map k | k in CoreKeys(n) :: baselines[6 * k.cpu + ModeIndex(k.mode)]
  }

  /** A fresh state has 6·n counters, each within the range of its draw. */
  lemma InitialCpuCounters(n: nat, baselines: seq<real>)
    requires |baselines| == 6 * n && BaselineDraws(baselines)
    ensures |InitialCpu(n, baselines)| == 6 * n
    ensures forall k | k in InitialCpu(n, baselines) :: 10000.0 <= InitialCpu(n, baselines)[k] <= 50000.0
  {
    CoreKeysCount(InitialCpu(n, baselines).Keys, n);
  }

  /** `random.uniform(10000, 50000)` for every baseline counter. */
  ghost predicate BaselineDraws(baselines: seq<real>)
  {
    forall i :: 0 <= i < |baselines| ==> 10000.0 <= baselines[i] <= 50000.0
  }

  /** The draws a fresh state is built from: six counters per core, then
      the two byte counters. */
  datatype StateDraws = StateDraws(baselines: seq<real>, rx0: real, tx0: real)

  /** `random.uniform`'s ranges for the three kinds of draw. */
  ghost predicate DrawsInRange(init: StateDraws)
  {
    BaselineDraws(init.baselines)
    && 1000000000.0 <= init.rx0 <= 5000000000.0
    && 500000000.0 <= init.tx0 <= 2000000000.0
  }

  /** The values of a state's fields at one moment. */
  datatype Counters = Counters(numCpus: nat, cpu: map<CpuKey, real>, rx: real, tx: real)

  /** One counter for every core and mode, and no other. */
  ghost predicate Sound(c: Counters)
  {
    IsCoreKeys(c.cpu.Keys, c.numCpus)
  }

  /** The counters a fresh state of `n` cores holds. */
  function Fresh(n: nat, init: StateDraws): (c: Counters)
    requires |init.baselines| == 6 * n
    ensures Sound(c)
  {
    Counters(n, InitialCpu(n, init.baselines), init.rx0, init.tx0)
  }

  /** A fresh state has 6·n counters, each within the range of its draw,
      and byte counters within theirs. */
  lemma FreshInRange(n: nat, init: StateDraws)
    requires |init.baselines| == 6 * n && DrawsInRange(init)
    ensures |Fresh(n, init).cpu| == 6 * n
    ensures forall k | k in Fresh(n, init).cpu :: 10000.0 <= Fresh(n, init).cpu[k] <= 50000.0
    ensures 1000000000.0 <= Fresh(n, init).rx <= 5000000000.0
    ensures 500000000.0 <= Fresh(n, init).tx <= 2000000000.0
  {
    InitialCpuCounters(n, init.baselines);
  }

  /** The counters after `advance_cpu(cpu_pct, interval)`. */
  function CpuTick(c: Counters, cpuPct: real, interval: real): (r: Counters)
    ensures r.numCpus == c.numCpus && r.cpu.Keys == c.cpu.Keys && r.rx == c.rx && r.tx == c.tx
  {
    c.(cpu := CpuAfter(c.cpu, cpuPct / 100.0, interval))
  }

  /** The counters after `advance_network(rx_rate, tx_rate, interval)`. */
  function NetTick(c: Counters, rxRate: real, txRate: real, interval: real): (r: Counters)
    ensures r.numCpus == c.numCpus && r.cpu == c.cpu
  {
    c.(rx := c.rx + rxRate * interval, tx := c.tx + txRate * interval)
  }

  /** A tick keeps the counter keys. */
  lemma TicksSound(c: Counters, cpuPct: real, rxRate: real, txRate: real, interval: real)
    requires Sound(c)
    ensures Sound(CpuTick(c, cpuPct, interval)) && Sound(NetTick(c, rxRate, txRate, interval))
  {
  }

  /** With non-negative rates and interval the byte counters never go down;
      three 15-second ticks at 1e6 bytes per second add 4.5e7. */
  lemma NetTickGrows(c: Counters, rxRate: real, txRate: real, interval: real)
    requires rxRate >= 0.0 && txRate >= 0.0 && interval >= 0.0
    ensures NetTick(c, rxRate, txRate, interval).rx >= c.rx
    ensures NetTick(c, rxRate, txRate, interval).tx >= c.tx
    ensures NetTick(NetTick(NetTick(c, 1000000.0, txRate, 15.0), 1000000.0, txRate, 15.0), 1000000.0, txRate, 15.0).rx
            == c.rx + 45000000.0
  {
    MulNonneg(rxRate, interval);
    MulNonneg(txRate, interval);
  }

  /** The per-server cumulative counters. */
  class ServerState {
    const numCpus: nat
    var cpuSeconds: map<CpuKey, real>
    var netRxBytes: real
    var netTxBytes: real

    /** One counter for every core and mode, and no other. */
    ghost predicate Valid()
      reads this
    {
      Sound(Snapshot())
    }

    function Snapshot(): Counters
      reads this
    {
      Counters(numCpus, cpuSeconds, netRxBytes, netTxBytes)
    }

    /** `ServerState(num_cpus)`, with the random draws passed in. */
    constructor (numCpus: nat, init: StateDraws)
      requires |init.baselines| == 6 * numCpus
      ensures Valid() && this.numCpus == numCpus
      ensures cpuSeconds == InitialCpu(numCpus, init.baselines)
      ensures netRxBytes == init.rx0 && netTxBytes == init.tx0
    {
      this.numCpus := numCpus;
      var baselines := init.baselines;
      var m: map<CpuKey, real> := map[];
      for cpu := 0 to numCpus
        invariant forall k: CpuKey :: k in m <==> k.cpu < cpu
        invariant forall k | k in m :: m[k] == baselines[6 * k.cpu + ModeIndex(k.mode)]
      {
        for j := 0 to 6
          invariant forall k: CpuKey :: k in m <==> (k.cpu < cpu || (k.cpu == cpu && ModeIndex(k.mode) < j))
          invariant forall k | k in m :: m[k] == baselines[6 * k.cpu + ModeIndex(k.mode)]
        {
          m := m[CpuKey(cpu, MODES[j]) := baselines[6 * cpu + j]];
        }
      }
      assert m == InitialCpu(numCpus, baselines);
      cpuSeconds := m;
      netRxBytes := init.rx0;
      netTxBytes := init.tx0;
    }

    /** `advance_cpu`: every core's six counters gain their share of the
        interval; nothing else changes. */
    method AdvanceCpu(cpuPct: real, interval: real)
      requires Valid()
      modifies this
      ensures Valid()
      ensures Snapshot() == CpuTick(old(Snapshot()), cpuPct, interval)
    {
      var busy := cpuPct / 100.0;
      for cpu := 0 to numCpus
        invariant cpuSeconds == CoresAfter(old(cpuSeconds), cpu, busy, interval)
        invariant netRxBytes == old(netRxBytes) && netTxBytes == old(netTxBytes)
      {
        RowKeysAre(cpu);
        AdvanceCore(cpu, busy, interval);
        CoresAfterNext(old(cpuSeconds), cpu, busy, interval);
      }
      assert CoresAfter(old(cpuSeconds), numCpus, busy, interval) == CpuAfter(old(cpuSeconds), busy, interval);
    }

    /** The body of `advance_cpu`'s loop: core `cpu`'s six updates. */
    method AdvanceCore(cpu: nat, busy: real, interval: real)
      requires RowKeys(cpu) <= cpuSeconds.Keys
      modifies this
      ensures cpuSeconds == CoreAfter(old(cpuSeconds), cpu, busy, interval)
      ensures netRxBytes == old(netRxBytes) && netTxBytes == old(netTxBytes)
    {
      var m := cpuSeconds;
      m := m[CpuKey(cpu, Idle) := m[CpuKey(cpu, Idle)] + (1.0 - busy) * interval];
      m := m[CpuKey(cpu, User) := m[CpuKey(cpu, User)] + busy * 0.55 * interval];
      m := m[CpuKey(cpu, System) := m[CpuKey(cpu, System)] + busy * 0.30 * interval];
      m := m[CpuKey(cpu, IoWait) := m[CpuKey(cpu, IoWait)] + busy * 0.10 * interval];
      m := m[CpuKey(cpu, Nice) := m[CpuKey(cpu, Nice)] + busy * 0.03 * interval];
      m := m[CpuKey(cpu, SoftIrq) := m[CpuKey(cpu, SoftIrq)] + busy * 0.02 * interval];
      ghost var after := CoreAfter(cpuSeconds, cpu, busy, interval);
      forall k | k in m ensures m[k] == after[k] {
        if k.cpu == cpu {
          match k.mode
          case Idle =>
          case User =>
          case System =>
          case IoWait =>
          case Nice =>
          case SoftIrq =>
        }
      }
      cpuSeconds := m;
    }

    /** `advance_network`: each byte counter gains rate × interval. */
    method AdvanceNetwork(rxRate: real, txRate: real, interval: real)
      requires Valid()
      modifies this
      ensures Valid()
      ensures Snapshot() == NetTick(old(Snapshot()), rxRate, txRate, interval)
    {
      netRxBytes := netRxBytes + rxRate * interval;
      netTxBytes := netTxBytes + txRate * interval;
    }
  }

  /** The registry key `customer_id:server_name`. */
  function StateKey(customerId: string, serverName: string): string
  {
    customerId + ":" + serverName
  }

  /** The counters `_get_state` hands back for `key`: the registered ones,
      or those of a fresh state of `n` cores. */
  function GetOrCreate(c: map<string, Counters>, key: string, n: nat, init: StateDraws): Counters
    requires |init.baselines| == 6 * n
  {
    if key in c then c[key] else Fresh(n, init)
  }

  /** Every entry of a registry's contents is sound. */
  ghost predicate AllSound(c: map<string, Counters>)
  {
    forall key | key in c :: Sound(c[key])
  }

  /** The lazily filled registry `_states`. */
  class StateStore {
    var states: map<string, ServerState>

    /** Every state is valid, and no two keys share a state. */
    ghost predicate Valid()
      reads this, states.Values
    {
      (forall key | key in states :: states[key].Valid())
      && forall k1, k2 | k1 in states && k2 in states && k1 != k2 :: states[k1] != states[k2]
    }

    /** The registry's contents as values. */
    ghost function Contents(): (c: map<string, Counters>)
      reads this, states.Values
      ensures c.Keys == states.Keys
    {
      map key | key in states :: states[key].Snapshot()
    }

    /** A valid registry holds sound counters only. */
    lemma ContentsSound()
      requires Valid()
      ensures AllSound(Contents())
    {
    }

    constructor ()
      ensures Valid() && states == map[]
    {
      states := map[];
    }

    /** `_get_state`: the state under the server's key, created from the
        role's core count when absent. An existing state is returned as it
        is; a new one is the only change to the registry. */
    method GetState(customerId: string, serverName: string, role: Role, init: StateDraws)
      returns (st: ServerState)
      requires Valid()
      requires |init.baselines| == 6 * Spec(role).numCpus
      modifies this
      ensures Valid()
      ensures StateKey(customerId, serverName) in states
      ensures st == states[StateKey(customerId, serverName)]
      ensures states == old(states)[StateKey(customerId, serverName) := st]
      ensures Contents() == old(Contents())[StateKey(customerId, serverName) :=
                GetOrCreate(old(Contents()), StateKey(customerId, serverName), Spec(role).numCpus, init)]
      ensures StateKey(customerId, serverName) in old(states) ==> st == old(states[StateKey(customerId, serverName)])
      ensures StateKey(customerId, serverName) !in old(states) ==> fresh(st)
      ensures forall s | s in states.Values :: s in old(states.Values) || fresh(s)
    {
      var key := StateKey(customerId, serverName);
      if key !in states {
        var created := new ServerState(Spec(role).numCpus, init);
        Register(key, created);
      }
      st := states[key];
    }

    /** The insert branch of `_get_state`: a state not yet registered goes
        in under the absent `key`. */
    method Register(key: string, created: ServerState)
      requires Valid() && key !in states
      requires created.Valid() && created !in states.Values
      modifies this
      ensures Valid()
      ensures states == old(states)[key := created]
      ensures Contents() == old(Contents())[key := created.Snapshot()]
    {
      ghost var before := Contents();
      states := states[key := created];
      forall k | k in states && k != key ensures states[k].Snapshot() == before[k] {
      }
    }

    /** `state.advance_cpu(...)` on the state under `key`; no other state
        changes. */
    method AdvanceCpu(key: string, cpuPct: real, interval: real)
      requires Valid() && key in states
      modifies states[key]
      ensures Valid() && states == old(states)
      ensures Contents() == old(Contents())[key := CpuTick(old(Contents())[key], cpuPct, interval)]
    {
      var st := states[key];
      st.AdvanceCpu(cpuPct, interval);
      forall k | k in states && k != key ensures states[k].Valid() && states[k].Snapshot() == old(states[k].Snapshot()) {
        assert states[k] != st;
      }
    }

    /** `state.advance_network(...)` on the state under `key`; no other
        state changes. */
    method AdvanceNetwork(key: string, rxRate: real, txRate: real, interval: real)
      requires Valid() && key in states
      modifies states[key]
      ensures Valid() && states == old(states)
      ensures Contents() == old(Contents())[key := NetTick(old(Contents())[key], rxRate, txRate, interval)]
    {
      var st := states[key];
      st.AdvanceNetwork(rxRate, txRate, interval);
      forall k | k in states && k != key ensures states[k].Valid() && states[k].Snapshot() == old(states[k].Snapshot()) {
        assert states[k] != st;
      }
    }
  }

  /** The registry key of the `i`-th server. */
  function ServerKey(i: nat): string
    requires i < |SERVERS|
  {
    StateKey(SERVERS[i].customerId, SERVERS[i].serverName)
  }

  /** Distinct customer and server pairs give distinct registry keys, as
      long as customer ids hold no colon. */
  lemma StateKeyInjective(c1: string, n1: string, c2: string, n2: string)
    requires ':' !in c1 && ':' !in c2
    requires StateKey(c1, n1) == StateKey(c2, n2)
    ensures c1 == c2 && n1 == n2
  {
    SplitAtFirst(StateKey(c1, n1), c1, ':', n1);
    SplitAtFirst(StateKey(c2, n2), c2, ':', n2);
  }

  /** No two entries of `SERVERS` name the same customer and server. */
  lemma ServersDistinct(i: nat, j: nat)
    requires i < j < |SERVERS|
    ensures SERVERS[i].customerId != SERVERS[j].customerId || SERVERS[i].serverName != SERVERS[j].serverName
  {
  }

  lemma CustomerIdsPlain(i: nat)
    requires i < |SERVERS|
    ensures ':' !in SERVERS[i].customerId
  {
  }

  /** No two entries of `SERVERS` share a registry key, so every server of a
      payload has a state of its own. */
  lemma ServerKeysDistinct(i: nat, j: nat)
    requires i < |SERVERS| && j < |SERVERS| && i != j
    ensures ServerKey(i) != ServerKey(j)
  {
    if i < j {
      ServersDistinct(i, j);
    } else {
      ServersDistinct(j, i);
    }
    CustomerIdsPlain(i);
    CustomerIdsPlain(j);
    if ServerKey(i) == ServerKey(j) {
      StateKeyInjective(SERVERS[i].customerId, SERVERS[i].serverName, SERVERS[j].customerId, SERVERS[j].serverName);
    }
  }

  function FleetLineCount(upto: nat): nat
    requires upto <= |SERVERS|
  {
    if upto == 0 then 0 else FleetLineCount(upto - 1) + 13 + 6 * Spec(SERVERS[upto - 1].role).numCpus
  }

  lemma FleetLinesFirstFive()
    ensures FleetLineCount(5) == 209
  {
    assert FleetLineCount(1) == 37;
    assert FleetLineCount(2) == 74;
    assert FleetLineCount(3) == 135;
    assert FleetLineCount(4) == 172;
  }

  lemma FleetLinesFirstNine()
    ensures FleetLineCount(9) == 405
  {
    FleetLinesFirstFive();
    assert FleetLineCount(6) == 246;
    assert FleetLineCount(7) == 283;
    assert FleetLineCount(8) == 344;
  }

  /** The fourteen servers write 638 lines. */
  lemma FleetLineTotal()
    ensures FleetLineCount(|SERVERS|) == 638
  {
    FleetLinesFirstNine();
    assert FleetLineCount(10) == 442;
    assert FleetLineCount(11) == 503;
    assert FleetLineCount(12) == 540;
    assert FleetLineCount(13) == 577;
  }
}
