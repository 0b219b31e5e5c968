/** internal/server/server.go: the initial configuration load with its built-in
    fallback, server construction, and the polling loop that reloads the
    configuration file when its modification time moves past the last one
    applied. Files and clocks are inputs: a read is its outcome, a stat is the
    modification time it reports (an integer timestamp), a tick of the loop is
    one pair of them. */
module Server {
  import opened Wrappers
  import opened Json
  import opened KubeApi
  import opened AdmissionMutator
  import opened AdmissionHandler

  /** The bytes Go's `[]byte(...)` gives for a string, for the ASCII text it
      is used on here: one byte per character, of the same code. */
  function AsciiBytes(s: string): (b: Bytes)
    ensures |b| == |s|
    ensures forall i :: 0 <= i < |s| && s[i] as int < 128 ==> b[i] as int == s[i] as int
  {
    seq(|s|, i requires 0 <= i < |s| => if s[i] as int < 128 then s[i] as int as byte else 0)
  }

  /** The document loadDNSConfig falls back to. */
  const DefaultDocument: Bytes :=
    AsciiBytes("\ndnsConfig:\n  options:\n    - name: ndots\n      value: \"1\"\n")

  /** What that document says: one resolver option, `ndots` = "1". */
  const DefaultConfig := DNSConfig(PodDNSConfig([], [], [PodDNSConfigOption("ndots", Some("1"))]))

  /** The YAML library reads the built-in document as what it says. */
  predicate ReadsDefaultDocument(yaml: YamlDecoder)
  {
    yaml(DefaultDocument) == Success(DefaultConfig)
  }

  /** `loadDNSConfig()`: the file's bytes unchanged when it can be read, the
      built-in document when it cannot; never an error. */
  function LoadDNSConfig(fileRead: Option<Bytes>): (r: Result<Bytes>)
    ensures r.Success?
    ensures fileRead.Some? ==> r.value == fileRead.value
    ensures fileRead.None? ==> r.value == DefaultDocument
  {
    match fileRead
    case None => Success(DefaultDocument)
    case Some(data) => Success(data)
  }

  /** The server as far as the core goes: the mutator it built and the
      handler routed at `/mutate`. */
  class Server {
    const mutator: DNSConfigMutator
    const handler: Handler

    constructor (mutator: DNSConfigMutator, handler: Handler)
      ensures this.mutator == mutator && this.handler == handler
    {
      this.mutator := mutator;
      this.handler := handler;
    }
  }

  /** `New(cfg)`. null stands for the process exiting through klog.Fatalf,
      which happens exactly when the loaded document does not parse. With the
      built-in document readable by the YAML library, a missing file never
      aborts start-up and leaves the `ndots` = "1" configuration in force. */
  method New(fileRead: Option<Bytes>, yaml: YamlDecoder) returns (s: Server?)
    ensures s == null <==> yaml(LoadDNSConfig(fileRead).value).Failure?
    ensures s != null ==>
              && fresh(s) && fresh(s.mutator)
              && s.handler.mutator == s.mutator
              && s.mutator.config == yaml(LoadDNSConfig(fileRead).value).value
    ensures fileRead.None? && ReadsDefaultDocument(yaml) ==> s != null && s.mutator.config == DefaultConfig
  {
    var loaded := LoadDNSConfig(fileRead);
    if loaded.Failure? {
      return null;
    }
    var mutator, err := NewDNSConfigMutator(loaded.value, yaml);
    if err.Some? {
      return null;
    }
    var handler := new Handler(mutator);
    s := new Server(mutator, handler);
  }

  // ----- the reload watcher -----

  /** What one tick of the loop observes: the stat outcome (the modification
      time, None when stat fails) and the read outcome (None when the read
      fails). The read is only looked at when the loop gets that far. */
  datatype Tick = Tick(stat: Option<int>, read: Option<Bytes>)

  /** The loop's state: its local `lastMod` and the mutator's configuration. */
  datatype WatchState = WatchState(lastMod: int, config: DNSConfig)

  /** One iteration of `watchConfigMap`. Every failure (stat, read, parse)
      leaves the state as it was, so the next tick tries again; a modification
      time not strictly after `lastMod` changes nothing; a successful reload
      installs the parsed document and records the modification time. */
  function Step(s: WatchState, t: Tick, yaml: YamlDecoder): (r: WatchState)
    ensures t.stat.None? ==> r == s
    ensures t.stat.Some? && t.stat.value <= s.lastMod ==> r == s
    ensures t.read.None? ==> r == s
    ensures t.read.Some? && yaml(t.read.value).Failure? ==> r == s
    ensures t.stat.Some? && t.stat.value > s.lastMod && t.read.Some? && yaml(t.read.value).Success? ==>
              r == WatchState(t.stat.value, yaml(t.read.value).value)
    ensures r.lastMod >= s.lastMod && (r.lastMod == s.lastMod ==> r == s)
  {
    match t.stat
    case None => s
    case Some(modTime) =>
      if modTime <= s.lastMod then s
      else match t.read
        case None => s
        case Some(data) =>
          match yaml(data)
          case Failure(_) => s
          case Success(config) => WatchState(modTime, config)
  }

  /** The loop run over a finite sequence of ticks. */
  function Run(s: WatchState, ticks: seq<Tick>, yaml: YamlDecoder): WatchState
    decreases |ticks|
  {
    if ticks == [] then s else Run(Step(s, ticks[0], yaml), ticks[1..], yaml)
  }

  lemma {:induction false} RunSnoc(s: WatchState, ticks: seq<Tick>, t: Tick, yaml: YamlDecoder)
    ensures Run(s, ticks + [t], yaml) == Step(Run(s, ticks, yaml), t, yaml)
    decreases |ticks|
  {
    if ticks == [] {
      assert ticks + [t] == [t];
    } else {
      assert (ticks + [t])[1..] == ticks[1..] + [t];
      RunSnoc(Step(s, ticks[0], yaml), ticks[1..], t, yaml);
    }
  }

  /** `lastMod` never goes back, and if it has not moved, neither has the
      configuration: the configuration only changes together with a strictly
      later modification time. */
  lemma {:induction false} RunNeverGoesBack(s: WatchState, ticks: seq<Tick>, yaml: YamlDecoder)
    ensures Run(s, ticks, yaml).lastMod >= s.lastMod
    ensures Run(s, ticks, yaml).lastMod == s.lastMod ==> Run(s, ticks, yaml) == s
    decreases |ticks|
  {
    if ticks != [] {
      RunNeverGoesBack(Step(s, ticks[0], yaml), ticks[1..], yaml);
    }
  }

  /** A file whose modification time is never after `lastMod` — with `lastMod`
      the watcher's start time, a file not modified since start-up — is never
      reloaded, whatever the reads and parses would give. */
  lemma {:induction false} NoReloadWithoutNewerFile(s: WatchState, ticks: seq<Tick>, yaml: YamlDecoder)
    requires forall i :: 0 <= i < |ticks| && ticks[i].stat.Some? ==> ticks[i].stat.value <= s.lastMod
    ensures Run(s, ticks, yaml) == s
    decreases |ticks|
  {
    if ticks != [] {
      assert Step(s, ticks[0], yaml) == s;
      assert forall i :: 0 <= i < |ticks[1..]| ==> ticks[1..][i] == ticks[i + 1];
      NoReloadWithoutNewerFile(s, ticks[1..], yaml);
    }
  }

  /** The state after any run is the initial one or exactly what one tick
      read, parsed and installed, with that tick's modification time: the
      configuration in force is always one whole parsed document, never a mix. */
  lemma {:induction false} StateComesFromOneReload(s: WatchState, ticks: seq<Tick>, yaml: YamlDecoder)
    ensures var r := Run(s, ticks, yaml);
            || r == s
            || exists i :: 0 <= i < |ticks| && ticks[i].stat.Some? && ticks[i].read.Some? &&
                 yaml(ticks[i].read.value) == Success(r.config) && r.lastMod == ticks[i].stat.value
    decreases |ticks|
  {
    if ticks != [] {
      var next := Step(s, ticks[0], yaml);
      var r := Run(s, ticks, yaml);
      StateComesFromOneReload(next, ticks[1..], yaml);
      if r == next {
        if next != s {
          assert ticks[0].stat.Some? && ticks[0].read.Some?;
          assert yaml(ticks[0].read.value) == Success(r.config) && r.lastMod == ticks[0].stat.value;
        }
      } else {
        var j :| 0 <= j < |ticks[1..]| && ticks[1..][j].stat.Some? && ticks[1..][j].read.Some? &&
          yaml(ticks[1..][j].read.value) == Success(r.config) && r.lastMod == ticks[1..][j].stat.value;
        assert ticks[j + 1] == ticks[1..][j];
      }
    }
  }

  /** A read that fails on a changed file leaves everything as it was, and the
      next tick, seeing the same modification time, reloads it. */
  lemma FailedReadIsRetried(s: WatchState, modTime: int, data: Bytes, yaml: YamlDecoder)
    requires modTime > s.lastMod && yaml(data).Success?
    ensures Run(s, [Tick(Some(modTime), None)], yaml) == s
    ensures Run(s, [Tick(Some(modTime), None), Tick(Some(modTime), Some(data))], yaml) ==
              WatchState(modTime, yaml(data).value)
  {
    var ts := [Tick(Some(modTime), None), Tick(Some(modTime), Some(data))];
    assert Step(s, ts[0], yaml) == s;
    assert ts[1..] == [Tick(Some(modTime), Some(data))];
    assert Run(s, ts, yaml) == Run(s, ts[1..], yaml);
    assert ts[1..][1..] == [];
  }

  /** `watchConfigMap(mutator)` over the given ticks, starting its `lastMod`
      at `now`. Each tick stands for one `time.Sleep(1 * time.Second)`
      followed by the stat and, where reached, the read. Returns the final
      `lastMod`; the mutator ends holding the configuration Run computes. */
  method WatchConfigMap(mutator: DNSConfigMutator, now: int, ticks: seq<Tick>, yaml: YamlDecoder)
    returns (lastMod: int)
    modifies mutator
    ensures WatchState(lastMod, mutator.config) == Run(WatchState(now, old(mutator.config)), ticks, yaml)
  {
    lastMod := now;
    ghost var start := WatchState(now, mutator.config);
    var i := 0;
    while i < |ticks|
      invariant 0 <= i <= |ticks|
      invariant WatchState(lastMod, mutator.config) == Run(start, ticks[..i], yaml)
    {
      var tick := ticks[i];
      i := i + 1;
      assert ticks[..i] == ticks[..i - 1] + [tick];
      RunSnoc(start, ticks[..i - 1], tick, yaml);
      if tick.stat.None? {
        continue;
      }
      var modTime := tick.stat.value;
      if modTime > lastMod {
        if tick.read.None? {
          continue;
        }
        var err := mutator.UpdateConfig(tick.read.value, yaml);
        if err.Some? {
          continue;
        }
        lastMod := modTime;
      }
    }
    assert ticks[..i] == ticks;
  }
}
