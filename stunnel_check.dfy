/**
 * `check_stunnel.py`: one cron run of the stunnel health check. The service
 * status, the result of a restart, the configuration file and the
 * reachability of each host and port are inputs; the trigger file is the
 * state carried from one run to the next.
 */
module StunnelCheck {
  import opened Wrappers
  import opened Pairs
  import opened StunnelConfig

  /** `count_limit`: failing runs tolerated before the Slack warning. */
  const CountLimit: int := 288

  /** Python's `s.split(sep)`. */
  function Split(s: string, sep: char): (parts: seq<string>)
    ensures |parts| >= 1
    decreases |s|
  {
    if |s| == 0 then [""]
    else
      var rest := Split(s[1..], sep);
      if s[0] == sep then [""] + rest else [[s[0]] + rest[0]] + rest[1..]
  }

  /** `sep.join(parts)` */
  function Join(parts: seq<string>, sep: char): string
    requires |parts| >= 1
    decreases |parts|
  {
    if |parts| == 1 then parts[0] else parts[0] + [sep] + Join(parts[1..], sep)
  }

  /** Splitting loses nothing: joining the parts back gives the string. */
  lemma {:induction false} SplitJoin(s: string, sep: char)
    ensures Join(Split(s, sep), sep) == s
    decreases |s|
  {
    if |s| > 0 {
      SplitJoin(s[1..], sep);
      var rest := Split(s[1..], sep);
      if s[0] != sep {
        if |rest| > 1 {
          assert Join(rest, sep) == rest[0] + [sep] + Join(rest[1..], sep);
          assert Split(s, sep)[1..] == rest[1..];
        }
        assert s == [s[0]] + s[1..];
      }
    }
  }

  /** No part holds the separator, and there are two parts or more exactly when the string holds one. */
  lemma {:induction false} SplitParts(s: string, sep: char)
    ensures forall i :: 0 <= i < |Split(s, sep)| ==> sep !in Split(s, sep)[i]
    ensures |Split(s, sep)| >= 2 <==> sep in s
    decreases |s|
  {
    if |s| > 0 {
      SplitParts(s[1..], sep);
      var rest := Split(s[1..], sep);
      var parts := Split(s, sep);
      if s[0] == sep {
        assert parts == [""] + rest;
      } else {
        assert parts == [[s[0]] + rest[0]] + rest[1..];
        assert forall i :: 1 <= i < |parts| ==> parts[i] == rest[i];
        assert sep in s <==> sep in s[1..] by {
          assert s == [s[0]] + s[1..];
        }
      }
    }
  }

  /** A `host:port` value as the script reads it. */
  datatype Endpoint = Endpoint(host: string, port: string)

  /** `args = value.split(":")` then `args[0]`, `args[1]`; None where `args[1]` raises IndexError. */
  function HostPort(value: string): (r: Option<Endpoint>)
    ensures r.None? <==> ':' !in value
    ensures r.Some? ==> ':' !in r.value.host && ':' !in r.value.port
    ensures r.Some? ==>
              var prefix := r.value.host + ":" + r.value.port;
              prefix <= value && (|prefix| == |value| || value[|prefix|] == ':')
  {
    SplitJoin(value, ':');
    SplitParts(value, ':');
    var parts := Split(value, ':');
    if |parts| < 2 then None
    else
      assert Join(parts, ':') == parts[0] + ":" + Join(parts[1..], ':');
      assert |parts[1..]| > 1 ==> Join(parts[1..], ':') == parts[1] + ":" + Join(parts[2..], ':');
      Some(Endpoint(parts[0], parts[1]))
  }

  /** `int(port)` for a port made of ASCII digits only. */
  function PortNumber(port: string): (r: Option<nat>)
    ensures r.Some? <==> |port| > 0 && forall i :: 0 <= i < |port| ==> '0' <= port[i] <= '9'
    decreases |port|
  {
    if |port| == 0 || !('0' <= port[|port| - 1] <= '9') then None
    else if |port| == 1 then Some(port[0] as int - '0' as int)
    else match PortNumber(port[..|port| - 1])
      case None => None
      case Some(n) => Some(10 * n + (port[|port| - 1] as int - '0' as int))
  }

  /** `str(n)`: the decimal digits of `n`, most significant first, no leading zero. */
  function DecimalString(n: nat): (s: string)
    ensures |s| > 0 && (|s| > 1 ==> s[0] != '0')
    decreases n
  {
    var d := ['0' + (n % 10) as char];
    if n < 10 then d else DecimalString(n / 10) + d
  }

  /** `int(str(n)) == n`: the port a number is written as reads back as that number. */
  lemma {:induction false} PortNumberDecimal(n: nat)
    ensures PortNumber(DecimalString(n)) == Some(n)
    decreases n
  {
    if n >= 10 {
      PortNumberDecimal(n / 10);
      var s := DecimalString(n);
      assert s[..|s| - 1] == DecimalString(n / 10);
    }
  }

  /** Leading zeros do not change the number `int` reads. */
  lemma {:induction false} PortNumberLeadingZero(s: string)
    requires |s| > 0
    ensures PortNumber("0" + s) == PortNumber(s)
    decreases |s|
  {
    var z := "0" + s;
    if |s| > 1 {
      assert z[..|z| - 1] == "0" + s[..|s| - 1];
      PortNumberLeadingZero(s[..|s| - 1]);
    } else {
      assert z[..|z| - 1] == "0";
    }
  }

  /**
   * `_check_connection(host, port) == 0`: a port that `int` or the socket
   * refuses raises inside the try, which leaves the result at 1
   * (unreachable); otherwise the answer of the network, `probe`.
   */
  function Reachable(e: Endpoint, probe: (string, nat) -> bool): (r: bool)
    ensures PortNumber(e.port).None? ==> !r
    ensures r ==> PortNumber(e.port).value <= 65535 && probe(e.host, PortNumber(e.port).value)
    ensures PortNumber(e.port).Some? && PortNumber(e.port).value <= 65535 ==>
              (r <==> probe(e.host, PortNumber(e.port).value))
  {
    match PortNumber(e.port)
    case Some(p) => p <= 65535 && probe(e.host, p)
    case None => false
  }

  /** What one section of the loop in `main` amounts to. */
  datatype SectionCheck =
    | Skipped
    | Checked(accept: Endpoint, acceptOk: bool, connect: Endpoint, connectOk: bool)
    | BadAddress

  /**
   * Accept is split and probed first, then connect; either value without a
   * colon raises. A section lacking one of the two options is skipped.
   */
  function CheckSection(sec: Section, probe: (string, nat) -> bool): (r: SectionCheck)
    ensures var accept := LastValue(sec.options, "accept");
            var connect := LastValue(sec.options, "connect");
            && (r.BadAddress? <==> (accept.Some? && ':' !in accept.value) || (connect.Some? && ':' !in connect.value))
            && (r.Skipped? <==> !r.BadAddress? && (accept.None? || connect.None?))
            && (r.Checked? ==>
                  && accept.Some? && connect.Some?
                  && Some(r.accept) == HostPort(accept.value) && Some(r.connect) == HostPort(connect.value)
                  && r.acceptOk == Reachable(r.accept, probe) && r.connectOk == Reachable(r.connect, probe))
  {
    var accept := LastValue(sec.options, "accept");
    var connect := LastValue(sec.options, "connect");
    if accept.Some? && HostPort(accept.value).None? then BadAddress
    else if connect.Some? && HostPort(connect.value).None? then BadAddress
    else if accept.None? || connect.None? then Skipped
    else
      var a := HostPort(accept.value).value;
      var c := HostPort(connect.value).value;
      Checked(a, Reachable(a, probe), c, Reachable(c, probe))
  }

  lemma CheckSectionCases(sec: Section, probe: (string, nat) -> bool)
    ensures CheckSection(sec, probe).BadAddress? <==>
              || (LastValue(sec.options, "accept").Some? && ':' !in LastValue(sec.options, "accept").value)
              || (LastValue(sec.options, "connect").Some? && ':' !in LastValue(sec.options, "connect").value)
    ensures CheckSection(sec, probe).Skipped? <==>
              && !CheckSection(sec, probe).BadAddress?
              && ((forall i :: 0 <= i < |sec.options| ==> sec.options[i].key != "accept")
                  || (forall i :: 0 <= i < |sec.options| ==> sec.options[i].key != "connect"))
    ensures CheckSection(sec, probe).Checked? <==>
              && !CheckSection(sec, probe).BadAddress?
              && (exists i :: 0 <= i < |sec.options| && sec.options[i].key == "accept")
              && (exists j :: 0 <= j < |sec.options| && sec.options[j].key == "connect")
  {
  }

  /**
   * The body of the loop in `main` for one section: split and probe accept,
   * then connect, as `CheckSection` says.
   */
  method CheckOne(sec: Section, probe: (string, nat) -> bool) returns (c: SectionCheck)
    ensures c == CheckSection(sec, probe)
  {
    var accept := LastValue(sec.options, "accept");
    var checkAccept: Option<bool> := None;
    var acceptAt := Endpoint("", "");
    if accept.Some? {
      var args1 := Split(accept.value, ':');
      if |args1| < 2 {
        return BadAddress;
      }
      acceptAt := Endpoint(args1[0], args1[1]);
      checkAccept := Some(Reachable(acceptAt, probe));
    }
    var connect := LastValue(sec.options, "connect");
    var checkConnect: Option<bool> := None;
    var connectAt := Endpoint("", "");
    if connect.Some? {
      var args2 := Split(connect.value, ':');
      if |args2| < 2 {
        return BadAddress;
      }
      connectAt := Endpoint(args2[0], args2[1]);
      checkConnect := Some(Reachable(connectAt, probe));
    }
    if checkAccept.None? || checkConnect.None? {
      return Skipped;
    }
    c := Checked(acceptAt, checkAccept.value, connectAt, checkConnect.value);
  }

  /** The outcome of one section, under the section's name. */
  datatype Verdict = Verdict(section: string, check: SectionCheck)

  function Verdicts(sections: seq<Section>, probe: (string, nat) -> bool): (r: seq<Verdict>)
    ensures |r| == |sections|
    ensures forall i :: 0 <= i < |sections| ==> r[i] == Verdict(sections[i].name, CheckSection(sections[i], probe))
  {
    seq(|sections|, i requires 0 <= i < |sections| => Verdict(sections[i].name, CheckSection(sections[i], probe)))
  }

  /** A section and the endpoint found unreachable in it (what `msg_a` / `msg_c` report). */
  datatype Failure = Failure(section: string, endpoint: Endpoint)

  /** Where the loop over the sections ends: an uncaught IndexError, or the accumulated flags and messages. */
  datatype Scan =
    | Crashed(section: string)
    | Scanned(restart: bool, flag: bool, acceptFailures: seq<Failure>, connectFailures: seq<Failure>)

  predicate AcceptDown(c: SectionCheck) { c.Checked? && !c.acceptOk }

  predicate ConnectDown(c: SectionCheck) { c.Checked? && !c.connectOk }

  /** The rest of the loop body once a section's verdict is known, after the earlier sections gave `acc`. */
  function ScanStep(acc: Scan, v: Verdict): Scan {
    match acc
    case Crashed(_) => acc
    case Scanned(restart, flag, ma, mc) =>
      match v.check
      case BadAddress => Crashed(v.section)
      case Skipped => acc
      case Checked(a, aOk, c, cOk) =>
        Scanned(restart || !aOk, flag || !cOk,
                if aOk then ma else ma + [Failure(v.section, a)],
                if cOk then mc else mc + [Failure(v.section, c)])
  }

  /** The loop of `main` over `config.sections()`, given each section's verdict. */
  function ScanSections(vs: seq<Verdict>): (r: Scan)
    ensures r.Scanned? ==> (r.restart <==> |r.acceptFailures| > 0)
    ensures r.Scanned? ==> (r.flag <==> |r.connectFailures| > 0)
    decreases |vs|
  {
    if |vs| == 0 then Scanned(false, false, [], [])
    else ScanStep(ScanSections(vs[..|vs| - 1]), vs[|vs| - 1])
  }

  /** Once a section has raised, later sections change nothing. */
  lemma {:induction false} CrashedStays(vs: seq<Verdict>, i: nat)
    requires i <= |vs| && ScanSections(vs[..i]).Crashed?
    ensures ScanSections(vs) == ScanSections(vs[..i])
    decreases |vs|
  {
    if i < |vs| {
      var init := vs[..|vs| - 1];
      assert init[..i] == vs[..i];
      CrashedStays(init, i);
    } else {
      assert vs[..i] == vs;
    }
  }

  /** The loop stops at the first section whose accept or connect value has no colon. */
  lemma {:induction false} ScanCrashes(vs: seq<Verdict>)
    ensures ScanSections(vs).Crashed? <==> exists i :: 0 <= i < |vs| && vs[i].check.BadAddress?
    ensures ScanSections(vs).Crashed? ==>
              exists i :: 0 <= i < |vs| && vs[i] == Verdict(ScanSections(vs).section, BadAddress)
                          && forall j :: 0 <= j < i ==> !vs[j].check.BadAddress?
    decreases |vs|
  {
    if |vs| > 0 {
      var init := vs[..|vs| - 1];
      ScanCrashes(init);
      assert forall i :: 0 <= i < |init| ==> init[i] == vs[i];
      var last := |vs| - 1;
      if ScanSections(init).Crashed? {
        var i :| 0 <= i < |init| && init[i] == Verdict(ScanSections(init).section, BadAddress)
                 && forall j :: 0 <= j < i ==> !init[j].check.BadAddress?;
        assert vs[i] == init[i];
      } else if vs[last].check.BadAddress? {
        assert forall j :: 0 <= j < last ==> !init[j].check.BadAddress?;
      }
    }
  }

  /** When no section raised, a restart is due exactly when some accept port is unreachable. */
  lemma {:induction false} ScanRestart(vs: seq<Verdict>)
    requires ScanSections(vs).Scanned?
    ensures ScanSections(vs).restart <==> exists i :: 0 <= i < |vs| && AcceptDown(vs[i].check)
    decreases |vs|
  {
    if |vs| > 0 {
      var init := vs[..|vs| - 1];
      ScanRestart(init);
      assert forall i :: 0 <= i < |init| ==> init[i] == vs[i];
    }
  }

  /** When no section raised, the counter moves exactly when some connect port is unreachable. */
  lemma {:induction false} ScanFlag(vs: seq<Verdict>)
    requires ScanSections(vs).Scanned?
    ensures ScanSections(vs).flag <==> exists i :: 0 <= i < |vs| && ConnectDown(vs[i].check)
    decreases |vs|
  {
    if |vs| > 0 {
      var init := vs[..|vs| - 1];
      ScanFlag(init);
      assert forall i :: 0 <= i < |init| ==> init[i] == vs[i];
    }
  }

  lemma ScanSnoc(vs: seq<Verdict>, i: int)
    requires 0 <= i < |vs|
    ensures ScanSections(vs[..i + 1]) == ScanStep(ScanSections(vs[..i]), vs[i])
  {
    assert vs[..i + 1][..i] == vs[..i];
  }

  /** The loop in `main`: the flags and messages, or the section whose value raised. */
  method CheckSections(sections: seq<Section>, probe: (string, nat) -> bool) returns (r: Scan)
    ensures r == ScanSections(Verdicts(sections, probe))
  {
    ghost var vs := Verdicts(sections, probe);
    var flag, restart := false, false;
    var msgA, msgC: seq<Failure> := [], [];
    var i := 0;
    while i < |sections|
      invariant 0 <= i <= |sections|
      invariant ScanSections(vs[..i]) == Scanned(restart, flag, msgA, msgC)
    {
      var sec := sections[i];
      var c := CheckOne(sec, probe);
      ScanSnoc(vs, i);
      assert vs[i] == Verdict(sec.name, c);
      if c.BadAddress? {
        CrashedStays(vs, i + 1);
        return Crashed(sec.name);
      }
      if c.Checked? {
        if !c.acceptOk {
          msgA := msgA + [Failure(sec.name, c.accept)];
          restart := true;
        }
        if !c.connectOk {
          msgC := msgC + [Failure(sec.name, c.connect)];
          flag := true;
        }
      }
      i := i + 1;
    }
    assert vs[..i] == vs;
    return Scanned(restart, flag, msgA, msgC);
  }

  /** The counter step once no restart is due: `alert` is the Slack warning, `next` what is written back. */
  datatype CounterStep = CounterStep(alert: bool, next: int)

  function CountStep(count: int, flag: bool): (r: CounterStep)
    ensures r.alert <==> flag && count >= CountLimit
    ensures r.next == 0 <==> !flag || count >= CountLimit || count == -1
    ensures r.next != 0 ==> r.next == count + 1
    ensures 0 <= count <= CountLimit ==> 0 <= r.next <= CountLimit
  {
    if flag then
      if count >= CountLimit then CounterStep(true, 0) else CounterStep(false, count + 1)
    else CounterStep(false, 0)
  }

  /** The stored count after `k` consecutive runs with a connect failure, from 0. */
  function FailingRuns(k: nat): int {
    if k == 0 then 0 else CountStep(FailingRuns(k - 1), true).next
  }

  /** From 0 the count climbs by one per failing run up to the limit. */
  lemma {:induction false} FailingRunsClimb(k: nat)
    requires k <= CountLimit
    ensures FailingRuns(k) == k
  {
    if k > 0 {
      FailingRunsClimb(k - 1);
    }
  }

  /** The run after the limit wraps the count to 0, so the count repeats every 289 failing runs. */
  lemma {:induction false} FailingRunsPeriodic(k: nat)
    ensures FailingRuns(k + CountLimit + 1) == FailingRuns(k)
  {
    if k == 0 {
      FailingRunsClimb(CountLimit);
    } else {
      FailingRunsPeriodic(k - 1);
    }
  }

  /**
   * From 0, the warning goes out on the 289th consecutive failing run and on
   * no earlier one; by `FailingRunsPeriodic` the same holds for every
   * following stretch of 289 runs.
   */
  lemma AlertOnRun(k: nat)
    requires 1 <= k <= CountLimit + 1
    ensures CountStep(FailingRuns(k - 1), true).alert <==> k == CountLimit + 1
  {
    FailingRunsClimb(k - 1);
  }

  /** The trigger file: missing, empty, or holding a count. */
  datatype TriggerFile = NoFile | Blank | Holds(n: int)

  /** `_get_trigger`: 0 for an empty file, the number it holds otherwise. */
  function ReadTrigger(f: TriggerFile): int
    requires f != NoFile
  {
    if f.Blank? then 0 else f.n
  }

  /** The stored count stays between 0 and the limit. */
  predicate InRange(f: TriggerFile) {
    f.Holds? ==> 0 <= f.n <= CountLimit
  }

  /** What is observed during one run. */
  datatype Observation = Observation(
    configExists: bool,
    serviceActive: bool,
    restartSucceeded: bool,
    config: seq<ConfigLine>,
    probe: (string, nat) -> bool)

  /** How a run ends; every restart and the counter warning also post to Slack. */
  datatype RunOutcome =
    | ConfigNotFound
    | RestartedInactive(restartSucceeded: bool)
    | AddressWithoutPort(section: string)
    | RestartedForAccept(restartSucceeded: bool, failures: seq<Failure>)
    | ConnectWarning(failures: seq<Failure>)
    | ConnectCounted(count: int)
    | AllReachable

  predicate Restarted(o: RunOutcome) { o.RestartedInactive? || o.RestartedForAccept? }

  /**
   * The end of `main` once the loop is over, with the trigger file present:
   * stop on a raised error, restart on an unreachable accept port,
   * otherwise move the counter.
   */
  function Conclude(file: TriggerFile, scan: Scan, restartSucceeded: bool): (r: (RunOutcome, TriggerFile))
    requires file != NoFile
    ensures r.1 != NoFile
    ensures InRange(file) ==> InRange(r.1)
    ensures Restarted(r.0) ==> r.1 == Holds(0)
    ensures r.0.AddressWithoutPort? <==> scan.Crashed?
    ensures r.0.AddressWithoutPort? ==> r == (AddressWithoutPort(scan.section), file)
  {
    match scan
    case Crashed(s) => (AddressWithoutPort(s), file)
    case Scanned(restart, flag, ma, mc) =>
      if restart then (RestartedForAccept(restartSucceeded, ma), Holds(0))
      else
        var step := CountStep(ReadTrigger(file), flag);
        (if step.alert then ConnectWarning(mc) else if flag then ConnectCounted(step.next) else AllReachable,
         Holds(step.next))
  }

  /** One run of `main`: its outcome and the trigger file it leaves. */
  function RunStep(f: TriggerFile, obs: Observation): (r: (RunOutcome, TriggerFile))
    ensures r.1 != NoFile
    ensures InRange(f) ==> InRange(r.1)
    ensures Restarted(r.0) ==> r.1 == Holds(0)
    ensures obs.configExists && !obs.serviceActive ==> r.0 == RestartedInactive(obs.restartSucceeded)
    ensures r.0.ConfigNotFound? <==> !obs.configExists
    ensures r.0.ConfigNotFound? || r.0.AddressWithoutPort? ==> r.1 == (if f == NoFile then Holds(0) else f)
  {
    var file := if f == NoFile then Holds(0) else f;
    if !obs.configExists then (ConfigNotFound, file)
    else if !obs.serviceActive then (RestartedInactive(obs.restartSucceeded), Holds(0))
    else Conclude(file, ScanSections(Verdicts(ParseConfig(obs.config), obs.probe)), obs.restartSucceeded)
  }

  /** An inactive service is restarted before the configuration is read: config and probes do not matter. */
  lemma InactiveShortCircuits(f: TriggerFile, obs: Observation, config: seq<ConfigLine>, probe: (string, nat) -> bool)
    requires obs.configExists && !obs.serviceActive
    ensures RunStep(f, obs) == RunStep(f, obs.(config := config, probe := probe)) == (RestartedInactive(obs.restartSucceeded), Holds(0))
  {
  }

  /**
   * An unreachable accept port wins over the connect counter: whatever the
   * connect ports and the stored count, the run restarts and stores 0.
   */
  lemma RestartBeatsCounter(f: TriggerFile, obs: Observation)
    requires obs.configExists && obs.serviceActive
    requires var vs := Verdicts(ParseConfig(obs.config), obs.probe);
             && (forall i :: 0 <= i < |vs| ==> !vs[i].check.BadAddress?)
             && (exists i :: 0 <= i < |vs| && AcceptDown(vs[i].check))
    ensures RunStep(f, obs).0.RestartedForAccept? && RunStep(f, obs).1 == Holds(0)
  {
    var vs := Verdicts(ParseConfig(obs.config), obs.probe);
    ScanCrashes(vs);
    ScanRestart(vs);
  }

  /**
   * With every accept port up, the counter alone decides: it climbs while a
   * connect port is down, warns once it has reached the limit, and is reset
   * as soon as every connect port is up.
   */
  lemma CounterRule(f: TriggerFile, obs: Observation)
    requires f != NoFile && obs.configExists && obs.serviceActive
    requires var vs := Verdicts(ParseConfig(obs.config), obs.probe);
             && (forall i :: 0 <= i < |vs| ==> !vs[i].check.BadAddress?)
             && (forall i :: 0 <= i < |vs| ==> !AcceptDown(vs[i].check))
    ensures var vs := Verdicts(ParseConfig(obs.config), obs.probe);
            var down := exists i :: 0 <= i < |vs| && ConnectDown(vs[i].check);
            && (!down ==> RunStep(f, obs) == (AllReachable, Holds(0)))
            && (down && ReadTrigger(f) < CountLimit ==>
                  RunStep(f, obs) == (ConnectCounted(ReadTrigger(f) + 1), Holds(ReadTrigger(f) + 1)))
            && (down && ReadTrigger(f) >= CountLimit ==>
                  RunStep(f, obs).0.ConnectWarning? && RunStep(f, obs).1 == Holds(0))
  {
    var vs := Verdicts(ParseConfig(obs.config), obs.probe);
    assert RunStep(f, obs) == Conclude(f, ScanSections(vs), obs.restartSucceeded);
    CounterRuleScan(f, vs, obs.restartSucceeded);
  }

  /** CounterRule stated over the verdicts of the sections. */
  lemma CounterRuleScan(f: TriggerFile, vs: seq<Verdict>, restartSucceeded: bool)
    requires f != NoFile
    requires forall i :: 0 <= i < |vs| ==> !vs[i].check.BadAddress?
    requires forall i :: 0 <= i < |vs| ==> !AcceptDown(vs[i].check)
    ensures var down := exists i :: 0 <= i < |vs| && ConnectDown(vs[i].check);
            var r := Conclude(f, ScanSections(vs), restartSucceeded);
            && (!down ==> r == (AllReachable, Holds(0)))
            && (down && ReadTrigger(f) < CountLimit ==>
                  r == (ConnectCounted(ReadTrigger(f) + 1), Holds(ReadTrigger(f) + 1)))
            && (down && ReadTrigger(f) >= CountLimit ==> r.0.ConnectWarning? && r.1 == Holds(0))
  {
    ScanCrashes(vs);
    ScanRestart(vs);
    ScanFlag(vs);
    var scan := ScanSections(vs);
    CountedRun(f, scan, restartSucceeded);
    var count := ReadTrigger(f);
    if !scan.flag {
      assert CountStep(count, false) == CounterStep(false, 0);
    } else if count < CountLimit {
      assert CountStep(count, true) == CounterStep(false, count + 1);
    } else {
      assert CountStep(count, true) == CounterStep(true, 0);
    }
  }

  /** The counter end of `main`, once the loop has finished with no restart due. */
  lemma CountedRun(file: TriggerFile, scan: Scan, restartSucceeded: bool)
    requires file != NoFile && scan.Scanned? && !scan.restart
    ensures var step := CountStep(ReadTrigger(file), scan.flag);
            Conclude(file, scan, restartSucceeded)
            == (if step.alert then ConnectWarning(scan.connectFailures)
                else if scan.flag then ConnectCounted(step.next) else AllReachable,
                Holds(step.next))
  {
  }

  /** The host: its trigger file and the service it supervises. */
  class StunnelMonitor {
    var trigger: TriggerFile

    ghost predicate Valid()
      reads this
    {
      InRange(trigger)
    }

    constructor (f: TriggerFile)
      ensures trigger == f
    {
      trigger := f;
    }

    /** `_set_trigger(count)` */
    method SetTrigger(count: int)
      modifies this
      ensures trigger == Holds(count)
    {
      trigger := Holds(count);
    }

    /** `_get_trigger()` */
    method GetTrigger() returns (count: int)
      requires trigger != NoFile
      ensures count == ReadTrigger(trigger)
    {
      count := if trigger.Blank? then 0 else trigger.n;
    }

    /** `_service_restart`: stop, start, report to Slack, and reset the trigger. */
    method ServiceRestart()
      modifies this
      ensures trigger == Holds(0)
    {
      SetTrigger(0);
    }

    /** `main(conf)` */
    method Run(obs: Observation) returns (outcome: RunOutcome)
      modifies this
      ensures (outcome, trigger) == RunStep(old(trigger), obs)
      ensures old(Valid()) ==> Valid()
    {
      ghost var f := trigger;
      if trigger == NoFile {
        SetTrigger(0);
      }
      if !obs.configExists {
        return ConfigNotFound;
      }
      if !obs.serviceActive {
        ServiceRestart();
        return RestartedInactive(obs.restartSucceeded);
      }
      var config := ParseConfig(obs.config);
      var scan := CheckSections(config, obs.probe);
      assert RunStep(f, obs) == Conclude(trigger, scan, obs.restartSucceeded);
      if scan.Crashed? {
        return AddressWithoutPort(scan.section);
      }
      if scan.restart {
        ServiceRestart();
        return RestartedForAccept(obs.restartSucceeded, scan.acceptFailures);
      }
      CountedRun(trigger, scan, obs.restartSucceeded);
      if scan.flag {
        var count := GetTrigger();
        if count >= CountLimit {
          SetTrigger(0);
          outcome := ConnectWarning(scan.connectFailures);
        } else {
          count := count + 1;
          SetTrigger(count);
          outcome := ConnectCounted(count);
        }
      } else {
        SetTrigger(0);
        outcome := AllReachable;
      }
    }
  }
}
