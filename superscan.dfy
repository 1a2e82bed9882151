/** Scan planning in `superScanRuntime.Start`: the ping-only exit, the `$IP`
    substitution, the expansion of every range element into one scan per
    address with the running probe total, the all-or-nothing abort on a
    parse error, the single-host active-port rule and the launch loop that
    stops at the first refused slot. */
module SuperScan {
  import opened GoStrings
  import opened IpRanges

  /** The runtime options `newScan` and `Start` read (everything but the
      `IpList` that `Start` rewrites). */
  datatype Settings = Settings(
    portList: string,
    timeOut: int,
    thread: int,
    activePort: string,
    onlyCheckAliveNetwork: bool,
    onlyCheckAliveHost: bool)

  /** The per-host fields of a `superscan.Scan` that the planner sets. */
  datatype Scan = Scan(ip: string, timeOut: int, activePort: string, portRange: string, thread: int)

  /** `newScan(ip)`: a scan of `ip` carrying copies of the runtime options. */
  function NewScan(cfg: Settings, ip: string): (s: Scan)
    ensures s.ip == ip && s.portRange == cfg.portList && s.activePort == cfg.activePort
    ensures s.timeOut == cfg.timeOut && s.thread == cfg.thread
  {
    Scan(ip, cfg.timeOut, cfg.activePort, cfg.portList, cfg.thread)
  }

  /** The scan the expansion loop appends for `ip`: calibration switched off. */
  function PlannedScan(cfg: Settings, ip: string): Scan
  {
    NewScan(cfg, ip).(activePort := "0")
  }

  function PlannedScans(cfg: Settings, ips: seq<string>): (scans: seq<Scan>)
    ensures |scans| == |ips|
  {
    seq(|ips|, k requires 0 <= k < |ips| => PlannedScan(cfg, ips[k]))
  }

  /** The addresses planned for the comma-separated elements, or the error
      of the first element `GetIPRange` rejects. */
  datatype IpPlan = IpsOk(ips: seq<string>) | IpsFault(message: string)

  /** One more element of the list: a fault already recorded stays, a
      rejected element records its error, an accepted one appends its
      addresses. */
  ghost function Extend(env: Env, p: IpPlan, elem: string): IpPlan
  {
    match p
    case IpsFault(m) => IpsFault(m)
    case IpsOk(ips) =>
      match env.getIPRange(elem)
      case ParseError(m) => IpsFault(m)
      case Parsed(r) => IpsOk(ips + RangeIps(env, r))
  }

  ghost function PlannedIps(env: Env, elems: seq<string>): IpPlan
    decreases |elems|
  {
    if |elems| == 0 then IpsOk([])
    else Extend(env, PlannedIps(env, elems[..|elems| - 1]), elems[|elems| - 1])
  }

  /** The probe total `tot`: the port counts of the scans' port ranges, added
      up in order. */
  function Probes(env: Env, scans: seq<Scan>): nat
  {
    if |scans| == 0 then 0
    else Probes(env, scans[..|scans| - 1]) + env.portCount(scans[|scans| - 1].portRange)
  }

  /** The result of the expansion phase: the scans and the probe total, or the
      error that aborts the run. */
  datatype Plan = Planned(scans: seq<Scan>, tot: nat) | Abort(message: string)

  ghost function PlanOf(env: Env, cfg: Settings, ipList: string): Plan
  {
    match PlannedIps(env, Split(ipList, ','))
    case IpsFault(m) => Abort(m)
    case IpsOk(ips) =>
      var scans := PlannedScans(cfg, ips);
      Planned(scans, Probes(env, scans))
  }

  /** The single-host rule: a lone scan gets the configured active port. */
  function Calibrate(scans: seq<Scan>, activePort: string): (c: seq<Scan>)
    ensures |c| == |scans|
    ensures forall i :: 0 <= i < |c| ==>
      c[i] == scans[i].(activePort := if |scans| == 1 then activePort else scans[i].activePort)
  {
    if |scans| == 1 then [scans[0].(activePort := activePort)] else scans
  }

  /** The index of the first scan whose `Job()` is refused, counting from
      `from`, or `n` when every slot from `from` up to `n` is granted. */
  function FirstRefusal(jobs: nat -> bool, from: nat, n: nat): (k: nat)
    requires from <= n
    ensures from <= k <= n
    ensures forall j :: from <= j < k ==> jobs(j)
    ensures k < n ==> !jobs(k)
    decreases n - from
  {
    if from == n then n
    else if !jobs(from) then from
    else FirstRefusal(jobs, from + 1, n)
  }

  /** `$IP` stands for the discovered addresses, joined by commas. */
  function SubstitutedIpList(ipList: string, discovered: seq<string>): string
  {
    if ipList == "$IP" then Join(discovered, ',') else ipList
  }

  /** What one call of `Start` does. `PingOnly` records the arguments of the
      ping pass; `NoTargets` the informational return for an empty `$IP`;
      `Fault` the logged parse error; `Ran` the planned scans after
      calibration, the progress total, the scans launched and the number of
      `Job()` calls made. */
  datatype StartOutcome =
    | PingOnly(probe: Scan, ipList: string, hostsOnly: bool)
    | NoTargets
    | Fault(message: string)
    | Ran(planned: seq<Scan>, tot: nat, launched: seq<Scan>, jobCalls: nat)

  /** Planning and launching for a list after substitution. */
  ghost function Execute(env: Env, cfg: Settings, ipList: string, jobs: nat -> bool): StartOutcome
  {
    match PlanOf(env, cfg, ipList)
    case Abort(m) => Fault(m)
    case Planned(scans, tot) =>
      var planned := Calibrate(scans, cfg.activePort);
      var k := FirstRefusal(jobs, 0, |planned|);
      Ran(planned, tot, planned[..k], if k < |planned| then k + 1 else k)
  }

  ghost function StartSpec(env: Env, cfg: Settings, ipList: string, discovered: seq<string>,
                           jobs: nat -> bool): StartOutcome
  {
    if cfg.onlyCheckAliveNetwork || cfg.onlyCheckAliveHost then
      PingOnly(NewScan(cfg, ""), ipList, cfg.onlyCheckAliveHost)
    else if ipList == "$IP" && |discovered| == 0 then
      NoTargets
    else
      Execute(env, cfg, SubstitutedIpList(ipList, discovered), jobs)
  }

  /** One more address planned: one more scan, and its port count added. */
  lemma PlannedScansSnoc(env: Env, cfg: Settings, ips: seq<string>, ip: string)
    ensures PlannedScans(cfg, ips + [ip]) == PlannedScans(cfg, ips) + [PlannedScan(cfg, ip)]
    ensures Probes(env, PlannedScans(cfg, ips + [ip]))
      == Probes(env, PlannedScans(cfg, ips)) + env.portCount(PlannedScan(cfg, ip).portRange)
  {
    var a := PlannedScans(cfg, ips + [ip]);
    var b := PlannedScans(cfg, ips) + [PlannedScan(cfg, ip)];
    assert forall k :: 0 <= k < |a| ==> a[k] == b[k];
    assert b[..|b| - 1] == PlannedScans(cfg, ips);
  }

  /** The inner loop of the expansion phase for one accepted element:
      append a scan for `GenIP(base, start)`, `GenIP(base, start + 1)`, …
      until the address passes `end`, adding each scan's port count to the
      total. `done` are the addresses planned before this element. */
  method ExpandElement(env: Env, cfg: Settings, r: IpRange, ghost done: seq<string>,
                       scans0: seq<Scan>, tot0: nat)
    returns (scans: seq<Scan>, tot: nat)
    requires Terminates(env, r)
    requires scans0 == PlannedScans(cfg, done) && tot0 == Probes(env, scans0)
    ensures scans == PlannedScans(cfg, done + RangeIps(env, r))
    ensures tot == Probes(env, scans)
  {
    scans, tot := scans0, tot0;
    var start := r.start;
    ghost var n :| n >= r.start && Past(env, env.genIP(r.base, n), r.end);
    ghost var ips: seq<string> := [];
    while true
      invariant start <= n && start == r.start + |ips|
      invariant VisitedSoFar(env, r, ips)
      invariant scans == PlannedScans(cfg, done + ips)
      invariant tot == Probes(env, scans)
      decreases n - start
    {
      var nip := env.genIP(r.base, start);
      if env.compareIP(nip, r.end) > 0 {
        break;
      }
      var s := NewScan(cfg, nip);
      s := s.(activePort := "0");
      var t := env.portCount(s.portRange);
      assert s == PlannedScan(cfg, nip) && t == env.portCount(cfg.portList);
      ExpandStep(env, cfg, r, done, ips, scans, nip);
      tot := tot + t;
      scans := scans + [s];
      ips := ips + [nip];
      start := start + 1;
    }
    VisitDone(env, r, ips);
  }

  /** One turn of the expansion loop keeps its invariants. */
  lemma ExpandStep(env: Env, cfg: Settings, r: IpRange, done: seq<string>, ips: seq<string>,
                   scans: seq<Scan>, nip: string)
    requires VisitedSoFar(env, r, ips) && scans == PlannedScans(cfg, done + ips)
    requires nip == env.genIP(r.base, r.start + |ips|) && !Past(env, nip, r.end)
    ensures VisitedSoFar(env, r, ips + [nip])
    ensures scans + [PlannedScan(cfg, nip)] == PlannedScans(cfg, done + (ips + [nip]))
    ensures Probes(env, scans + [PlannedScan(cfg, nip)]) == Probes(env, scans) + env.portCount(cfg.portList)
  {
    VisitNext(env, r, ips, nip);
    PlannedScansSnoc(env, cfg, done + ips, nip);
    assert done + ips + [nip] == done + (ips + [nip]);
  }

  /** The expansion phase of `Start`: split the list on commas, expand every
      element, and abort on the first element `GetIPRange` rejects. */
  method PlanScans(env: Env, cfg: Settings, ipList: string) returns (plan: Plan)
    requires ReachedRangesTerminate(env, Split(ipList, ','))
    ensures plan == PlanOf(env, cfg, ipList)
  {
    var elems := Split(ipList, ',');
    var scans: seq<Scan> := [];
    var tot: nat := 0;
    ghost var ips: seq<string> := [];
    var i := 0;
    while i < |elems|
      invariant 0 <= i <= |elems|
      invariant forall j :: 0 <= j < i ==> env.getIPRange(elems[j]).Parsed?
      invariant PlannedIps(env, elems[..i]) == IpsOk(ips)
      invariant scans == PlannedScans(cfg, ips)
      invariant tot == Probes(env, scans)
    {
      var parsed := env.getIPRange(elems[i]);
      if parsed.ParseError? {
        PlanStopsAt(env, elems, i);
        plan := Abort(parsed.message);
        return;
      }
      PlanStep(env, elems, i);
      ReachedTerminates(env, elems, i);
      scans, tot := ExpandElement(env, cfg, parsed.range, ips, scans, tot);
      ips := ips + RangeIps(env, parsed.range);
      i := i + 1;
    }
    assert elems[..|elems|] == elems;
    plan := Planned(scans, tot);
  }

  /** One more accepted element extends the planned addresses by its own. */
  lemma PlanStep(env: Env, elems: seq<string>, i: int)
    requires 0 <= i < |elems| && PlannedIps(env, elems[..i]).IpsOk?
    requires env.getIPRange(elems[i]).Parsed?
    ensures PlannedIps(env, elems[..i + 1])
      == IpsOk(PlannedIps(env, elems[..i]).ips + RangeIps(env, env.getIPRange(elems[i]).range))
  {
    assert elems[..i + 1][..i] == elems[..i];
  }

  /** A rejected element, after accepted ones, decides the whole plan. */
  lemma PlanStopsAt(env: Env, elems: seq<string>, i: int)
    requires 0 <= i < |elems| && PlannedIps(env, elems[..i]).IpsOk?
    requires env.getIPRange(elems[i]).ParseError?
    ensures PlannedIps(env, elems) == IpsFault(env.getIPRange(elems[i]).message)
  {
    assert elems[..i + 1][..i] == elems[..i];
    FaultPersists(env, elems[..i + 1], elems[i + 1..]);
    assert elems[..i + 1] + elems[i + 1..] == elems;
  }

  /** The launch loop: ask `Job()` for a slot for each scan in order, start
      the scan when granted, and stop at the first refusal. */
  method Launch(scans: seq<Scan>, jobs: nat -> bool) returns (launched: seq<Scan>, jobCalls: nat)
    ensures var k := FirstRefusal(jobs, 0, |scans|);
      launched == scans[..k] && jobCalls == if k < |scans| then k + 1 else k
  {
    launched := [];
    jobCalls := 0;
    var i := 0;
    while i < |scans|
      invariant 0 <= i <= |scans|
      invariant launched == scans[..i] && jobCalls == i
      invariant forall j :: 0 <= j < i ==> jobs(j)
    {
      jobCalls := jobCalls + 1;
      if !jobs(i) {
        break;
      }
      launched := launched + [scans[i]];
      i := i + 1;
    }
  }

  /** The runtime whose `IpList` field `Start` rewrites in place. */
  class SuperScanRuntime {
    var ipList: string
    var portList: string
    var timeOut: int
    var thread: int
    var activePort: string
    var onlyCheckAliveNetwork: bool
    var onlyCheckAliveHost: bool

    function Config(): Settings
      reads this
    {
      Settings(portList, timeOut, thread, activePort, onlyCheckAliveNetwork, onlyCheckAliveHost)
    }

    /** The `$IP` substitution: the discovered addresses, each followed by a
        comma, with the final comma trimmed. */
    method SubstituteDiscovered(discovered: seq<string>)
      requires |discovered| >= 1
      modifies this`ipList
      ensures ipList == Join(discovered, ',')
    {
      ipList := "";
      for i := 0 to |discovered|
        invariant ipList == Terminated(discovered[..i], ',')
      {
        assert discovered[..i + 1][..i] == discovered[..i];
        ipList := ipList + discovered[i] + ",";
      }
      assert discovered[..|discovered|] == discovered;
      TrimTerminated(discovered, ',');
      ipList := TrimSuffix(ipList, ",");
    }

    /** `Start`: `discovered` is what the liveness module reports for `$IP`,
        `jobs(i)` what the `i`-th call of `Job()` answers. */
    method Start(env: Env, discovered: seq<string>, jobs: nat -> bool) returns (out: StartOutcome)
      requires !onlyCheckAliveNetwork && !onlyCheckAliveHost && !(ipList == "$IP" && |discovered| == 0) ==>
        ReachedRangesTerminate(env, Split(SubstitutedIpList(ipList, discovered), ','))
      modifies this`ipList
      ensures out == StartSpec(env, Config(), old(ipList), discovered, jobs)
      ensures ipList == if out.PingOnly? || out.NoTargets? then old(ipList)
                        else SubstitutedIpList(old(ipList), discovered)
    {
      var cfg := Config();
      if onlyCheckAliveNetwork || onlyCheckAliveHost {
        var scan := NewScan(cfg, "");
        out := PingOnly(scan, ipList, onlyCheckAliveHost);
        return;
      }
      if ipList == "$IP" {
        if |discovered| == 0 {
          out := NoTargets;
          return;
        }
        SubstituteDiscovered(discovered);
      }
      assert Config() == cfg;
      var plan := PlanScans(env, cfg, ipList);
      match plan {
        case Abort(m) =>
          out := Fault(m);
        case Planned(scans, tot) =>
          var planned := scans;
          if |planned| == 1 {
            planned := [planned[0].(activePort := activePort)];
          }
          assert planned == Calibrate(scans, cfg.activePort);
          var launched, jobCalls := Launch(planned, jobs);
          out := Ran(planned, tot, launched, jobCalls);
      }
      assert out == Execute(env, cfg, ipList, jobs);
    }
  }

  // ---------------------------------------------------------------------
  // Properties of the plan

  /** Once one element is rejected, later elements change nothing. */
  lemma {:induction false} FaultPersists(env: Env, a: seq<string>, b: seq<string>)
    requires PlannedIps(env, a).IpsFault?
    ensures PlannedIps(env, a + b) == PlannedIps(env, a)
    decreases |b|
  {
    if |b| > 0 {
      var b' := b[..|b| - 1];
      FaultPersists(env, a, b');
      assert (a + b)[..|a + b| - 1] == a + b';
    } else {
      assert a + b == a;
    }
  }

  /** The plan aborts exactly when some element is rejected, and then with
      the error of the first rejected element. (Like every statement about
      `StartSpec` below, this matches the Go code only when every range the
      loop reaches terminates, as `Start` requires: otherwise the Go loop
      never reaches a later element.) */
  lemma {:induction false} FaultIffSomeElementRejected(env: Env, elems: seq<string>)
    ensures PlannedIps(env, elems).IpsFault? <==>
      exists i :: 0 <= i < |elems| && env.getIPRange(elems[i]).ParseError?
    ensures PlannedIps(env, elems).IpsFault? ==>
      exists i :: 0 <= i < |elems| && env.getIPRange(elems[i]) == ParseError(PlannedIps(env, elems).message) &&
        forall j :: 0 <= j < i ==> env.getIPRange(elems[j]).Parsed?
    decreases |elems|
  {
    if |elems| > 0 {
      var init := elems[..|elems| - 1];
      FaultIffSomeElementRejected(env, init);
      assert forall i :: 0 <= i < |init| ==> init[i] == elems[i];
      if PlannedIps(env, init).IpsOk? && env.getIPRange(elems[|elems| - 1]).ParseError? {
        assert forall j :: 0 <= j < |elems| - 1 ==> env.getIPRange(elems[j]).Parsed?;
      }
    }
  }

  /** Planning two lists one after the other is planning their concatenation:
      the addresses keep input order. */
  lemma {:induction false} PlanConcat(env: Env, a: seq<string>, b: seq<string>)
    requires PlannedIps(env, a).IpsOk? && PlannedIps(env, b).IpsOk?
    ensures PlannedIps(env, a + b) == IpsOk(PlannedIps(env, a).ips + PlannedIps(env, b).ips)
    decreases |b|
  {
    if |b| == 0 {
      assert a + b == a;
    } else {
      var b', last := b[..|b| - 1], b[|b| - 1];
      assert (a + b)[..|a + b| - 1] == a + b' && (a + b)[|a + b| - 1] == last;
      var p := PlannedIps(env, b');
      assert PlannedIps(env, b) == Extend(env, p, last);
      ExtendFaultStays(env, p, last);
      PlanConcat(env, a, b');
      ExtendPrefix(env, PlannedIps(env, a).ips, p.ips, last);
    }
  }

  lemma ExtendFaultStays(env: Env, p: IpPlan, elem: string)
    requires Extend(env, p, elem).IpsOk?
    ensures p.IpsOk?
  {
  }

  /** Extending a plan that starts with `x` keeps `x` in front. */
  lemma ExtendPrefix(env: Env, x: seq<string>, y: seq<string>, elem: string)
    requires Extend(env, IpsOk(y), elem).IpsOk?
    ensures Extend(env, IpsOk(x + y), elem) == IpsOk(x + Extend(env, IpsOk(y), elem).ips)
  {
    var z := RangeIps(env, env.getIPRange(elem).range);
    assert x + y + z == x + (y + z);
  }

  /** Every element is accepted by `GetIPRange`. */
  ghost predicate AllParsed(env: Env, elems: seq<string>)
  {
    forall i :: 0 <= i < |elems| ==> env.getIPRange(elems[i]).Parsed?
  }

  /** Reference definition: each element's addresses, first element first. */
  ghost function ConcatRanges(env: Env, elems: seq<string>): seq<string>
    requires AllParsed(env, elems)
    decreases |elems|
  {
    if |elems| == 0 then []
    else RangeIps(env, env.getIPRange(elems[0]).range) + ConcatRanges(env, elems[1..])
  }

  /** The planned addresses are the concatenation, in input order, of the
      addresses of each element. */
  lemma {:induction false} PlanIsConcatenation(env: Env, elems: seq<string>)
    requires AllParsed(env, elems)
    ensures PlannedIps(env, elems) == IpsOk(ConcatRanges(env, elems))
    decreases |elems|
  {
    if |elems| > 0 {
      var head := [elems[0]];
      var tail := elems[1..];
      PlanIsConcatenation(env, tail);
      assert head[..0] == [];
      assert PlannedIps(env, head) == IpsOk(RangeIps(env, env.getIPRange(elems[0]).range));
      PlanConcat(env, head, tail);
      assert head + tail == elems;
    }
  }

  lemma {:induction false} ProbesUniform(env: Env, scans: seq<Scan>, portList: string)
    requires forall i :: 0 <= i < |scans| ==> scans[i].portRange == portList
    ensures Probes(env, scans) == |scans| * env.portCount(portList)
    decreases |scans|
  {
    if |scans| > 0 {
      ProbesUniform(env, scans[..|scans| - 1], portList);
    }
  }

  // ---------------------------------------------------------------------
  // Properties of `Start`

  /** A rejected element aborts `Start` before any scan is launched, also when
      earlier elements were already expanded (provided, as `Start` requires,
      that the ranges the loop reaches terminate). */
  lemma ParseErrorLaunchesNothing(env: Env, cfg: Settings, ipList: string, discovered: seq<string>,
                                  jobs: nat -> bool, i: int)
    requires !cfg.onlyCheckAliveNetwork && !cfg.onlyCheckAliveHost
    requires !(ipList == "$IP" && |discovered| == 0)
    requires var elems := Split(SubstitutedIpList(ipList, discovered), ',');
      0 <= i < |elems| && env.getIPRange(elems[i]).ParseError?
    ensures StartSpec(env, cfg, ipList, discovered, jobs).Fault?
  {
    FaultIffSomeElementRejected(env, Split(SubstitutedIpList(ipList, discovered), ','));
  }

  /** Conversely, scans are launched only when every element was accepted. */
  lemma RanOnlyIfAllParsed(env: Env, cfg: Settings, ipList: string, discovered: seq<string>,
                           jobs: nat -> bool)
    requires StartSpec(env, cfg, ipList, discovered, jobs).Ran?
    ensures AllParsed(env, Split(SubstitutedIpList(ipList, discovered), ','))
  {
    FaultIffSomeElementRejected(env, Split(SubstitutedIpList(ipList, discovered), ','));
  }

  /** The progress total is the number of planned scans times the port count
      of the configured port list, since every scan carries that list (when the
      ranges the loop reaches terminate, as `Start` requires). */
  lemma TotalProbes(env: Env, cfg: Settings, ipList: string, discovered: seq<string>, jobs: nat -> bool)
    requires StartSpec(env, cfg, ipList, discovered, jobs).Ran?
    ensures var out := StartSpec(env, cfg, ipList, discovered, jobs);
      out.tot == |out.planned| * env.portCount(cfg.portList)
  {
    var plan := PlanOf(env, cfg, SubstitutedIpList(ipList, discovered));
    ProbesUniform(env, plan.scans, cfg.portList);
  }

  /** Each planned scan is the planned address with the runtime's options;
      its active port is "0" unless exactly one scan is planned, in which case
      it is the configured active port. */
  lemma ActivePortRule(env: Env, cfg: Settings, ipList: string, discovered: seq<string>, jobs: nat -> bool)
    requires StartSpec(env, cfg, ipList, discovered, jobs).Ran?
    ensures var out := StartSpec(env, cfg, ipList, discovered, jobs);
      var ips := PlannedIps(env, Split(SubstitutedIpList(ipList, discovered), ','));
      && ips.IpsOk? && |out.planned| == |ips.ips|
      && forall i :: 0 <= i < |out.planned| ==>
           out.planned[i] == Scan(ips.ips[i], cfg.timeOut,
                                  if |out.planned| == 1 then cfg.activePort else "0",
                                  cfg.portList, cfg.thread)
  {
    var ips := PlannedIps(env, Split(SubstitutedIpList(ipList, discovered), ','));
    var scans := PlannedScans(cfg, ips.ips);
    assert forall i :: 0 <= i < |scans| ==> scans[i] == PlannedScan(cfg, ips.ips[i]);
  }

  /** Scans are launched in planned order up to the first refused `Job()`;
      nothing after it is launched, and every `Job()` before it was granted. */
  lemma LaunchStopsAtFirstRefusal(env: Env, cfg: Settings, ipList: string, discovered: seq<string>,
                                  jobs: nat -> bool)
    requires StartSpec(env, cfg, ipList, discovered, jobs).Ran?
    ensures var out := StartSpec(env, cfg, ipList, discovered, jobs);
      var k := |out.launched|;
      && k <= |out.planned| && out.launched == out.planned[..k]
      && (forall j :: 0 <= j < k ==> jobs(j))
      && (k < |out.planned| ==> !jobs(k) && out.jobCalls == k + 1)
      && (k == |out.planned| ==> out.jobCalls == k)
  {
  }

  /** An empty `$IP` substitution returns without planning anything. */
  lemma EmptyDiscoveredNoTargets(env: Env, cfg: Settings, discovered: seq<string>, jobs: nat -> bool)
    requires !cfg.onlyCheckAliveNetwork && !cfg.onlyCheckAliveHost
    requires |discovered| == 0
    ensures StartSpec(env, cfg, "$IP", discovered, jobs) == NoTargets
  {
  }

  /** The ping-only modes return before any planning, handing the unmodified
      list to the ping pass. */
  lemma PingModesSkipPlanning(env: Env, cfg: Settings, ipList: string, discovered: seq<string>,
                              jobs: nat -> bool)
    requires cfg.onlyCheckAliveNetwork || cfg.onlyCheckAliveHost
    ensures StartSpec(env, cfg, ipList, discovered, jobs)
      == PingOnly(NewScan(cfg, ""), ipList, cfg.onlyCheckAliveHost)
  {
  }

  /** The substituted list, split again on commas, gives back exactly the
      discovered addresses, provided none contains a comma. */
  lemma DiscoveredRoundTrip(discovered: seq<string>)
    requires |discovered| >= 1
    requires forall i :: 0 <= i < |discovered| ==> ',' !in discovered[i]
    ensures Split(SubstitutedIpList("$IP", discovered), ',') == discovered
  {
    SplitJoin(discovered, ',');
  }

  /** A single address (a range whose end is its first address), with
      `GenIP` increasing from the first offset to the next, plans exactly one scan, which keeps the configured
      active port, and the total is that scan's port count. */
  lemma SingleHost(env: Env, cfg: Settings, ipList: string, discovered: seq<string>, jobs: nat -> bool,
                   x: string)
    requires !cfg.onlyCheckAliveNetwork && !cfg.onlyCheckAliveHost
    requires !(ipList == "$IP" && |discovered| == 0)
    requires Split(SubstitutedIpList(ipList, discovered), ',') == [x]
    requires env.getIPRange(x).Parsed?
    requires var r := env.getIPRange(x).range;
      MonotoneOn(env, r.base, r.start, r.start + 1) && r.end == env.genIP(r.base, r.start)
    ensures var out := StartSpec(env, cfg, ipList, discovered, jobs);
      var r := env.getIPRange(x).range;
      && out.Ran?
      && out.planned == [Scan(env.genIP(r.base, r.start), cfg.timeOut, cfg.activePort, cfg.portList, cfg.thread)]
      && out.tot == env.portCount(cfg.portList)
  {
    var r := env.getIPRange(x).range;
    RangeCount(env, r, r.start);
    var ips := RangeIps(env, r);
    assert ips[0] == env.genIP(r.base, r.start);
    assert [x][..0] == [];
    assert [] + ips == ips;
    assert PlannedIps(env, [x]) == IpsOk(ips);
    var scans := PlannedScans(cfg, ips);
    assert scans[0] == PlannedScan(cfg, ips[0]);
    assert scans[..0] == [];
    assert Probes(env, scans) == env.portCount(cfg.portList);
  }
}
