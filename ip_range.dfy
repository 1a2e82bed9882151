/** The range helpers of the `common` package that `Start` calls,
    treated as unknown functions supplied by an environment:
    `GetIPRange` parses one range element, `GenIP(base, k)` forms the
    address at offset `k` from `base`, `CompareIP` orders two addresses and
    the count returned by `GetPortRange` sizes a port list. The port count is
    typed `nat`, so a negative count is assumed away. Otherwise nothing is
    assumed about the helpers except where a member states it as a
    `requires`: termination of the ranges the loop reaches
    (`ReachedRangesTerminate`, required by `PlanScans` and `Start` in
    `SuperScan`) and local monotonicity (`MonotoneOn`, required by the
    counting and ordering lemmas below). */
module IpRanges {

  /** A parsed range element: the base address, the first offset and the
      last address to scan. */
  datatype IpRange = IpRange(base: string, start: int, end: string)

  /** What `GetIPRange` returns: the range, or the error it reports. */
  datatype RangeParse = Parsed(range: IpRange) | ParseError(message: string)

  datatype Env = Env(
    getIPRange: string -> RangeParse,
    genIP: (string, int) -> string,
    compareIP: (string, string) -> int,
    portCount: string -> nat)

  /** The break condition of the expansion loop: `CompareIP(nip, end) > 0`. */
  predicate Past(env: Env, ip: string, end: string)
  {
    env.compareIP(ip, end) > 0
  }

  /** The expansion loop of a range ends: some offset from `start` on gives
      an address past `end`. */
  ghost predicate Terminates(env: Env, r: IpRange)
  {
    exists n :: n >= r.start && Past(env, env.genIP(r.base, n), r.end)
  }

  /** Every element of the list that the expansion loop reaches, that is
      every accepted element with only accepted elements before it, has a
      terminating loop. Elements after the first rejected one are never
      expanded, so nothing is asked of them. */
  ghost predicate ReachedRangesTerminate(env: Env, elems: seq<string>)
  {
    forall i :: 0 <= i < |elems| && (forall j :: 0 <= j <= i ==> env.getIPRange(elems[j]).Parsed?) ==>
      Terminates(env, env.getIPRange(elems[i]).range)
  }

  /** An element the loop reaches terminates. */
  lemma ReachedTerminates(env: Env, elems: seq<string>, i: int)
    requires ReachedRangesTerminate(env, elems) && 0 <= i < |elems|
    requires forall j :: 0 <= j <= i ==> env.getIPRange(elems[j]).Parsed?
    ensures Terminates(env, env.getIPRange(elems[i]).range)
  {
  }

  /** `GenIP(base, ·)` is strictly increasing with respect to `CompareIP` on
      the offsets `lo` to `hi` (both included); nothing is said about other
      offsets, where a real `GenIP` may wrap around. */
  ghost predicate MonotoneOn(env: Env, base: string, lo: int, hi: int)
  {
    forall i, j :: lo <= i <= hi && lo <= j <= hi ==>
      (Past(env, env.genIP(base, i), env.genIP(base, j)) <==> i > j)
  }

  /** `ips` are the first addresses the expansion loop visits: offsets
      `start`, `start + 1`, … none of them past `end`. */
  ghost predicate VisitedSoFar(env: Env, r: IpRange, ips: seq<string>)
  {
    forall i :: 0 <= i < |ips| ==>
      ips[i] == env.genIP(r.base, r.start + i) && !Past(env, ips[i], r.end)
  }

  /** One more address that is not past `end` extends the visited prefix. */
  lemma VisitNext(env: Env, r: IpRange, ips: seq<string>, nip: string)
    requires VisitedSoFar(env, r, ips)
    requires nip == env.genIP(r.base, r.start + |ips|) && !Past(env, nip, r.end)
    ensures VisitedSoFar(env, r, ips + [nip])
  {
    var ips' := ips + [nip];
    assert forall i :: 0 <= i < |ips| ==> ips'[i] == ips[i];
  }

  /** Once the next address is past `end`, the visited prefix is the whole
      expansion. */
  lemma VisitDone(env: Env, r: IpRange, ips: seq<string>)
    requires Terminates(env, r)
    requires VisitedSoFar(env, r, ips) && Past(env, env.genIP(r.base, r.start + |ips|), r.end)
    ensures ips == RangeIps(env, r)
  {
    ExpansionUnique(env, r, ips, RangeIps(env, r));
  }

  /** `ips` is what the loop `for { nip := GenIP(base, start); if
      CompareIP(nip, end) > 0 { break }; …; start++ }` visits: the addresses
      at offsets `start`, `start + 1`, … none past `end`, stopping at the
      first offset whose address is past `end`. */
  ghost predicate Expands(env: Env, r: IpRange, ips: seq<string>)
  {
    VisitedSoFar(env, r, ips) && Past(env, env.genIP(r.base, r.start + |ips|), r.end)
  }

  /** The address at any offset an expansion visits is not past `end`. */
  lemma ExpandsAt(env: Env, r: IpRange, ips: seq<string>, i: int)
    requires Expands(env, r, ips) && 0 <= i < |ips|
    ensures !Past(env, env.genIP(r.base, r.start + i), r.end)
  {
    assert ips[i] == env.genIP(r.base, r.start + i);
  }

  /** The loop's stopping rule determines what it visits. */
  lemma ExpansionUnique(env: Env, r: IpRange, a: seq<string>, b: seq<string>)
    requires Expands(env, r, a) && Expands(env, r, b)
    ensures a == b
  {
    if |a| < |b| {
      ExpandsAt(env, r, b, |a|);
      assert false;
    } else if |b| < |a| {
      ExpandsAt(env, r, a, |b|);
      assert false;
    }
  }

  lemma {:induction false} ExpansionFrom(env: Env, base: string, k: int, end: string, n: int)
    requires k <= n && Past(env, env.genIP(base, n), end)
    ensures exists ips :: Expands(env, IpRange(base, k, end), ips)
    decreases n - k
  {
    if Past(env, env.genIP(base, k), end) {
      assert Expands(env, IpRange(base, k, end), []);
    } else {
      ExpansionFrom(env, base, k + 1, end, n);
      var rest :| Expands(env, IpRange(base, k + 1, end), rest);
      var ips := [env.genIP(base, k)] + rest;
      assert forall i :: 1 <= i < |ips| ==> ips[i] == rest[i - 1];
      assert Expands(env, IpRange(base, k, end), ips);
    }
  }

  /** The addresses one range element expands to when its loop ends (a
      range whose loop never ends is never planned: `Start` requires that
      every range its loop reaches terminates). */
  ghost function RangeIps(env: Env, r: IpRange): (ips: seq<string>)
    ensures Terminates(env, r) ==> Expands(env, r, ips)
  {
    if Terminates(env, r) then
      var n :| n >= r.start && Past(env, env.genIP(r.base, n), r.end);
      ExpansionFrom(env, r.base, r.start, r.end, n);
      var ips :| Expands(env, r, ips);
      ips
    else []
  }

  /** With `end` the address at offset `e` and `GenIP` increasing on the
      offsets between `start` and `e + 1`, the range holds exactly
      `e - start + 1` addresses; when `e < start` and the first address is
      already past `end`, it holds none. */
  lemma RangeCount(env: Env, r: IpRange, e: int)
    requires if e >= r.start then MonotoneOn(env, r.base, r.start, e + 1) else Past(env, env.genIP(r.base, r.start), r.end)
    requires r.end == env.genIP(r.base, e)
    ensures Terminates(env, r)
    ensures |RangeIps(env, r)| == if e >= r.start then e - r.start + 1 else 0
  {
    if e >= r.start {
      assert Past(env, env.genIP(r.base, e + 1), r.end);
      var ips := RangeIps(env, r);
      if r.start + |ips| > e + 1 {
        ExpandsAt(env, r, ips, e + 1 - r.start);
        assert false;
      }
      assert Past(env, env.genIP(r.base, r.start + |ips|), env.genIP(r.base, e));
    } else {
      assert Past(env, env.genIP(r.base, r.start), r.end);
      var ips := RangeIps(env, r);
      if |ips| > 0 {
        ExpandsAt(env, r, ips, 0);
        assert false;
      }
    }
  }

  /** With `GenIP` increasing on the offsets the loop visits, the expansion
      is strictly increasing, so it holds no address twice. */
  lemma RangeIncreasing(env: Env, r: IpRange)
    requires Terminates(env, r)
    requires MonotoneOn(env, r.base, r.start, r.start + |RangeIps(env, r)|)
    ensures var ips := RangeIps(env, r);
      forall i, j :: 0 <= i < j < |ips| ==> Past(env, ips[j], ips[i]) && ips[i] != ips[j]
  {
    var ips := RangeIps(env, r);
    forall i, j | 0 <= i < j < |ips|
      ensures Past(env, ips[j], ips[i]) && ips[i] != ips[j]
    {
      assert ips[i] == env.genIP(r.base, r.start + i);
      assert ips[j] == env.genIP(r.base, r.start + j);
      assert !Past(env, env.genIP(r.base, r.start + i), env.genIP(r.base, r.start + j));
    }
  }
}
