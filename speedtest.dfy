/**
 * Target selection, measurement slots and result aggregation of the speed
 * test (app/speedtest/model.go and app/speedtest/server.go).
 *
 * Speeds are exact reals (Mbit/s) rather than IEEE doubles; latencies are
 * time.Duration values, that is whole nanoseconds.
 */
module Speedtest {
  import opened Fmt

  const MaxInt64: int := 0x7FFF_FFFF_FFFF_FFFF
  const MinInt64: int := -0x8000_0000_0000_0000
  const NanosPerMilli: real := 1_000_000.0

  /** One speedtest.net server: what discovery fills in, its distance from
      the user, and the slot for its latest measurement. */
  datatype Server = Server(
    url: string, lat: string, lon: string, name: string, country: string,
    sponsor: string, id: string, url2: string, host: string,
    distance: real,
    dlSpeed: real,
    ulSpeed: real,
    ping: int)

  /** The discovered servers, sorted by distance. */
  datatype ServerList = ServerList(servers: seq<Server>)

  /** What the ping, download and upload probes report for one server. */
  datatype Measurement = Measurement(latency: int, download: real, upload: real)

  /** The published snapshot, written field by field through a pointer. */
  class LatestResult {
    var downSpeed: real
    var downSpeedStr: Text
    var ping: Text
    var upSpeed: real
    var upSpeedStr: Text
    var lastQuery: string

    /** The zero value `&LatestResult{}` the monitor starts from. */
    constructor ()
      ensures downSpeed == 0.0 && upSpeed == 0.0 && lastQuery == ""
      ensures downSpeedStr == Literal("") && ping == Literal("") && upSpeedStr == Literal("")
    {
      downSpeed, upSpeed := 0.0, 0.0;
      downSpeedStr, ping, upSpeedStr := Literal(""), Literal(""), Literal("");
      lastQuery := "";
    }
  }

  // ---------------------------------------------------------------------
  // Ordering by distance (the sort.Interface of ByDistance)
  // ---------------------------------------------------------------------

  function Len(svrs: array<Server>): (n: int)
    ensures n == svrs.Length && n >= 0
  {
    svrs.Length
  }

  predicate Less(svrs: array<Server>, i: int, j: int)
    requires 0 <= i < svrs.Length && 0 <= j < svrs.Length
    reads svrs
  {
    svrs[i].distance < svrs[j].distance
  }

  method Swap(svrs: array<Server>, i: int, j: int)
    requires 0 <= i < svrs.Length && 0 <= j < svrs.Length
    modifies svrs
    ensures svrs[i] == old(svrs[j]) && svrs[j] == old(svrs[i])
    ensures forall k :: 0 <= k < svrs.Length && k != i && k != j ==> svrs[k] == old(svrs[k])
    ensures multiset(svrs[..]) == old(multiset(svrs[..]))
  {
    svrs[i], svrs[j] := svrs[j], svrs[i];
  }

  /** Less is a strict order: irreflexive, asymmetric and transitive, and two
      servers neither of which is Less than the other are equally far. */
  lemma LessIsStrictOrder(svrs: array<Server>, i: int, j: int, k: int)
    requires 0 <= i < svrs.Length && 0 <= j < svrs.Length && 0 <= k < svrs.Length
    ensures !Less(svrs, i, i)
    ensures Less(svrs, i, j) ==> !Less(svrs, j, i)
    ensures Less(svrs, i, j) && Less(svrs, j, k) ==> Less(svrs, i, k)
    ensures !Less(svrs, i, j) && !Less(svrs, j, i) ==> svrs[i].distance == svrs[j].distance
  {
  }

  /** An order in which no neighbour is Less than its predecessor (what
      sort.Sort leaves behind) lists the servers by nondecreasing distance. */
  lemma {:induction false} SortedByLessIsNondecreasing(svrs: array<Server>)
    requires forall k, k' :: 0 <= k && k' == k + 1 && k' < svrs.Length ==> !Less(svrs, k', k)
    ensures forall i, j :: 0 <= i <= j < svrs.Length ==> svrs[i].distance <= svrs[j].distance
  {
    forall i, j | 0 <= i <= j < svrs.Length
      ensures svrs[i].distance <= svrs[j].distance
    {
      var k := i;
      while k < j
        invariant i <= k <= j
        invariant svrs[i].distance <= svrs[k].distance
      {
        assert !Less(svrs, k + 1, k);
        k := k + 1;
      }
    }
  }

  // ---------------------------------------------------------------------
  // Server ids (strconv.Atoi as FindServer uses it)
  // ---------------------------------------------------------------------

  predicate IsDigit(c: char) { '0' <= c <= '9' }

  predicate AllDigits(s: string) { forall i :: 0 <= i < |s| ==> IsDigit(s[i]) }

  /** A decimal numeral: an optional sign followed by at least one digit. */
  predicate IsNumeral(s: string)
  {
    if |s| > 0 && (s[0] == '-' || s[0] == '+') then |s| > 1 && AllDigits(s[1..])
    else |s| > 0 && AllDigits(s)
  }

  function DigitsValue(s: string): nat
    requires AllDigits(s)
  {
    if s == [] then 0
    else 10 * DigitsValue(s[..|s| - 1]) + (s[|s| - 1] as int - '0' as int)
  }

  function ClampInt64(v: int): int
  {
    if v > MaxInt64 then MaxInt64 else if v < MinInt64 then MinInt64 else v
  }

  /** strconv.Atoi with its error dropped, as at server.go:98: a malformed id
      reads as 0 and an out-of-range one saturates at the int64 bounds. */
  function Atoi(s: string): (n: int)
    ensures MinInt64 <= n <= MaxInt64
    ensures !IsNumeral(s) ==> n == 0
  {
    if |s| > 0 && (s[0] == '-' || s[0] == '+') then
      if |s| > 1 && AllDigits(s[1..]) then
        var v: int := DigitsValue(s[1..]);
        ClampInt64(if s[0] == '-' then -v else v)
      else 0
    else if |s| > 0 && AllDigits(s) then ClampInt64(DigitsValue(s))
    else 0
  }

  /** The decimal numeral of a natural number, as a server id is written. */
  function Decimal(n: nat): (s: string)
    ensures |s| > 0 && AllDigits(s)
  {
    var d := (n % 10 + '0' as int) as char;
    if n < 10 then [d] else Decimal(n / 10) + [d]
  }

  lemma {:induction false} DecimalValue(n: nat)
    ensures DigitsValue(Decimal(n)) == n
  {
    var s := Decimal(n);
    if n >= 10 {
      DecimalValue(n / 10);
      assert s[..|s| - 1] == Decimal(n / 10);
    }
  }

  /** Reading back a written id gives the id: Atoi inverts Decimal on the
      whole int64 range, negative numbers included. */
  lemma {:induction false} AtoiInvertsDecimal(n: nat)
    ensures n <= MaxInt64 ==> Atoi(Decimal(n)) == n
    ensures n <= -MinInt64 ==> Atoi(['-'] + Decimal(n)) == -(n as int)
  {
    DecimalValue(n);
    var s := Decimal(n);
    assert IsDigit(s[0]);
    assert (['-'] + s)[1..] == s;
  }

  // ---------------------------------------------------------------------
  // Target selection (FindServer)
  // ---------------------------------------------------------------------

  /** The servers of `list` whose id reads as `sid`, in list order. */
  function MatchesFor(list: seq<Server>, sid: int): seq<Server>
  {
    if list == [] then []
    else
      MatchesFor(list[..|list| - 1], sid)
      + (if Atoi(list[|list| - 1].id) == sid then [list[|list| - 1]] else [])
  }

  /** For each requested id in turn, the servers whose id reads as it. */
  function Matches(list: seq<Server>, serverID: seq<int>): seq<Server>
  {
    if serverID == [] then []
    else Matches(list, serverID[..|serverID| - 1]) + MatchesFor(list, serverID[|serverID| - 1])
  }

  method FindServer(l: ServerList, serverID: seq<int>) returns (servers: seq<Server>)
    requires |l.servers| > 0
    ensures |servers| > 0
    ensures Matches(l.servers, serverID) != [] ==> servers == Matches(l.servers, serverID)
    ensures Matches(l.servers, serverID) == [] ==> servers == [l.servers[0]]
  {
    servers := [];
    for k := 0 to |serverID|
      invariant servers == Matches(l.servers, serverID[..k])
    {
      var sid := serverID[k];
      for j := 0 to |l.servers|
        invariant servers == Matches(l.servers, serverID[..k]) + MatchesFor(l.servers[..j], sid)
      {
        var s := l.servers[j];
        var id := Atoi(s.id);
        assert l.servers[..j + 1][..j] == l.servers[..j];
        if sid == id {
          servers := servers + [s];
        }
      }
      assert l.servers[..|l.servers|] == l.servers;
      assert serverID[..k + 1][..k] == serverID[..k];
    }
    assert serverID[..|serverID|] == serverID;
    if |servers| == 0 {
      servers := servers + [l.servers[0]];
    }
  }

  /** Filtering keeps list order: the matches in a concatenation are the
      matches in the first part followed by those in the second. */
  lemma {:induction false} MatchesForConcat(a: seq<Server>, b: seq<Server>, sid: int)
    ensures MatchesFor(a + b, sid) == MatchesFor(a, sid) + MatchesFor(b, sid)
    decreases |b|
  {
    if b != [] {
      var b' := b[..|b| - 1];
      assert (a + b)[..|a + b| - 1] == a + b';
      MatchesForConcat(a, b', sid);
    } else {
      assert a + b == a;
    }
  }

  /** Requested ids are served in the order given: the selection for a
      concatenation of requests is the concatenation of the selections. */
  lemma {:induction false} MatchesConcat(list: seq<Server>, ids1: seq<int>, ids2: seq<int>)
    ensures Matches(list, ids1 + ids2) == Matches(list, ids1) + Matches(list, ids2)
    decreases |ids2|
  {
    if ids2 != [] {
      var ids2' := ids2[..|ids2| - 1];
      assert (ids1 + ids2)[..|ids1 + ids2| - 1] == ids1 + ids2';
      MatchesConcat(list, ids1, ids2');
    } else {
      assert ids1 + ids2 == ids1;
    }
  }

  /** A server matches `sid` exactly as often as it occurs in the list when
      its id reads as `sid`, and never otherwise. */
  lemma {:induction false} MatchesForCount(list: seq<Server>, sid: int, x: Server)
    ensures multiset(MatchesFor(list, sid))[x] == if Atoi(x.id) == sid then multiset(list)[x] else 0
  {
    if list != [] {
      var init := list[..|list| - 1];
      MatchesForCount(init, sid, x);
      assert list == init + [list[|list| - 1]];
    }
  }

  /** One entry per (requested id, matching server) pair: a server appears in
      the selection as many times as it occurs in the list times the number
      of times its id was requested. */
  lemma {:induction false} MatchesCount(list: seq<Server>, serverID: seq<int>, x: Server)
    ensures multiset(Matches(list, serverID))[x] == multiset(list)[x] * multiset(serverID)[Atoi(x.id)]
  {
    if serverID != [] {
      var init := serverID[..|serverID| - 1];
      var last := serverID[|serverID| - 1];
      assert serverID == init + [last];
      MatchesCount(list, init, x);
      MatchesForCount(list, last, x);
      var a, b := Matches(list, init), MatchesFor(list, last);
      assert Matches(list, serverID) == a + b;
      assert multiset(a + b)[x] == multiset(a)[x] + multiset(b)[x];
      var c := multiset(list)[x];
      var r := multiset(init)[Atoi(x.id)];
      assert multiset(serverID) == multiset(init) + multiset{last};
      if Atoi(x.id) == last {
        assert multiset(serverID)[Atoi(x.id)] == r + 1;
        MulSucc(c, r);
      } else {
        assert multiset(serverID)[Atoi(x.id)] == r;
      }
    }
  }

  lemma MulSucc(c: nat, r: nat)
    ensures c * (r + 1) == c * r + c
  {
  }

  /** Every selected server comes from the list and carries a requested id,
      and every listed server with a requested id is selected. */
  lemma MatchesMembership(list: seq<Server>, serverID: seq<int>, x: Server)
    ensures x in Matches(list, serverID) <==> x in list && Atoi(x.id) in serverID
  {
    MatchesCount(list, serverID, x);
    assert x in list <==> multiset(list)[x] > 0;
    assert Atoi(x.id) in serverID <==> multiset(serverID)[Atoi(x.id)] > 0;
  }

  // ---------------------------------------------------------------------
  // Measuring (StartTest)
  // ---------------------------------------------------------------------

  /** Two slots describe the same server: everything but the measurement
      fields agrees. */
  predicate SameTarget(a: Server, b: Server)
  {
    a.url == b.url && a.lat == b.lat && a.lon == b.lon && a.name == b.name
    && a.country == b.country && a.sponsor == b.sponsor && a.id == b.id
    && a.url2 == b.url2 && a.host == b.host && a.distance == b.distance
  }

  /** Runs the probes against every slot in order; probes[i] is what the
      ping, download and upload tests report for svrs[i]. */
  method StartTest(svrs: array<Server>, probes: seq<Measurement>)
    requires |probes| == svrs.Length
    modifies svrs
    ensures forall i :: 0 <= i < svrs.Length ==> SameTarget(svrs[i], old(svrs[i]))
    ensures forall i :: 0 <= i < svrs.Length ==>
      svrs[i].dlSpeed == probes[i].download && svrs[i].ulSpeed == probes[i].upload
      && svrs[i].ping == probes[i].latency
  {
    for i := 0 to svrs.Length
      invariant forall k :: 0 <= k < i ==>
        (SameTarget(svrs[k], old(svrs[k])) && svrs[k].dlSpeed == probes[k].download
         && svrs[k].ulSpeed == probes[k].upload && svrs[k].ping == probes[k].latency)
      invariant forall k :: i <= k < svrs.Length ==> svrs[k] == old(svrs[k])
    {
      var m := probes[i];
      svrs[i] := svrs[i].(dlSpeed := m.download, ulSpeed := m.upload, ping := m.latency);
    }
  }

  // ---------------------------------------------------------------------
  // Aggregation (ShowResult)
  // ---------------------------------------------------------------------

  function Download(s: Server): real { s.dlSpeed }
  function Upload(s: Server): real { s.ulSpeed }
  function Latency(s: Server): real { s.ping as real }

  /** The sum of one metric over the slots, accumulated front to back. */
  function Sum(s: seq<Server>, f: Server -> real): real
  {
    if s == [] then 0.0 else Sum(s[..|s| - 1], f) + f(s[|s| - 1])
  }

  function Mean(s: seq<Server>, f: Server -> real): real
    requires |s| > 0
  {
    Sum(s, f) / |s| as real
  }

  lemma {:induction false} SumBounds(s: seq<Server>, f: Server -> real, lo: real, hi: real)
    requires forall x :: x in s ==> lo <= f(x) <= hi
    ensures |s| as real * lo <= Sum(s, f) <= |s| as real * hi
  {
    if s != [] {
      var init := s[..|s| - 1];
      assert forall x :: x in init ==> x in s;
      SumBounds(init, f, lo, hi);
      assert s[|s| - 1] in s;
    }
  }

  /** The mean lies between any bounds that hold for every slot; in
      particular, slots that all measured v average to exactly v. */
  lemma MeanWithinBounds(s: seq<Server>, f: Server -> real, lo: real, hi: real)
    requires |s| > 0
    requires forall x :: x in s ==> lo <= f(x) <= hi
    ensures lo <= Mean(s, f) <= hi
  {
    SumBounds(s, f, lo, hi);
    var n := |s| as real;
    var m := Mean(s, f);
    assert m * n == Sum(s, f);
  }

  /** On one slot the mean is that slot's value, so the single-server
      pass-through and the multi-server average agree where both apply. */
  lemma MeanOfOne(s: seq<Server>, f: Server -> real)
    requires |s| == 1
    ensures Mean(s, f) == f(s[0])
  {
    assert s[..0] == [];
    assert Sum(s, f) == Sum([], f) + f(s[0]);
  }

  function DownloadText(s: seq<Server>): Text
    requires |s| > 0
  {
    if |s| == 1 then Sprintf("Download: %5.2f Mbit/s", [Float(s[0].dlSpeed)])
    else Sprintf("Download Avg: %5.2f Mbit/s", [Float(Mean(s, Download))])
  }

  function UploadText(s: seq<Server>): Text
    requires |s| > 0
  {
    if |s| == 1 then Sprintf("Upload: %5.2f Mbit/s", [Float(s[0].ulSpeed)])
    else Sprintf("Upload Avg: %5.2f Mbit/s", [Float(Mean(s, Upload))])
  }

  /** The latency line of several servers as server.go:168 writes it: the
      mean in nanoseconds, under the upload label and the unit "ms". */
  function AsWrittenLatencyAvgText(meanNanos: real): Text
  {
    Sprintf("Upload Avg: %5.2f ms", [Float(meanNanos)])
  }

  /** The latency line of several servers as intended: the mean converted to
      milliseconds, under a latency label. */
  function LatencyAvgText(meanNanos: real): Text
  {
    Sprintf("Latency Avg: %5.2f ms", [Float(meanNanos / NanosPerMilli)])
  }

  function PingText(s: seq<Server>): Text
    requires |s| > 0
  {
    if |s| == 1 then Sprint([Str("Latency: "), Duration(s[0].ping)])
    else LatencyAvgText(Mean(s, Latency))
  }

  /** Two servers that both answer in 1 ms: the line as written reports a
      million "ms" under the upload label. */
  lemma AsWrittenLatencyAvgMisreports(a: Server, b: Server)
    requires a.ping == 1_000_000 && b.ping == 1_000_000
    ensures AsWrittenLatencyAvgText(Mean([a, b], Latency)) == Sprintf("Upload Avg: %5.2f ms", [Float(1_000_000.0)])
    ensures LatencyAvgText(Mean([a, b], Latency)) == Sprintf("Latency Avg: %5.2f ms", [Float(1.0)])
  {
    MeanWithinBounds([a, b], Latency, 1_000_000.0, 1_000_000.0);
  }

  /** When every server answers in p nanoseconds, the corrected latency line
      shows p expressed in milliseconds, the same latency the single-server
      line shows as a duration. */
  lemma LatencyAvgShowsMillis(s: seq<Server>, p: int)
    requires |s| > 1
    requires forall x :: x in s ==> x.ping == p
    ensures PingText(s) == Sprintf("Latency Avg: %5.2f ms", [Float(p as real / NanosPerMilli)])
  {
    MeanWithinBounds(s, Latency, p as real, p as real);
  }

  /** What ShowResult publishes for the slots `s` at clock reading `now`. */
  ghost predicate Published(r: LatestResult, s: seq<Server>, now: string)
    requires |s| > 0
    reads r
  {
    && r.downSpeed == Mean(s, Download) && r.downSpeedStr == DownloadText(s)
    && r.upSpeed == Mean(s, Upload) && r.upSpeedStr == UploadText(s)
    && r.ping == PingText(s)
    && r.lastQuery == now
  }

  // ---------------------------------------------------------------------
  // Plausibility check (checkResult)
  // ---------------------------------------------------------------------

  /** Download and upload differ by more than a factor of 100. */
  predicate Implausible(s: Server)
  {
    s.dlSpeed * 100.0 < s.ulSpeed || s.dlSpeed > s.ulSpeed * 100.0
  }

  method CheckResult(svrs: array<Server>) returns (errFlg: bool)
    ensures errFlg <==> exists i :: 0 <= i < svrs.Length && Implausible(svrs[i])
  {
    errFlg := false;
    if svrs.Length == 1 {
      var s := svrs[0];
      errFlg := (s.dlSpeed * 100.0 < s.ulSpeed) || (s.dlSpeed > s.ulSpeed * 100.0);
    } else {
      for i := 0 to svrs.Length
        invariant errFlg <==> exists k :: 0 <= k < i && Implausible(svrs[k])
      {
        var s := svrs[i];
        errFlg := errFlg || (s.dlSpeed * 100.0 < s.ulSpeed) || (s.dlSpeed > s.ulSpeed * 100.0);
      }
    }
  }

  /** With both rates positive, the check flags exactly a ratio above 100 in
      either direction. */
  lemma ImplausibleIsSkewedRatio(s: Server)
    requires s.dlSpeed > 0.0 && s.ulSpeed > 0.0
    ensures Implausible(s) <==> s.ulSpeed / s.dlSpeed > 100.0 || s.dlSpeed / s.ulSpeed > 100.0
  {
    RatioAbove(s.ulSpeed, s.dlSpeed);
    RatioAbove(s.dlSpeed, s.ulSpeed);
  }

  lemma RatioAbove(a: real, b: real)
    requires b > 0.0
    ensures a / b > 100.0 <==> a > b * 100.0
  {
  }

  /** The check is symmetric in download and upload, tolerates zero rates
      (an all-zero server is not flagged) and flags 100 against 0.5 but not
      100 against 2. */
  lemma ImplausibleExamples(s: Server)
    ensures Implausible(s) <==> Implausible(s.(dlSpeed := s.ulSpeed, ulSpeed := s.dlSpeed))
    ensures s.dlSpeed == 0.0 && s.ulSpeed == 0.0 ==> !Implausible(s)
    ensures Implausible(s.(dlSpeed := 100.0, ulSpeed := 0.5))
    ensures !Implausible(s.(dlSpeed := 100.0, ulSpeed := 2.0))
  {
  }

  /** Publishes the slots' aggregate into `latestResult`; `warned` is the
      plausibility warning, raised after publication and never preventing it. */
  method ShowResult(svrs: array<Server>, latestResult: LatestResult, now: string) returns (warned: bool)
    requires svrs.Length > 0
    modifies latestResult
    ensures Published(latestResult, svrs[..], now)
    ensures svrs.Length == 1 ==>
      latestResult.downSpeed == svrs[0].dlSpeed && latestResult.upSpeed == svrs[0].ulSpeed
    ensures warned <==> exists i :: 0 <= i < svrs.Length && Implausible(svrs[i])
  {
    var n := svrs.Length;
    if n == 1 {
      latestResult.downSpeed := svrs[0].dlSpeed;
      latestResult.downSpeedStr := Sprintf("Download: %5.2f Mbit/s", [Float(svrs[0].dlSpeed)]);
      latestResult.upSpeed := svrs[0].ulSpeed;
      latestResult.upSpeedStr := Sprintf("Upload: %5.2f Mbit/s", [Float(svrs[0].ulSpeed)]);
      latestResult.ping := Sprint([Str("Latency: "), Duration(svrs[0].ping)]);
      MeanOfOne(svrs[..], Download);
      MeanOfOne(svrs[..], Upload);
    } else {
      var avgDL, avgUL, avgPing := 0.0, 0.0, 0.0;
      for i := 0 to n
        invariant avgDL == Sum(svrs[..i], Download)
        invariant avgUL == Sum(svrs[..i], Upload)
        invariant avgPing == Sum(svrs[..i], Latency)
      {
        var s := svrs[i];
        assert svrs[..i + 1][..i] == svrs[..i];
        avgDL := avgDL + s.dlSpeed;
        avgUL := avgUL + s.ulSpeed;
        avgPing := avgPing + s.ping as real;
      }
      assert svrs[..n] == svrs[..];
      latestResult.downSpeed := avgDL / n as real;
      latestResult.downSpeedStr := Sprintf("Download Avg: %5.2f Mbit/s", [Float(avgDL / n as real)]);
      latestResult.upSpeed := avgUL / n as real;
      latestResult.upSpeedStr := Sprintf("Upload Avg: %5.2f Mbit/s", [Float(avgUL / n as real)]);
      latestResult.ping := LatencyAvgText(avgPing / n as real);
    }
    latestResult.lastQuery := now;
    warned := CheckResult(svrs);
  }

  /** One measurement cycle: probe every slot, then publish. */
  method TestNow(svrs: array<Server>, probes: seq<Measurement>, latestResult: LatestResult, now: string)
    returns (warned: bool)
    requires svrs.Length > 0 && |probes| == svrs.Length
    modifies svrs, latestResult
    ensures forall i :: 0 <= i < svrs.Length ==>
      SameTarget(svrs[i], old(svrs[i])) && svrs[i].dlSpeed == probes[i].download
      && svrs[i].ulSpeed == probes[i].upload && svrs[i].ping == probes[i].latency
    ensures Published(latestResult, svrs[..], now)
    ensures warned <==> exists i :: 0 <= i < svrs.Length && Implausible(svrs[i])
  {
    StartTest(svrs, probes);
    warned := ShowResult(svrs, latestResult, now);
  }
}
