/** Zone assignment (internal/controller/evrocmachine_controller.go): each machine
    goes to the failure domain with the fewest machines, first come first served. */
module Zones {
  import opened Prelude

  datatype Peer = Peer(name: string, zone: string)

  function CountOf(counts: map<string, nat>, zone: string): nat {
    if zone in counts then counts[zone] else 0
  }

  /** Entry `i` is one nothing undercuts, and the first such. */
  predicate FirstLeast(tally: seq<nat>, i: nat) {
    && i < |tally|
    && (forall j | 0 <= j < |tally| :: tally[i] <= tally[j])
    && (forall j | 0 <= j < i :: tally[i] < tally[j])
  }

  function Tally(domains: seq<string>, counts: map<string, nat>): seq<nat> {
    seq(|domains|, i requires 0 <= i < |domains| => CountOf(counts, domains[i]))
  }

  method LeastUsedZone(domains: seq<string>, counts: map<string, nat>) returns (best: string, ghost at: nat)
    ensures domains == [] ==> best == ""
    ensures domains != [] ==> FirstLeast(Tally(domains, counts), at) && best == domains[at]
  {
    at := 0;
    if |domains| == 0 {
      return "", 0;
    }
    best := domains[0];
    var bestCount := CountOf(counts, best);
    for i := 1 to |domains|
      invariant 0 <= at < i && best == domains[at] && bestCount == CountOf(counts, best)
      invariant forall j | 0 <= j < i :: bestCount <= CountOf(counts, domains[j])
      invariant forall j | 0 <= j < at :: bestCount < CountOf(counts, domains[j])
    {
      if CountOf(counts, domains[i]) < bestCount {
        best := domains[i];
        bestCount := CountOf(counts, best);
        at := i;
      }
    }
  }

  /** The zones the other machines of the cluster are in. */
  function Others(peers: seq<Peer>, self: string): multiset<string> {
    if peers == [] then multiset{} else
    var p := peers[|peers| - 1];
    Others(peers[..|peers| - 1], self) + if p.name != self && p.zone != "" then multiset{p.zone} else multiset{}
  }

  function Loads(domains: seq<string>, load: multiset<string>): seq<nat> {
    seq(|domains|, i requires 0 <= i < |domains| => load[domains[i]])
  }

  /** The zone a load picks. */
  predicate Picks(domains: seq<string>, load: multiset<string>, zone: string) {
    exists i | 0 <= i < |domains| :: domains[i] == zone && FirstLeast(Loads(domains, load), i)
  }

  method CountOthers(peers: seq<Peer>, self: string) returns (counts: map<string, nat>)
    ensures forall z :: CountOf(counts, z) == Others(peers, self)[z]
  {
    counts := map[];
    for i := 0 to |peers|
      invariant forall z :: CountOf(counts, z) == Others(peers[..i], self)[z]
    {
      assert peers[..i + 1][..i] == peers[..i];
      var m := peers[i];
      if m.name == self {
        continue;
      }
      if m.zone != "" {
        counts := counts[m.zone := CountOf(counts, m.zone) + 1];
      }
    }
    assert peers[..|peers|] == peers;
  }

  method PickZoneForMachine(domains: seq<string>, clusterName: string, self: string, peers: seq<Peer>) returns (zone: string)
    ensures domains == [] || clusterName == "" ==> zone == ""
    ensures domains != [] && clusterName != "" ==> Picks(domains, Others(peers, self), zone)
  {
    if |domains| == 0 || clusterName == "" {
      return "";
    }
    var counts := CountOthers(peers, self);
    ghost var at;
    zone, at := LeastUsedZone(domains, counts);
    assert Tally(domains, counts) == Loads(domains, Others(peers, self));
  }

  // ---- Balance ----

  predicate SpreadAtMost(domains: seq<string>, load: multiset<string>, s: nat) {
    forall x <- domains, y <- domains :: load[x] <= load[y] + s
  }

  /** One pick never makes an assignment less even than one machine's difference. */
  lemma PickKeepsSpread(domains: seq<string>, load: multiset<string>, zone: string, s: nat)
    requires Picks(domains, load, zone) && SpreadAtMost(domains, load, s)
    ensures SpreadAtMost(domains, load + multiset{zone}, if s < 1 then 1 else s)
  {
    PickIsLeast(domains, load, zone);
  }

  lemma PickIsLeast(domains: seq<string>, load: multiset<string>, zone: string)
    requires Picks(domains, load, zone)
    ensures zone in domains && forall y <- domains :: load[zone] <= load[y]
  {
    var i :| 0 <= i < |domains| && domains[i] == zone && FirstLeast(Loads(domains, load), i);
    forall y <- domains ensures load[zone] <= load[y] {
      var j :| 0 <= j < |domains| && domains[j] == y;
      assert Loads(domains, load)[i] <= Loads(domains, load)[j];
    }
  }

  /** A run of picks: each looks at some of the assignments made so far, missing at
      most `d` of them (a stale cache, reconciles running side by side). */
  ghost predicate Run(domains: seq<string>, seen: seq<multiset<string>>, zones: seq<string>, d: nat) {
    |seen| == |zones| && (zones != [] ==>
      var n := |zones| - 1;
      var before := multiset(zones[..n]);
      && Run(domains, seen[..n], zones[..n], d)
      && seen[n] <= before && |before - seen[n]| <= d && Picks(domains, seen[n], zones[n]))
  }

  lemma {:induction false} AtMostAll(m: multiset<string>, z: string)
    ensures m[z] <= |m|
  {
    if z in m {
      AtMostAll(m - multiset{z}, z);
    }
  }

  /** However many machines there are, zones never differ by more than what a pick
      may miss, plus one. */
  lemma {:induction false} StaleRunBalanced(domains: seq<string>, seen: seq<multiset<string>>, zones: seq<string>, d: nat)
    requires Run(domains, seen, zones, d)
    ensures SpreadAtMost(domains, multiset(zones), d + 1)
  {
    if zones != [] {
      var n := |zones| - 1;
      StaleRunBalanced(domains, seen[..n], zones[..n], d);
      assert zones == zones[..n] + [zones[n]];
      StaleStep(domains, multiset(zones[..n]), seen[n], zones[n], d);
    }
  }

  lemma StaleStep(domains: seq<string>, before: multiset<string>, sight: multiset<string>, zone: string, d: nat)
    requires sight <= before && |before - sight| <= d && Picks(domains, sight, zone) && SpreadAtMost(domains, before, d + 1)
    ensures SpreadAtMost(domains, before + multiset{zone}, d + 1)
  {
    PickIsLeast(domains, sight, zone);
    AtMostAll(before - sight, zone);
    forall y <- domains ensures before[zone] <= before[y] + d {
      assert sight[zone] <= sight[y] <= before[y];
    }
  }

  function Repeat<T>(x: T, n: nat): (s: seq<T>)
    ensures |s| == n
  {
    if n == 0 then [] else Repeat(x, n - 1) + [x]
  }

  /** The bound cannot be improved: `d + 1` picks that all see nothing pile up in
      the first zone. */
  lemma StaleBoundIsTight(domains: seq<string>, d: nat)
    requires |domains| >= 2 && NoDup(domains)
    ensures Run(domains, Repeat(multiset{}, d + 1), Repeat(domains[0], d + 1), d)
    ensures !SpreadAtMost(domains, multiset(Repeat(domains[0], d + 1)), d)
  {
    BlindRun(domains, d + 1, d);
    PilesUp(domains[0], domains[1], d + 1);
    assert domains[0] in domains && domains[1] in domains;
  }

  lemma {:induction false} BlindRun(domains: seq<string>, n: nat, d: nat)
    requires domains != [] && n <= d + 1
    ensures Run(domains, Repeat(multiset{}, n), Repeat(domains[0], n), d)
  {
    if n > 0 {
      BlindRun(domains, n - 1, d);
      BlindPick(domains, Repeat(domains[0], n - 1), d);
      RunOn(domains, Repeat(multiset{}, n - 1), Repeat(domains[0], n - 1), multiset{}, domains[0], d);
    }
  }

  lemma RunOn(domains: seq<string>, seen: seq<multiset<string>>, zones: seq<string>, sight: multiset<string>, zone: string, d: nat)
    requires Run(domains, seen, zones, d)
    requires sight <= multiset(zones) && |multiset(zones) - sight| <= d && Picks(domains, sight, zone)
    ensures Run(domains, seen + [sight], zones + [zone], d)
  {
    assert (zones + [zone])[..|zones|] == zones && (seen + [sight])[..|seen|] == seen;
  }

  lemma BlindPick(domains: seq<string>, before: seq<string>, d: nat)
    requires domains != [] && |before| <= d
    ensures |multiset(before) - multiset{}| <= d && Picks(domains, multiset{}, domains[0])
  {
    assert multiset(before) - multiset{} == multiset(before);
    assert FirstLeast(Loads(domains, multiset{}), 0);
  }

  lemma {:induction false} PilesUp(a: string, b: string, n: nat)
    requires a != b
    ensures multiset(Repeat(a, n))[a] == n && multiset(Repeat(a, n))[b] == 0
  {
    if n > 0 {
      PilesUp(a, b, n - 1);
    }
  }

  /** Picks made one after another, each seeing all before it. */
  ghost predicate Sequential(domains: seq<string>, zones: seq<string>) {
    zones != [] ==>
      var n := |zones| - 1;
      Sequential(domains, zones[..n]) && Picks(domains, multiset(zones[..n]), zones[n])
  }

  lemma Quota(n: nat, k: nat, i: nat)
    requires i < k
    ensures (n + k - 1 - i) / k == n / k + if i < n % k then 1 else 0
  {
    var x, q, r := n + k - 1 - i, n / k, n % k;
    assert n == k * q + r;
    if i < r {
      assert x == k * (q + 1) + (r - 1 - i);
      DivUnique(x, k, q + 1, r - 1 - i);
    } else {
      DivUnique(x, k, q, r + k - 1 - i);
    }
  }

  lemma DivUnique(x: int, k: int, q: int, r: int)
    requires k > 0 && 0 <= r < k && x == k * q + r
    ensures x / k == q && x % k == r
  {
    SmallMultiple(k, x / k - q);
    assert k * (x / k - q) == r - x % k;
  }

  lemma SmallMultiple(k: int, d: int)
    requires k > 0
    ensures d >= 1 ==> k * d >= k
    ensures d <= -1 ==> k * d <= -k
  {}

  /** Zone `j` has its share of `n` machines. */
  ghost predicate Shares(domains: seq<string>, load: multiset<string>, n: nat)
    requires domains != []
  {
    forall j | 0 <= j < |domains| :: load[domains[j]] == n / |domains| + if j < n % |domains| then 1 else 0
  }

  /** Sequential picks go round robin: after `n` of them the next falls on zone `n`
      modulo the number of zones. */
  lemma NextIsRemainder(domains: seq<string>, load: multiset<string>, n: nat, at: nat)
    requires domains != [] && Shares(domains, load, n) && FirstLeast(Loads(domains, load), at)
    ensures at == n % |domains|
  {
    assert FirstLeast(Loads(domains, load), n % |domains|);
    OneFirstLeast(Loads(domains, load), at, n % |domains|);
  }

  lemma OneFirstLeast(tally: seq<nat>, i: nat, j: nat)
    requires FirstLeast(tally, i) && FirstLeast(tally, j)
    ensures i == j
  {
    assert tally[i] <= tally[j] && tally[j] <= tally[i];
  }

  lemma SharesStep(domains: seq<string>, load: multiset<string>, n: nat, zone: string)
    requires domains != [] && NoDup(domains) && Shares(domains, load, n) && Picks(domains, load, zone)
    ensures Shares(domains, load + multiset{zone}, n + 1)
  {
    var at :| 0 <= at < |domains| && domains[at] == zone && FirstLeast(Loads(domains, load), at);
    NextIsRemainder(domains, load, n, at);
    NextQuotient(n, |domains|);
  }

  lemma {:induction false} SequentialShares(domains: seq<string>, zones: seq<string>)
    requires domains != [] && NoDup(domains) && Sequential(domains, zones)
    ensures Shares(domains, multiset(zones), |zones|)
  {
    if zones != [] {
      var n := |zones| - 1;
      SequentialShares(domains, zones[..n]);
      assert zones == zones[..n] + [zones[n]];
      SharesStep(domains, multiset(zones[..n]), n, zones[n]);
    }
  }

  /** The share of every zone is exact at every moment. */
  lemma ExactShares(domains: seq<string>, zones: seq<string>, i: nat)
    requires domains != [] && NoDup(domains) && Sequential(domains, zones) && i < |domains|
    ensures multiset(zones)[domains[i]] == (|zones| + |domains| - 1 - i) / |domains|
  {
    SequentialShares(domains, zones);
    Quota(|zones|, |domains|, i);
  }

  lemma NextQuotient(n: nat, k: nat)
    requires k > 0
    ensures if n % k == k - 1 then (n + 1) / k == n / k + 1 && (n + 1) % k == 0
            else (n + 1) / k == n / k && (n + 1) % k == n % k + 1
  {
    var q, r := n / k, n % k;
    if r == k - 1 {
      assert n + 1 == k * (q + 1) + 0;
      DivUnique(n + 1, k, q + 1, 0);
    } else {
      assert n + 1 == k * q + (r + 1);
      DivUnique(n + 1, k, q, r + 1);
    }
  }
}
