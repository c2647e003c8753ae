/** Admission of EvrocClusters (api/v1beta1/evroccluster_webhook.go): the
    validator's loops against declarative predicates, and what every chain of
    accepted updates keeps. */
module ClusterWebhook {
  import opened Prelude
  import opened CloudApi
  import opened Api

  /** What net/url makes of an endpoint override. */
  datatype ParsedURL = Malformed | URL(scheme: string, host: string)

  datatype Violation =
    | Required(field: string)
    | Invalid(field: string)
    | Forbidden(field: string)
    | Duplicate(field: string)
    | TooLong(field: string)
    | NotSupported(field: string)

  const MAX_NAME := 63
  const TOKEN_PATH_SUFFIX := "/protocol/openid-connect/token"

  predicate HasSuffix(s: string, suffix: string) {
    |suffix| <= |s| && s[|s| - |suffix|..] == suffix
  }

  function TrimSuffix(s: string, suffix: string): string {
    if HasSuffix(s, suffix) then s[..|s| - |suffix|] else s
  }

  predicate IsRegion(s: string) {
    && |s| == 6 && s[2] == '-'
    && forall i | i in {0, 1, 3, 4, 5} :: 'a' <= s[i] <= 'z'
  }

  predicate IsZone(s: string) {
    s in {"a", "b", "c"}
  }

  // ---- What admission accepts, declaratively ----

  predicate SetOnce<T(==)>(old_: Option<T>, new_: Option<T>) {
    old_.Some? ==> new_ == old_
  }

  predicate TextSetOnce(old_: string, new_: string) {
    old_ != "" ==> new_ == old_
  }

  /** The part of an update that concerns what may no longer change. */
  predicate Immutables(old_: ClusterSpec, new_: ClusterSpec) {
    && new_.project == old_.project && new_.region == old_.region
    && SetOnce(old_.vpc, new_.vpc) && SetOnce(old_.stackType, new_.stackType)
    && (forall z <- old_.subnets :: z in new_.subnets && new_.subnets[z] == old_.subnets[z])
    && TextSetOnce(old_.apiBaseURL, new_.apiBaseURL)
    && TextSetOnce(old_.issuerURL, new_.issuerURL)
    && TextSetOnce(old_.clientID, new_.clientID)
    && (!old_.endpoint.IsZero() ==> new_.endpoint == old_.endpoint)
    && ManagesEndpoint(old_) == ManagesEndpoint(new_)
    && ToSet(old_.failureDomains) <= ToSet(new_.failureDomains)
  }

  /** What a machine may no longer change. */
  predicate MachineImmutables(old_: MachineSpec, new_: MachineSpec) {
    && new_.project == old_.project && new_.region == old_.region && new_.profile == old_.profile
    && new_.image == old_.image && new_.rootDiskSize == old_.rootDiskSize
  }

  predicate RuleOK(r: Rule) {
    && (r.remoteCIDR == "" || r.remoteGroup == "")
    && (r.port.Some? ==> 0 <= r.port.value <= 65535)
    && (r.endPort.Some? ==> 0 <= r.endPort.value <= 65535)
    && (r.port.Some? && r.endPort.Some? ==> r.port.value <= r.endPort.value)
  }

  predicate LabelOK(key: string, value: string) {
    0 < |key| <= 253 && '/' !in key && |value| <= 63
  }

  function InlineNames(groups: seq<InlineGroup>): seq<string> {
    seq(|groups|, i requires 0 <= i < |groups| => groups[i].name)
  }

  function SectionNames(s: Option<Section>): seq<string> {
    if s.None? then [] else InlineNames(s.value.inlined) + s.value.existing
  }

  /** Every inline and existing group name, over all three sections. */
  function GroupNames(g: Sections): seq<string> {
    SectionNames(g.common) + SectionNames(g.controlPlane) + SectionNames(g.worker)
  }

  predicate InlineOK(clusterName: string, g: InlineGroup) {
    |clusterName| + 9 + 1 + |g.name| <= MAX_NAME && forall r <- g.rules :: RuleOK(r)
  }

  predicate SectionOK(clusterName: string, s: Option<Section>) {
    s.Some? ==> forall g <- s.value.inlined :: InlineOK(clusterName, g)
  }

  predicate GroupsOK(clusterName: string, g: Sections) {
    && NoDup(GroupNames(g))
    && SectionOK(clusterName, g.common) && SectionOK(clusterName, g.controlPlane) && SectionOK(clusterName, g.worker)
  }

  predicate DomainsOK(domains: seq<string>) {
    domains != [] && NoDup(domains) && forall z <- domains :: IsZone(z)
  }

  predicate IdentityOK(spec: ClusterSpec) {
    spec.project != "" && IsRegion(spec.region) && spec.credentials.Some? && spec.credentials.value != ""
  }

  predicate URLOK(url: string, parse: string -> ParsedURL) {
    url == "" || (parse(url).URL? && parse(url).scheme == "https" && parse(url).host != "")
  }

  predicate EndpointsOK(spec: ClusterSpec, parse: string -> ParsedURL) {
    && URLOK(spec.apiBaseURL, parse) && URLOK(spec.issuerURL, parse)
    && !HasSuffix(TrimSuffix(spec.issuerURL, "/"), TOKEN_PATH_SUFFIX)
    && (spec.endpoint.host == "" <==> spec.endpoint.port == 0)
    && spec.policy in {"", MANAGED, EXTERNAL}
  }

  predicate WellFormed(meta: Meta, spec: ClusterSpec, parse: string -> ParsedURL) {
    && IdentityOK(spec) && EndpointsOK(spec, parse) && DomainsOK(spec.failureDomains)
    && |meta.name| + 15 <= MAX_NAME
    && (forall k <- spec.labels :: LabelOK(k, spec.labels[k]))
    && (forall z <- spec.subnets :: IsZone(z))
    && (spec.groups.Some? ==> GroupsOK(meta.name, spec.groups.value))
    && Lookup(meta.annotations, DELETE_CSI_DISKS) in {"", "true", "false"}
  }

  // ---- The validator's own loops ----

  /** Fills in what the user left out, and nothing else. */
  method Default(r: EvrocCluster)
    modifies r`spec
    ensures r.spec.region == if old(r.spec.region) == "" then "se-sto" else old(r.spec.region)
    ensures r.spec.failureDomains == if old(r.spec.failureDomains) == [] then ["a", "b", "c"] else old(r.spec.failureDomains)
    ensures r.spec == old(r.spec).(region := r.spec.region, failureDomains := r.spec.failureDomains)
  {
    if r.spec.region == "" {
      r.spec := r.spec.(region := "se-sto");
    }
    if |r.spec.failureDomains| == 0 {
      r.spec := r.spec.(failureDomains := ["a", "b", "c"]);
    }
  }

  class EvrocClusterValidator {
    const parse: string -> ParsedURL

    constructor (parse: string -> ParsedURL)
      ensures this.parse == parse
    {
      this.parse := parse;
    }

    method ValidateDomains(domains: seq<string>) returns (errs: seq<Violation>)
      ensures errs == [] <==> DomainsOK(domains)
    {
      errs := [];
      if |domains| == 0 {
        errs := errs + [Required("spec.failureDomains")];
      }
      var seen: set<string> := {};
      for i := 0 to |domains|
        invariant seen <= ToSet(domains[..i])
        invariant domains != [] ==> (errs == [] <==> NoDup(domains[..i]) && forall z <- domains[..i] :: IsZone(z))
        invariant errs == [] ==> seen == ToSet(domains[..i])
        invariant domains == [] ==> errs != []
      {
        var zone := domains[i];
        assert domains[..i + 1] == domains[..i] + [zone];
        if !IsZone(zone) {
          errs := errs + [Invalid("spec.failureDomains")];
        } else if zone in seen {
          errs := errs + [Duplicate("spec.failureDomains")];
          assert zone in domains[..i];
          AppendedTwice(domains[..i], zone);
        } else {
          NoDupAppend(domains[..i], zone);
          seen := seen + {zone};
        }
      }
      assert domains[..|domains|] == domains;
    }

    method ValidateRule(rule: Rule) returns (errs: seq<Violation>)
      ensures errs == [] <==> RuleOK(rule)
    {
      errs := [];
      if rule.remoteCIDR != "" && rule.remoteGroup != "" {
        errs := errs + [Forbidden("rule")];
      }
      if rule.port.Some? && (rule.port.value < 0 || rule.port.value > 65535) {
        errs := errs + [Invalid("port")];
      }
      if rule.endPort.Some? && (rule.endPort.value < 0 || rule.endPort.value > 65535) {
        errs := errs + [Invalid("endPort")];
      }
      if rule.port.Some? && rule.endPort.Some? && rule.endPort.value < rule.port.value {
        errs := errs + [Invalid("endPort")];
      }
    }

    method ValidateInline(clusterName: string, g: InlineGroup) returns (errs: seq<Violation>)
      ensures errs == [] <==> InlineOK(clusterName, g)
    {
      errs := [];
      if |clusterName| + 9 + 1 + |g.name| > MAX_NAME {
        errs := errs + [TooLong("inlineSecurityGroups.name")];
      }
      for j := 0 to |g.rules|
        invariant errs == [] <==> |clusterName| + 9 + 1 + |g.name| <= MAX_NAME && forall r <- g.rules[..j] :: RuleOK(r)
      {
        var ruleErrs := ValidateRule(g.rules[j]);
        errs := errs + ruleErrs;
        assert g.rules[..j + 1] == g.rules[..j] + [g.rules[j]];
      }
      assert g.rules[..|g.rules|] == g.rules;
    }

    /** Walks names with the seen-map: true when none repeats. */
    method SeeNames(names: seq<string>, seen: set<string>) returns (errs: seq<Violation>, now: set<string>)
      ensures now == seen + ToSet(names)
      ensures errs == [] <==> NoDup(names) && seen !! ToSet(names)
    {
      errs, now := [], seen;
      for i := 0 to |names|
        invariant now == seen + ToSet(names[..i])
        invariant errs == [] <==> NoDup(names[..i]) && seen !! ToSet(names[..i])
      {
        var name := names[i];
        assert names[..i + 1] == names[..i] + [name];
        if name in now {
          errs := errs + [Duplicate("securityGroups")];
          if name !in seen { AppendedTwice(names[..i], name); }
        } else {
          NoDupAppend(names[..i], name);
        }
        if errs == [] { assert name !in now; }
        now := now + {name};
        assert ToSet(names[..i + 1]) == ToSet(names[..i]) + {name};
      }
      assert names[..|names|] == names;
    }

    method ValidateSection(clusterName: string, s: Option<Section>, seen: set<string>)
      returns (errs: seq<Violation>, now: set<string>)
      ensures now == seen + ToSet(SectionNames(s))
      ensures errs == [] <==> SectionOK(clusterName, s) && NoDup(SectionNames(s)) && seen !! ToSet(SectionNames(s))
    {
      errs, now := [], seen;
      if s.None? {
        return;
      }
      var config := s.value;
      var inlineErrs;
      inlineErrs, now := SeeNames(InlineNames(config.inlined), seen);
      errs := inlineErrs;
      for i := 0 to |config.inlined|
        invariant errs == [] <==> inlineErrs == [] && forall g <- config.inlined[..i] :: InlineOK(clusterName, g)
      {
        var more := ValidateInline(clusterName, config.inlined[i]);
        errs := errs + more;
        assert config.inlined[..i + 1] == config.inlined[..i] + [config.inlined[i]];
      }
      assert config.inlined[..|config.inlined|] == config.inlined;
      var existingErrs;
      existingErrs, now := SeeNames(config.existing, now);
      errs := errs + existingErrs;
      NoDupConcat(InlineNames(config.inlined), config.existing);
    }

    method ValidateGroups(clusterName: string, g: Sections) returns (errs: seq<Violation>)
      ensures errs == [] <==> GroupsOK(clusterName, g)
    {
      var more, seen;
      errs, seen := ValidateSection(clusterName, g.common, {});
      more, seen := ValidateSection(clusterName, g.controlPlane, seen);
      errs := errs + more;
      more, seen := ValidateSection(clusterName, g.worker, seen);
      errs := errs + more;
      NoDupConcat(SectionNames(g.common), SectionNames(g.controlPlane));
      NoDupConcat(SectionNames(g.common) + SectionNames(g.controlPlane), SectionNames(g.worker));
    }

    method ValidateLabels(labels: Labels) returns (errs: seq<Violation>)
      ensures errs == [] <==> forall k <- labels :: LabelOK(k, labels[k])
    {
      errs := [];
      var left := labels.Keys;
      while left != {}
        invariant left <= labels.Keys
        invariant errs == [] <==> forall k <- labels :: k in left || LabelOK(k, labels[k])
        decreases left
      {
        var k :| k in left;
        if |k| == 0 { errs := errs + [Required("labels")]; }
        if |k| > 253 { errs := errs + [TooLong("labels")]; }
        if '/' in k { errs := errs + [Invalid("labels")]; }
        if |labels[k]| > 63 { errs := errs + [TooLong("labels")]; }
        left := left - {k};
      }
    }

    method ValidateIdentity(spec: ClusterSpec) returns (errs: seq<Violation>)
      ensures errs == [] <==> IdentityOK(spec)
    {
      errs := [];
      if spec.project == "" { errs := errs + [Required("spec.project")]; }
      if spec.region == "" { errs := errs + [Required("spec.region")]; }
      if spec.credentials.None? {
        errs := errs + [Required("spec.credentialsRef")];
      } else if spec.credentials.value == "" {
        errs := errs + [Required("spec.credentialsRef.name")];
      }
      if spec.region != "" && !IsRegion(spec.region) { errs := errs + [Invalid("spec.region")]; }
    }

    method ValidateURL(url: string) returns (errs: seq<Violation>)
      ensures errs == [] <==> URLOK(url, parse)
    {
      if url == "" { return []; }
      match parse(url)
      case Malformed => errs := [Invalid("url")];
      case URL(scheme, host) =>
        errs := if scheme != "https" || host == "" then [Invalid("url")] else [];
    }

    method ValidateEndpoints(spec: ClusterSpec) returns (errs: seq<Violation>)
      ensures errs == [] <==> EndpointsOK(spec, parse)
    {
      errs := ValidateURL(spec.apiBaseURL);
      var more := ValidateURL(spec.issuerURL);
      errs := errs + more;
      if HasSuffix(TrimSuffix(spec.issuerURL, "/"), TOKEN_PATH_SUFFIX) {
        errs := errs + [Invalid("spec.endpoints.issuerURL")];
      }
      var ep := spec.endpoint;
      if (ep.host != "" && ep.port == 0) || (ep.host == "" && ep.port != 0) {
        errs := errs + [Invalid("spec.controlPlaneEndpoint")];
      }
      if spec.policy !in {"", MANAGED, EXTERNAL} {
        errs := errs + [NotSupported("spec.controlPlaneEndpointPolicy")];
      }
    }

    method ValidateSubnets(subnets: map<string, string>) returns (errs: seq<Violation>)
      ensures errs == [] <==> forall z <- subnets :: IsZone(z)
    {
      errs := [];
      var left := subnets.Keys;
      while left != {}
        invariant left <= subnets.Keys
        invariant errs == [] <==> forall z <- subnets :: z in left || IsZone(z)
        decreases left
      {
        var z :| z in left;
        if !IsZone(z) { errs := errs + [Invalid("spec.network.subnetRefs")]; }
        left := left - {z};
      }
    }

    method ValidateEvrocCluster(c: EvrocCluster) returns (errs: seq<Violation>)
      ensures errs == [] <==> WellFormed(c.meta, c.spec, parse)
    {
      errs := ValidateIdentity(c.spec);
      var more := ValidateEndpoints(c.spec);
      errs := errs + more;
      more := ValidateDomains(c.spec.failureDomains);
      errs := errs + more;
      if |c.meta.name| + 9 + 6 > MAX_NAME { errs := errs + [TooLong("metadata.name")]; }
      more := ValidateLabels(c.spec.labels);
      errs := errs + more;
      more := ValidateSubnets(c.spec.subnets);
      errs := errs + more;
      if c.spec.groups.Some? {
        more := ValidateGroups(c.meta.name, c.spec.groups.value);
        errs := errs + more;
      }
      if Lookup(c.meta.annotations, DELETE_CSI_DISKS) !in {"", "true", "false"} {
        errs := errs + [NotSupported("metadata.annotations")];
      }
    }

    method ForbidScalarChanges(old_: ClusterSpec, new_: ClusterSpec) returns (errs: seq<Violation>)
      ensures errs == [] <==> Immutables(old_.(subnets := map[], failureDomains := []), new_)
    {
      errs := [];
      if new_.project != old_.project { errs := errs + [Forbidden("spec.project")]; }
      if new_.region != old_.region { errs := errs + [Forbidden("spec.region")]; }
      if old_.vpc.Some? && (new_.vpc.None? || new_.vpc.value != old_.vpc.value) { errs := errs + [Forbidden("spec.network.vpcRef")]; }
      if old_.stackType.Some? && (new_.stackType.None? || new_.stackType.value != old_.stackType.value) {
        errs := errs + [Forbidden("spec.network.stackType")];
      }
      var overrides := [(old_.apiBaseURL, new_.apiBaseURL), (old_.issuerURL, new_.issuerURL), (old_.clientID, new_.clientID)];
      ghost var before := errs;
      for i := 0 to |overrides|
        invariant errs == [] <==> before == [] && forall j | 0 <= j < i :: TextSetOnce(overrides[j].0, overrides[j].1)
      {
        if overrides[i].0 != "" && overrides[i].1 != overrides[i].0 { errs := errs + [Forbidden("spec.endpoints")]; }
      }
      assert overrides[0].0 == old_.apiBaseURL && overrides[1].0 == old_.issuerURL && overrides[2].0 == old_.clientID;
      var oldEP, newEP := old_.endpoint, new_.endpoint;
      if (oldEP.host != "" || oldEP.port != 0) && (newEP.host != oldEP.host || newEP.port != oldEP.port) {
        errs := errs + [Forbidden("spec.controlPlaneEndpoint")];
      }
      if ManagesEndpoint(old_) != ManagesEndpoint(new_) { errs := errs + [Forbidden("spec.controlPlaneEndpointPolicy")]; }
    }

    method ForbidSubnetChanges(old_: map<string, string>, new_: map<string, string>) returns (errs: seq<Violation>)
      ensures errs == [] <==> forall z <- old_ :: z in new_ && new_[z] == old_[z]
    {
      errs := [];
      var left := old_.Keys;
      while left != {}
        invariant left <= old_.Keys
        invariant errs == [] <==> forall z <- old_ :: z in left || (z in new_ && new_[z] == old_[z])
        decreases left
      {
        var z :| z in left;
        if z !in new_ || new_[z] != old_[z] { errs := errs + [Forbidden("spec.network.subnetRefs")]; }
        left := left - {z};
      }
    }

    method ForbidDomainRemoval(old_: seq<string>, new_: seq<string>) returns (errs: seq<Violation>)
      ensures errs == [] <==> ToSet(old_) <= ToSet(new_)
    {
      errs := [];
      var newZones: set<string> := {};
      for i := 0 to |new_|
        invariant newZones == ToSet(new_[..i])
      {
        newZones := newZones + {new_[i]};
        assert new_[..i + 1] == new_[..i] + [new_[i]];
      }
      assert new_[..|new_|] == new_;
      for i := 0 to |old_|
        invariant errs == [] <==> forall j | 0 <= j < i :: old_[j] in newZones
      {
        if old_[i] !in newZones { errs := errs + [Forbidden("spec.failureDomains")]; }
      }
    }

    /** An update passes exactly when it keeps what is immutable and is well
        formed on its own. */
    method ValidateUpdate(old_: EvrocCluster, new_: EvrocCluster) returns (errs: seq<Violation>)
      ensures errs == [] <==> Immutables(old_.spec, new_.spec) && WellFormed(new_.meta, new_.spec, parse)
    {
      errs := ForbidScalarChanges(old_.spec, new_.spec);
      var more := ForbidSubnetChanges(old_.spec.subnets, new_.spec.subnets);
      errs := errs + more;
      more := ForbidDomainRemoval(old_.spec.failureDomains, new_.spec.failureDomains);
      errs := errs + more;
      more := ValidateEvrocCluster(new_);
      if more != [] {
        errs := errs + [Invalid("spec")];
      }
    }
  }

  lemma NoDupAppend(s: seq<string>, x: string)
    ensures NoDup(s + [x]) <==> NoDup(s) && x !in s
  {
    NoDupConcat(s, [x]);
    assert x in ToSet([x]) && ToSet([x]) == {x};
    assert x in s <==> x in ToSet(s);
  }

  lemma AppendedTwice(s: seq<string>, x: string)
    requires x in s
    ensures !NoDup(s + [x])
  {
    NoDupAppend(s, x);
  }

  lemma NoDupConcat(a: seq<string>, b: seq<string>)
    ensures NoDup(a + b) <==> NoDup(a) && NoDup(b) && ToSet(a) !! ToSet(b)
    ensures ToSet(a + b) == ToSet(a) + ToSet(b)
  {
    var c := a + b;
    if i, j :| 0 <= i < j < |b| && b[i] == b[j] {
      assert c[|a| + i] == c[|a| + j];
    } else if i, j :| 0 <= i < j < |a| && a[i] == a[j] {
      assert c[i] == c[j];
    } else if x :| x in a && x in b {
      assert x in ToSet(a) && x in ToSet(b);
      var i :| 0 <= i < |a| && a[i] == x;
      var j :| 0 <= j < |b| && b[j] == x;
      assert c[i] == c[|a| + j];
    } else {
      assert ToSet(a) !! ToSet(b);
      forall i, j | 0 <= i < j < |c| ensures c[i] != c[j] {
        assert c[i] == if i < |a| then a[i] else b[i - |a|];
        assert c[j] == if j < |a| then a[j] else b[j - |a|];
        if i < |a| <= j { assert a[i] in ToSet(a) && b[j - |a|] in ToSet(b); }
      }
    }
    assert ToSet(c) == ToSet(a) + ToSet(b);
  }

  // ---- What every chain of accepted updates keeps ----

  ghost predicate Accepted(history: seq<ClusterSpec>) {
    forall i | 0 <= i < |history| - 1 :: Immutables(history[i], history[i + 1])
  }

  lemma ImmutablesTrans(a: ClusterSpec, b: ClusterSpec, c: ClusterSpec)
    requires Immutables(a, b) && Immutables(b, c)
    ensures Immutables(a, c)
  {}

  /** Nothing drifts away by small steps: any two points of an accepted history
      relate as a single accepted update does. */
  lemma {:induction false} HistoryInvariant(history: seq<ClusterSpec>, i: nat, j: nat)
    requires Accepted(history) && i <= j < |history|
    ensures Immutables(history[i], history[j])
    decreases j - i
  {
    if i < j {
      HistoryInvariant(history, i, j - 1);
      ImmutablesTrans(history[i], history[j - 1], history[j]);
    }
  }

  function EndpointChanges(history: seq<ClusterSpec>): nat {
    if |history| < 2 then 0 else
    EndpointChanges(history[..|history| - 1])
    + if history[|history| - 1].endpoint != history[|history| - 2].endpoint then 1 else 0
  }

  /** The control plane endpoint changes at most once in a cluster's life, and
      only by being set. */
  lemma {:induction false} EndpointChangesOnce(history: seq<ClusterSpec>)
    requires Accepted(history)
    ensures EndpointChanges(history) <= 1
    ensures history != [] && EndpointChanges(history) == 1 ==>
      history[0].endpoint.IsZero() && !history[|history| - 1].endpoint.IsZero()
    ensures history != [] && EndpointChanges(history) == 0 ==> history[|history| - 1].endpoint == history[0].endpoint
  {
    if |history| >= 2 {
      var n := |history| - 1;
      var before := history[..n];
      EndpointChangesOnce(before);
      assert forall i | 0 <= i < |before| :: before[i] == history[i];
      assert Immutables(history[n - 1], history[n]);
    }
  }

  function DomainChanges(history: seq<ClusterSpec>): nat {
    if |history| < 2 then 0 else
    DomainChanges(history[..|history| - 1])
    + if ToSet(history[|history| - 1].failureDomains) != ToSet(history[|history| - 2].failureDomains) then 1 else 0
  }

  /** Zones only come, never go, and there are three: the set of failure domains
      changes at most twice. */
  lemma {:induction false} DomainsChangeTwice(history: seq<ClusterSpec>)
    requires Accepted(history) && forall i | 0 <= i < |history| :: DomainsOK(history[i].failureDomains)
    ensures history != [] ==> DomainChanges(history) + 1 <= |ToSet(history[|history| - 1].failureDomains)| <= 3
    ensures DomainChanges(history) <= 2
  {
    if |history| > 0 {
      var n := |history| - 1;
      var domains := ToSet(history[n].failureDomains);
      assert domains <= {"a", "b", "c"};
      SubsetSize(domains, {"a", "b", "c"});
      assert history[n].failureDomains[0] in domains;
      if n > 0 {
        var before := history[..n];
        assert forall i | 0 <= i < |before| :: before[i] == history[i];
        DomainsChangeTwice(before);
        assert Immutables(history[n - 1], history[n]);
        SubsetSize(ToSet(history[n - 1].failureDomains), domains);
      }
    }
  }

  // ---- Derived names ----

  const CP_LB := "-cp-lb"

  /** The prefix a cluster's resource names start with when none is recorded. */
  function DerivedPrefix(name: string, uid: string): string {
    name + "-" + if |uid| > 8 then uid[..8] else uid
  }

  /** An accepted cluster's load balancer and inline group names always fit. */
  lemma DerivedNamesFit(meta: Meta, spec: ClusterSpec, parse: string -> ParsedURL)
    requires WellFormed(meta, spec, parse)
    ensures |DerivedPrefix(meta.name, meta.uid) + CP_LB| <= MAX_NAME
    ensures spec.groups.Some? ==>
      forall s <- [spec.groups.value.common, spec.groups.value.controlPlane, spec.groups.value.worker] ::
      s.Some? ==> forall g <- s.value.inlined :: |DerivedPrefix(meta.name, meta.uid) + "-" + g.name| <= MAX_NAME
  {
    if spec.groups.Some? {
      assert GroupsOK(meta.name, spec.groups.value);
    }
  }

  /** The length check stops at the load balancer's own name: a part of it whose
      name adds `suffix` fits for every UID of eight or more characters if and only
      if the cluster's name leaves room for that suffix too. */
  lemma PartNameFitsIff(name: string, uid: string, suffix: string)
    requires |uid| >= 8
    ensures |DerivedPrefix(name, uid) + CP_LB + suffix| <= MAX_NAME <==> |name| <= 48 - |suffix|
  {}

  /** An accepted name whose load balancer route does not fit. */
  lemma LongNamesOverflow(uid: string)
    requires |uid| >= 8
    ensures var name := seq(48, _ => 'x');
      |name| + 15 <= MAX_NAME && |DerivedPrefix(name, uid) + CP_LB + "-route"| > MAX_NAME
  {
    PartNameFitsIff(seq(48, _ => 'x'), uid, "-route");
  }
}
