/** Disk images: what admission accepts (api/v1beta1/evrocmachine_webhook.go), how
    the reconciler and the disk service tell the kinds apart, and where an accepted
    custom image resolves. */
module Images {
  import opened Prelude
  import opened ClusterWebhook

  const CUSTOM := "custom:"
  const PROJECTS := "/compute/projects/"
  const REGIONS := "/regions/"
  const IMAGES := "/customDiskImages/"
  const STOCK := "/compute/global/diskImages/evroc/"

  predicate HasPrefix(s: string, prefix: string) {
    prefix <= s
  }

  function CutPrefix(s: string, prefix: string): string {
    if prefix <= s then s[|prefix|..] else s
  }

  function StockName(image: string): string {
    CutPrefix(image, STOCK)
  }

  // ---- Custom image references ----

  datatype Ref = Ref(project: string, region: string, name: string)

  function RefText(r: Ref): string {
    PROJECTS + (r.project + REGIONS + (r.region + IMAGES + r.name))
  }

  /** One path segment: not empty, no slash. */
  predicate Segment(s: string) {
    s != "" && '/' !in s
  }

  /** The text up to the first slash. */
  function Head(s: string): (h: string)
    ensures h <= s && '/' !in h && (|h| < |s| ==> s[|h|] == '/')
  {
    if s == "" || s[0] == '/' then "" else [s[0]] + Head(s[1..])
  }

  lemma {:induction false} HeadOf(a: string, b: string)
    requires '/' !in a && (b == "" || b[0] == '/')
    ensures Head(a + b) == a
  {
    if a == "" {
      assert a + b == b;
    } else {
      assert (a + b)[1..] == a[1..] + b;
      HeadOf(a[1..], b);
    }
  }

  /** A segment followed by `sep`, and what comes after. */
  function Take(s: string, sep: string): Option<(string, string)> {
    var h := Head(s);
    if h == "" || !HasPrefix(s[|h|..], sep) then None else Some((h, s[|h| + |sep|..]))
  }

  lemma TakeSound(s: string, sep: string)
    ensures Take(s, sep).Some? ==> var (h, rest) := Take(s, sep).value; Segment(h) && s == h + sep + rest
  {}

  lemma TakeComplete(h: string, sep: string, rest: string)
    requires Segment(h) && sep != "" && sep[0] == '/'
    ensures Take(h + sep + rest, sep) == Some((h, rest))
  {
    assert h + sep + rest == h + (sep + rest);
    HeadOf(h, sep + rest);
    assert (h + sep + rest)[|h|..] == sep + rest;
  }

  /** The reference pattern, piece by piece. */
  function ParseRef(image: string): Option<Ref> {
    if !HasPrefix(image, PROJECTS) then None else
    match Take(image[|PROJECTS|..], REGIONS)
    case None => None
    case Some((project, t)) =>
      match Take(t, IMAGES)
      case None => None
      case Some((region, name)) => if Segment(name) then Some(Ref(project, region, name)) else None
  }

  /** Exactly the texts of well-formed references are recognised, as themselves. */
  lemma ParseRefSound(image: string)
    ensures var r := ParseRef(image);
      r.Some? ==> RefText(r.value) == image && Segment(r.value.project) && Segment(r.value.region) && Segment(r.value.name)
  {
    if ParseRef(image).Some? {
      var s := image[|PROJECTS|..];
      TakeSound(s, REGIONS);
      TakeSound(Take(s, REGIONS).value.1, IMAGES);
      assert image == PROJECTS + s;
    }
  }

  lemma ParseRefComplete(r: Ref)
    requires Segment(r.project) && Segment(r.region) && Segment(r.name)
    ensures ParseRef(RefText(r)) == Some(r)
  {
    var t := r.region + IMAGES + r.name;
    TakeComplete(r.project, REGIONS, t);
    TakeComplete(r.region, IMAGES, r.name);
    assert RefText(r)[|PROJECTS|..] == r.project + REGIONS + t;
  }

  // ---- Admission ----

  predicate Alphanumeric(c: char) {
    'a' <= c <= 'z' || 'A' <= c <= 'Z' || '0' <= c <= '9'
  }

  predicate ImageName(s: string) {
    s != "" && Alphanumeric(s[0]) && forall c <- s[1..] :: Alphanumeric(c) || c in "._-"
  }

  predicate InScope(r: Ref, project: string, region: string) {
    (project == "" || r.project == project) && (region == "" || r.region == region)
  }

  /** What admission accepts for a machine of this project and region. */
  predicate ImageOK(image: string, project: string, region: string) {
    || (HasPrefix(image, CUSTOM) && ImageName(image[|CUSTOM|..]))
    || (!HasPrefix(image, CUSTOM) && StockName(image) != "" && StockName(image)[0] != '/')
    || (ParseRef(image).Some? && InScope(ParseRef(image).value, project, region))
  }

  method ValidateImage(image: string, project: string, region: string) returns (errs: seq<Violation>)
    ensures errs == [] <==> ImageOK(image, project, region)
  {
    errs := [];
    KindsApart(image);
    if HasPrefix(image, CUSTOM) {
      if !ImageName(image[|CUSTOM|..]) {
        errs := [Invalid("image")];
      }
      return;
    }
    var stockName := StockName(image);
    if !HasPrefix(stockName, "/") {
      if stockName == "" {
        errs := [Required("image")];
      }
      return;
    }
    var found := ParseRef(image);
    if found.None? {
      return [Invalid("image")];
    }
    if project != "" && found.value.project != project {
      errs := errs + [Invalid("image")];
    }
    if region != "" && found.value.region != region {
      errs := errs + [Invalid("image")];
    }
  }

  /** A reference is neither a shorthand nor a stock name. */
  lemma KindsApart(image: string)
    ensures HasPrefix(image, PROJECTS) ==> !HasPrefix(image, CUSTOM) && StockName(image) == image
  {
    if HasPrefix(image, PROJECTS) {
      assert image[0] == PROJECTS[0] && image[9] == PROJECTS[9];
      assert CUSTOM[0] == 'c' && STOCK[9] == 'g' && PROJECTS[9] == 'p';
    }
  }

  // ---- The reconciler and the disk service ----

  predicate IsCustomDiskImage(image: string) {
    HasPrefix(image, CUSTOM) || HasPrefix(image, PROJECTS)
  }

  datatype Choice =
    | NoImage
    | Custom(ref: string)
    | Stock(name: string)

  /** The image a disk is created from, by a client scoped to the given project
      and region. */
  function ChooseImage(image: string, project: string, region: string): (choice: Choice)
    // Custom here exactly when custom for the reconciler; a stock image keeps its name.
    ensures choice.Custom? <==> IsCustomDiskImage(image)
    ensures choice.NoImage? <==> image == ""
    ensures choice.Stock? ==> choice.name == image || STOCK + choice.name == image
    // A full reference is taken as it is; a shorthand is looked for in the client's own scope.
    ensures ParseRef(image).Some? ==> choice.Custom? && ParseRef(choice.ref) == ParseRef(image)
    ensures HasPrefix(image, CUSTOM) && Segment(project) && Segment(region) && Segment(image[|CUSTOM|..]) ==>
      ParseRef(choice.ref) == Some(Ref(project, region, image[|CUSTOM|..]))
  {
    KindsApart(image);
    ShorthandResolves(image, project, region);
    if HasPrefix(image, CUSTOM) then Custom(RefText(Ref(project, region, CutPrefix(image, CUSTOM))))
    else if HasPrefix(image, PROJECTS) then Custom(image)
    else if image != "" then Stock(StockName(image))
    else NoImage
  }

  lemma ShorthandResolves(image: string, project: string, region: string)
    ensures HasPrefix(image, CUSTOM) && Segment(project) && Segment(region) && Segment(image[|CUSTOM|..]) ==>
      ParseRef(RefText(Ref(project, region, CutPrefix(image, CUSTOM)))) == Some(Ref(project, region, image[|CUSTOM|..]))
  {
    if HasPrefix(image, CUSTOM) && Segment(project) && Segment(region) && Segment(image[|CUSTOM|..]) {
      ParseRefComplete(Ref(project, region, image[|CUSTOM|..]));
    }
  }

  /** What admission accepted, all three readers take for the same kind: custom as
      custom, stock as a stock name without a path. */
  lemma ReadersAgree(image: string, machineProject: string, machineRegion: string, project: string, region: string)
    requires ImageOK(image, machineProject, machineRegion)
    ensures IsCustomDiskImage(image) <==> ChooseImage(image, project, region).Custom?
    ensures IsCustomDiskImage(image) <==> HasPrefix(image, CUSTOM) || ParseRef(image).Some?
    ensures !IsCustomDiskImage(image) ==>
      var choice := ChooseImage(image, project, region); choice.Stock? && choice.name != "" && choice.name[0] != '/'
  {
    KindsApart(image);
    if HasPrefix(image, PROJECTS) { assert image[0] == PROJECTS[0]; }
  }

  lemma ImageNameIsSegment(name: string)
    requires ImageName(name)
    ensures Segment(name)
  {
    forall c <- name ensures c != '/' {
      if c != name[0] { assert c in name[1..]; }
    }
  }

  /** An accepted custom image that passes the reconciler's scope check resolves in
      the cluster's own project and region, shorthand or full reference alike, if
      and only if those are single path segments at all. */
  lemma CustomResolvesInScopeIff(image: string, project: string, region: string)
    requires ImageOK(image, project, region) && IsCustomDiskImage(image)
    ensures ChooseImage(image, project, region).Custom?
    ensures var r := ParseRef(ChooseImage(image, project, region).ref);
      r.Some? && r.value.project == project && r.value.region == region <==> Segment(project) && Segment(region)
  {
    KindsApart(image);
    ParseRefSound(ChooseImage(image, project, region).ref);
    if HasPrefix(image, CUSTOM) {
      ImageNameIsSegment(image[|CUSTOM|..]);
    } else {
      assert image[0] == PROJECTS[0];
    }
  }
}
