/** Selection of one image from the images the API listed
    (datasource/image/filter.go): up to three optional filters applied in a
    fixed order, then exactly one survivor, or the newest one when `latest`
    is set.

    Regular expressions are not modelled: a `RegexEngine` says which patterns
    compile and which texts a pattern matches. A pattern that does not
    compile stops the program, so each active pattern must be valid. */
module ImageFilter {
  import opened Wrappers
  import opened Api

  datatype RegexEngine = RegexEngine(valid: string -> bool, matches: (string, string) -> bool)

  /** The datasource configuration (declared in datasource/image/data.go). */
  datatype Config = Config(
    token: string,
    apiCaPath: string,
    labelText: string,
    labelRegex: string,
    id: string,
    idRegex: string,
    latest: bool)

  datatype SelectError = NoImage | MultipleImages {
    function Message(): string {
      match this
      case NoImage => "No image found."
      case MultipleImages =>
        "Multiple images found. Please try a more specific search, "
        + "or set latest to true in the data source config block."
    }
  }

  // ---- An independent description of filtering ----

  /** `a` can be obtained from `b` by deleting elements (greedy matching). */
  ghost predicate IsSubsequence(a: seq<Image>, b: seq<Image>)
    decreases |b|
  {
    if a == [] then true
    else if b == [] then false
    else if a[0] == b[0] then IsSubsequence(a[1..], b[1..])
    else IsSubsequence(a, b[1..])
  }

  /** `r` is `s` with exactly the elements `keep` rejects removed: it keeps
      the original order and every kept element as often as `s` has it. */
  ghost predicate IsFilterOf(r: seq<Image>, s: seq<Image>, keep: Image -> bool) {
    && IsSubsequence(r, s)
    && (forall x :: x in r ==> keep(x))
    && (forall x :: keep(x) ==> multiset(r)[x] == multiset(s)[x])
  }

  // ---- The filters ----

  function FilterImages(images: seq<Image>, keep: Image -> bool): (r: seq<Image>)
    ensures |r| <= |images|
    ensures forall x :: x in r <==> x in images && keep(x)
  {
    if images == [] then []
    else
      var rest := FilterImages(images[1..], keep);
      assert images == [images[0]] + images[1..];
      if keep(images[0]) then [images[0]] + rest else rest
  }

  /** The filtered list is the input with exactly the rejected elements removed. */
  lemma {:induction false} FilterImagesIsFilter(images: seq<Image>, keep: Image -> bool)
    ensures IsFilterOf(FilterImages(images, keep), images, keep)
  {
    if images != [] {
      var rest := FilterImages(images[1..], keep);
      FilterImagesIsFilter(images[1..], keep);
      assert images == [images[0]] + images[1..];
      if keep(images[0]) {
        assert ([images[0]] + rest)[1..] == rest;
      }
    }
  }

  function FilterImagesById(images: seq<Image>, id: string): (r: seq<Image>)
    ensures IsFilterOf(r, images, (img: Image) => img.id == id)
  {
    var keep := (img: Image) => img.id == id;
    FilterImagesIsFilter(images, keep);
    FilterImages(images, keep)
  }

  function FilterImagesByIdRegex(images: seq<Image>, idRegex: string, engine: RegexEngine): (r: seq<Image>)
    requires engine.valid(idRegex)
    ensures IsFilterOf(r, images, (img: Image) => engine.matches(idRegex, img.id))
  {
    var keep := (img: Image) => engine.matches(idRegex, img.id);
    FilterImagesIsFilter(images, keep);
    FilterImages(images, keep)
  }

  function FilterImagesByLabelRegex(images: seq<Image>, labelRegex: string, engine: RegexEngine): (r: seq<Image>)
    requires engine.valid(labelRegex)
    ensures IsFilterOf(r, images, (img: Image) => engine.matches(labelRegex, img.labelText))
  {
    var keep := (img: Image) => engine.matches(labelRegex, img.labelText);
    FilterImagesIsFilter(images, keep);
    FilterImages(images, keep)
  }

  /** Every configured pattern compiles. */
  predicate PatternsValid(c: Config, engine: RegexEngine) {
    && (c.labelRegex != "" ==> engine.valid(c.labelRegex))
    && (c.idRegex != "" ==> engine.valid(c.idRegex))
  }

  /** The image passes every filter the configuration turns on. */
  predicate Passes(c: Config, engine: RegexEngine, img: Image) {
    && (c.labelRegex != "" ==> engine.matches(c.labelRegex, img.labelText))
    && (c.id != "" ==> img.id == c.id)
    && (c.idRegex != "" ==> engine.matches(c.idRegex, img.id))
  }

  /** The label filter, then the ID filter, then the ID-pattern filter, each
      only when its setting is non-empty. The chain keeps exactly the images
      that pass all the active filters, in their original order, so the
      order of the filters does not matter for the result. */
  function ApplyFilters(images: seq<Image>, c: Config, engine: RegexEngine): (r: seq<Image>)
    requires PatternsValid(c, engine)
    ensures r == FilterImages(images, (img: Image) => Passes(c, engine, img))
  {
    var pl: Image -> bool := (img: Image) => c.labelRegex != "" ==> engine.matches(c.labelRegex, img.labelText);
    var pi: Image -> bool := (img: Image) => c.id != "" ==> img.id == c.id;
    var pr: Image -> bool := (img: Image) => c.idRegex != "" ==> engine.matches(c.idRegex, img.id);
    var pli: Image -> bool := (img: Image) => pl(img) && pi(img);
    var all: Image -> bool := (img: Image) => Passes(c, engine, img);

    var s1 := if c.labelRegex != "" then FilterImagesByLabelRegex(images, c.labelRegex, engine) else images;
    OptionalFilter(images, s1, c.labelRegex != "", (img: Image) => engine.matches(c.labelRegex, img.labelText), pl);
    var s2 := if c.id != "" then FilterImagesById(s1, c.id) else s1;
    OptionalFilter(s1, s2, c.id != "", (img: Image) => img.id == c.id, pi);
    FilterFuse(images, pl, pi, pli);
    var s3 := if c.idRegex != "" then FilterImagesByIdRegex(s2, c.idRegex, engine) else s2;
    OptionalFilter(s2, s3, c.idRegex != "", (img: Image) => engine.matches(c.idRegex, img.id), pr);
    FilterFuse(images, pli, pr, all);
    s3
  }

  // ---- Filtering lemmas ----

  /** Filtering with two predicates that agree everywhere gives the same list. */
  lemma {:induction false} FilterExtensional(s: seq<Image>, p: Image -> bool, q: Image -> bool)
    requires forall x :: p(x) == q(x)
    ensures FilterImages(s, p) == FilterImages(s, q)
  {
    if s != [] {
      FilterExtensional(s[1..], p, q);
    }
  }

  /** Filtering twice is filtering once by the conjunction. */
  lemma {:induction false} FilterFuse(s: seq<Image>, p: Image -> bool, q: Image -> bool, both: Image -> bool)
    requires forall x :: both(x) == (p(x) && q(x))
    ensures FilterImages(FilterImages(s, p), q) == FilterImages(s, both)
  {
    if s != [] {
      FilterFuse(s[1..], p, q, both);
      var rest := FilterImages(s[1..], p);
      if p(s[0]) {
        var t := [s[0]] + rest;
        assert t[0] == s[0] && t[1..] == rest;
      }
    }
  }

  /** Keeping everything changes nothing. */
  lemma {:induction false} FilterKeepAll(s: seq<Image>, keep: Image -> bool)
    requires forall x :: keep(x)
    ensures FilterImages(s, keep) == s
  {
    if s != [] {
      FilterKeepAll(s[1..], keep);
      assert s == [s[0]] + s[1..];
    }
  }

  /** A filter applied only when `active` is one filter by "`active`
      implies the predicate". */
  lemma OptionalFilter(s: seq<Image>, filtered: seq<Image>, active: bool, p: Image -> bool, q: Image -> bool)
    requires active ==> filtered == FilterImages(s, p)
    requires !active ==> filtered == s
    requires forall x :: q(x) == (active ==> p(x))
    ensures filtered == FilterImages(s, q)
  {
    if active {
      FilterExtensional(s, p, q);
    } else {
      FilterKeepAll(s, q);
    }
  }

  /** Filtering leaves nothing exactly when nothing is kept. */
  lemma FilterEmpty(s: seq<Image>, keep: Image -> bool)
    ensures |FilterImages(s, keep)| == 0 <==> forall k :: 0 <= k < |s| ==> !keep(s[k])
  {
    var r := FilterImages(s, keep);
    if |r| != 0 {
      assert r[0] in r;
    }
  }

  /** The number of positions `keep` accepts. */
  function KeptCount(s: seq<Image>, keep: Image -> bool): nat {
    if s == [] then 0 else (if keep(s[0]) then 1 else 0) + KeptCount(s[1..], keep)
  }

  /** The filtered list has one element per accepted position. */
  lemma {:induction false} FilterLengthIsKeptCount(s: seq<Image>, keep: Image -> bool)
    ensures |FilterImages(s, keep)| == KeptCount(s, keep)
  {
    if s != [] {
      FilterLengthIsKeptCount(s[1..], keep);
    }
  }

  /** Filtering leaves more than one element exactly when two different
      positions are kept. */
  lemma FilterMany(s: seq<Image>, keep: Image -> bool)
    ensures |FilterImages(s, keep)| > 1 <==> exists i, j :: 0 <= i < j < |s| && keep(s[i]) && keep(s[j])
  {
    FilterLengthIsKeptCount(s, keep);
    if KeptCount(s, keep) > 1 {
      KeptTwoHasPositions(s, keep);
    }
    if exists i, j :: 0 <= i < j < |s| && keep(s[i]) && keep(s[j]) {
      var i, j :| 0 <= i < j < |s| && keep(s[i]) && keep(s[j]);
      TwoPositionsKept(s, keep, i, j);
    }
  }

  /** A count above zero comes from an accepted position. */
  lemma {:induction false} KeptHasPosition(s: seq<Image>, keep: Image -> bool)
    requires KeptCount(s, keep) > 0
    ensures exists k :: 0 <= k < |s| && keep(s[k])
  {
    if !keep(s[0]) {
      KeptHasPosition(s[1..], keep);
      var k :| 0 <= k < |s[1..]| && keep(s[1..][k]);
      assert keep(s[k + 1]);
    }
  }

  /** A count above one comes from two accepted positions. */
  lemma {:induction false} KeptTwoHasPositions(s: seq<Image>, keep: Image -> bool)
    requires KeptCount(s, keep) > 1
    ensures exists i, j :: 0 <= i < j < |s| && keep(s[i]) && keep(s[j])
  {
    var t := s[1..];
    if keep(s[0]) {
      KeptHasPosition(t, keep);
      var k :| 0 <= k < |t| && keep(t[k]);
      assert keep(s[0]) && keep(s[k + 1]);
    } else {
      KeptTwoHasPositions(t, keep);
      var i, j :| 0 <= i < j < |t| && keep(t[i]) && keep(t[j]);
      assert keep(s[i + 1]) && keep(s[j + 1]);
    }
  }

  /** One accepted position counts. */
  lemma {:induction false} PositionKept(s: seq<Image>, keep: Image -> bool, i: nat)
    requires i < |s| && keep(s[i])
    ensures KeptCount(s, keep) > 0
  {
    if i > 0 {
      assert s[i] == s[1..][i - 1];
      PositionKept(s[1..], keep, i - 1);
    }
  }

  /** Two accepted positions count twice. */
  lemma {:induction false} TwoPositionsKept(s: seq<Image>, keep: Image -> bool, i: nat, j: nat)
    requires i < j < |s| && keep(s[i]) && keep(s[j])
    ensures KeptCount(s, keep) > 1
  {
    var t := s[1..];
    assert s[j] == t[j - 1];
    if i == 0 {
      PositionKept(t, keep, j - 1);
    } else {
      assert s[i] == t[i - 1];
      TwoPositionsKept(t, keep, i - 1, j - 1);
    }
  }

  /** With no filter configured the list is unchanged. */
  lemma ApplyFiltersNoneActive(images: seq<Image>, c: Config, engine: RegexEngine)
    requires c.labelRegex == "" && c.id == "" && c.idRegex == ""
    ensures ApplyFilters(images, c, engine) == images
  {
  }

  // ---- Choosing the image ----

  /** Every image has a creation time. */
  predicate AllCreated(s: seq<Image>) {
    forall k :: 0 <= k < |s| ==> s[k].created.Some?
  }

  /** The first image whose creation time is no earlier than any other's. */
  function Newest(s: seq<Image>): (r: Image)
    requires |s| > 0 && AllCreated(s)
    ensures r in s && r.created.Some?
    ensures forall k :: 0 <= k < |s| ==> s[k].created.value <= r.created.value
    ensures exists k :: 0 <= k < |s| && s[k] == r && forall j :: 0 <= j < k ==> s[j].created.value < r.created.value
  {
    if |s| == 1 then s[0]
    else
      var m := Newest(s[1..]);
      assert forall k :: 1 <= k < |s| ==> s[k] == s[1..][k - 1];
      if s[0].created.value >= m.created.value then s[0] else m
  }

  /** What choosing among the survivors requires: patterns compile, and when
      several survivors are to be ordered by age, each has a creation time. */
  predicate CanSelect(images: seq<Image>, c: Config, engine: RegexEngine) {
    && PatternsValid(c, engine)
    && (c.latest && |ApplyFilters(images, c, engine)| > 1 ==> AllCreated(ApplyFilters(images, c, engine)))
  }

  /** Chooses among the survivors: none is "No image found."; several are
      an error unless `latest` is set, when the newest is chosen; a single
      survivor is returned. */
  function Choose(remaining: seq<Image>, latest: bool): (r: Result<Image, SelectError>)
    requires latest && |remaining| > 1 ==> AllCreated(remaining)
    ensures r == Failure(NoImage) <==> |remaining| == 0
    ensures r == Failure(MultipleImages) <==> !latest && |remaining| > 1
    ensures r.Success? ==> r.value in remaining
    ensures r.Success? && latest ==> forall k :: 0 <= k < |remaining| ==>
      remaining[k] == r.value || remaining[k].created.value <= r.value.created.value
  {
    if |remaining| > 1 then
      if latest then Success(Newest(remaining)) else Failure(MultipleImages)
    else if |remaining| == 0 then Failure(NoImage)
    else Success(remaining[0])
  }

  /** Filters the images and chooses among the survivors. Stated in terms of
      the images that pass every active filter: the errors occur exactly
      when no image, or more than one image without `latest`, passes; a
      chosen image is one of the input images that passes, and with
      `latest` no passing image is newer. */
  function SelectImage(images: seq<Image>, c: Config, engine: RegexEngine): (r: Result<Image, SelectError>)
    requires CanSelect(images, c, engine)
    ensures r == Failure(NoImage) <==> forall k :: 0 <= k < |images| ==> !Passes(c, engine, images[k])
    ensures r == Failure(MultipleImages) <==>
      !c.latest && exists i, j :: 0 <= i < j < |images| && Passes(c, engine, images[i]) && Passes(c, engine, images[j])
    ensures r.Success? ==> r.value in images && Passes(c, engine, r.value)
    ensures r.Success? && c.latest ==> forall x :: x in images && Passes(c, engine, x) ==>
      x == r.value || (x.created.Some? && r.value.created.Some? && x.created.value <= r.value.created.value)
  {
    SelectImageSpec(images, c, engine);
    Choose(ApplyFilters(images, c, engine), c.latest)
  }

  /** The survivors are exactly the input images that pass. */
  lemma SurvivorsPass(images: seq<Image>, c: Config, engine: RegexEngine)
    requires PatternsValid(c, engine)
    ensures forall x :: x in ApplyFilters(images, c, engine) <==> x in images && Passes(c, engine, x)
  {
  }

  /** How many survive, in terms of the input positions that pass. */
  lemma SurvivorCount(images: seq<Image>, c: Config, engine: RegexEngine)
    requires PatternsValid(c, engine)
    ensures |ApplyFilters(images, c, engine)| == 0 <==> forall k :: 0 <= k < |images| ==> !Passes(c, engine, images[k])
    ensures |ApplyFilters(images, c, engine)| > 1 <==>
      exists i, j :: 0 <= i < j < |images| && Passes(c, engine, images[i]) && Passes(c, engine, images[j])
  {
    var keep := (img: Image) => Passes(c, engine, img);
    FilterEmpty(images, keep);
    FilterMany(images, keep);
  }

  lemma SelectImageSpec(images: seq<Image>, c: Config, engine: RegexEngine)
    requires CanSelect(images, c, engine)
    ensures var r := Choose(ApplyFilters(images, c, engine), c.latest);
      && (r == Failure(NoImage) <==> forall k :: 0 <= k < |images| ==> !Passes(c, engine, images[k]))
      && (r == Failure(MultipleImages) <==>
          !c.latest && exists i, j :: 0 <= i < j < |images| && Passes(c, engine, images[i]) && Passes(c, engine, images[j]))
      && (r.Success? ==> r.value in images && Passes(c, engine, r.value))
      && (r.Success? && c.latest ==> forall x :: x in images && Passes(c, engine, x) ==>
            x == r.value || (x.created.Some? && r.value.created.Some? && x.created.value <= r.value.created.value))
  {
    var remaining := ApplyFilters(images, c, engine);
    SurvivorsPass(images, c, engine);
    SurvivorCount(images, c, engine);
    ChooseLatest(remaining, c.latest);
  }

  /** With `latest`, no survivor is newer than the chosen one. */
  lemma ChooseLatest(remaining: seq<Image>, latest: bool)
    requires latest && |remaining| > 1 ==> AllCreated(remaining)
    ensures var r := Choose(remaining, latest);
      r.Success? && latest ==> forall x :: x in remaining ==>
        x == r.value || (x.created.Some? && r.value.created.Some? && x.created.value <= r.value.created.value)
  {
  }
}
