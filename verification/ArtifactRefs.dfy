/** Artifact references: path cleaning, normalisation, the ordered merge by key, and the
    projection shown to the model. A reference is a dictionary; the order of its fields is not
    modelled. */
module ArtifactRefs {
  import opened Common
  import opened Text

  /** A field's value. `Falsy` values (0, False, ..) are kept by the emptiness filter but
      skipped by `or`; the text of a value is what `str` gives. */
  datatype Value = Null | Empty | Text(text: string) | Falsy(shown: string) | Truthy(shown: string)

  type Payload = map<string, Value>

  datatype Ref = Dict(fields: Payload) | Other(shown: string)

  /** Anonymous references are keyed by all their fields. */
  datatype Key = Named(name: string) | Anonymous(fields: Payload)

  predicate IsEmpty(v: Value) {
    v.Null? || v.Empty? || v == Text("")
  }

  predicate Truth(v: Value) {
    v.Truthy? || (v.Text? && v.text != "")
  }

  function Get(p: Payload, field: string): Value {
    if field in p then p[field] else Null
  }

  /** `str(value or "")` */
  function OrText(v: Value): string {
    if !Truth(v) then "" else if v.Text? then v.text else v.shown
  }

  // ---- paths ----

  predicate IsSlash(c: char) {
    c == '/'
  }

  function ForwardSlashes(s: string): (r: string)
    ensures |r| == |s|
    ensures forall i :: 0 <= i < |s| ==> r[i] == if s[i] == '\\' then '/' else s[i]
  {
    seq(|s|, i requires 0 <= i < |s| => if s[i] == '\\' then '/' else s[i])
  }

  function Clean(s: string): string {
    Strip(Strip(ForwardSlashes(s), IsSpace), IsSlash)
  }

  predicate Contains(s: string, part: string) {
    exists i :: 0 <= i <= |s| - |part| && StartsWith(s[i..], part)
  }

  function WithoutPrefix(s: string, prefix: string): string {
    if StartsWith(s, prefix) then s[|prefix|..] else s
  }

  const IMAGE_ROUTE := "api/image-assets/files/"
  const IMAGE_FOLDER := "storage/generated/images/"

  /** `_project_path_from_image_asset_src` */
  function ImagePath(src: Value): string {
    var s := Strip(ForwardSlashes(OrText(src)), IsSpace);
    if s == "" || Contains(s, "://") || StartsWith(s, "//") then ""
    else
      var route := LStrip(s, IsSlash);
      if !StartsWith(route, IMAGE_ROUTE) then ""
      else
        var file := Strip(route[|IMAGE_ROUTE|..], IsSlash);
        if file == "" || Contains(file, "/") || file == "." || file == ".." then "" else IMAGE_FOLDER + file
  }

  /** The first of the three path fields that is truthy. */
  function PathField(p: Payload): string {
    if Truth(Get(p, "path")) then OrText(Get(p, "path"))
    else if Truth(Get(p, "published_path")) then OrText(Get(p, "published_path"))
    else OrText(Get(p, "artifact_path"))
  }

  function LogicalPath(p: Payload): string {
    if Clean(PathField(p)) != "" then Clean(PathField(p)) else ImagePath(Get(p, "src"))
  }

  function RefText(p: Payload): string {
    Strip(OrText(Get(p, "artifact_ref")), IsSpace)
  }

  /** What stands in for a path that cleans to nothing: the image behind `src`, or what the
      artifact reference names. */
  function Fallback(p: Payload): string {
    if ImagePath(Get(p, "src")) != "" then ImagePath(Get(p, "src"))
    else Strip(WithoutPrefix(RefText(p), "artifact:"), IsSpace)
  }

  /** The path normalisation settles on. */
  function ChosenPath(p: Payload): string {
    if Clean(PathField(p)) != "" then Clean(PathField(p)) else Fallback(p)
  }

  function WithText(p: Payload, field: string, text: string): Payload {
    if text == "" then p else p[field := Text(text)]
  }

  function DropEmpty(p: Payload): (r: Payload)
    ensures forall f :: f in r <==> f in p && !IsEmpty(p[f])
    ensures forall f :: f in r ==> r[f] == p[f]
  {
    map f | f in p && !IsEmpty(p[f]) :: p[f]
  }

  function FieldsOf(r: Ref): Payload {
    match r
    case Dict(fields) => fields
    case Other(shown) => map["path" := Text(shown)]
  }

  function NormalFields(p: Payload): Payload {
    DropEmpty(WithText(WithText(p, "path", ChosenPath(p)), "artifact_ref", RefText(p)))
  }

  /** `normalize_artifact_ref` */
  function Normalize(r: Ref): Payload {
    NormalFields(FieldsOf(r))
  }

  // ---- what normalisation chooses ----

  /** The text of the first of these fields that is truthy. */
  function FirstGiven(p: Payload, fields: seq<string>): string
    decreases |fields|
  {
    if fields == [] then ""
    else if fields[0] in p && Truth(p[fields[0]]) then OrText(p[fields[0]])
    else FirstGiven(p, fields[1..])
  }

  const PATH_FIELDS: seq<string> := ["path", "published_path", "artifact_path"]

  /** Slashes forward, no white space around, and then no slashes around. */
  function Cleaned(s: string): string {
    Strip(Strip(ForwardSlashes(s), IsSpace), IsSlash)
  }

  /** The image route, at the root of the source or relative to it, names this file. */
  predicate NamesImage(p: Payload, file: string) {
    var src := Strip(ForwardSlashes(if "src" in p then OrText(p["src"]) else ""), IsSpace);
    && !Contains(src, "://") && file !in {"", ".", ".."} && '/' !in file
    && (|| (StartsWith(src, "api/image-assets/files/") && file == Strip(src[|"api/image-assets/files/"|..], IsSlash))
        || (StartsWith(src, "/api/image-assets/files/") && file == Strip(src[|"/api/image-assets/files/"|..], IsSlash)))
  }

  lemma HasSlashIff(file: string)
    ensures Contains(file, "/") <==> '/' in file
  {
    if '/' in file {
      var i :| 0 <= i < |file| && file[i] == '/';
      assert StartsWith(file[i..], "/");
    }
    if Contains(file, "/") {
      var i :| 0 <= i <= |file| - 1 && StartsWith(file[i..], "/");
      assert file[i] == file[i..][0] == "/"[0];
    }
  }

  lemma RouteAtRoot(s: string)
    requires StartsWith(s, "/api/image-assets/files/")
    ensures !StartsWith(s, "//") && LStrip(s, IsSlash) == s[1..] && StartsWith(s[1..], IMAGE_ROUTE)
    ensures s[|"/api/image-assets/files/"|..] == s[1..][|IMAGE_ROUTE|..]
  {
    var rest := s[1..];
    assert s[..24][0] == s[0] && s[..24][1] == s[1] && s[..2][1] == s[1];
    assert rest[..23] == s[..24][1..] == "/api/image-assets/files/"[1..] == IMAGE_ROUTE;
    assert LStrip(rest, IsSlash) == rest;
  }

  lemma RouteRelative(s: string)
    requires StartsWith(s, IMAGE_ROUTE)
    ensures !StartsWith(s, "//") && LStrip(s, IsSlash) == s && !StartsWith(s, "/api/image-assets/files/")
  {
    assert s[0] == s[..23][0] == 'a';
    assert |s| >= 24 ==> s[..24][0] == s[0];
    assert s[..2][0] == s[0];
  }

  /** A source with the route after its leading slashes has at most one of those, or is refused. */
  lemma RouteAfterSlashes(s: string)
    requires !StartsWith(s, "//") && StartsWith(LStrip(s, IsSlash), IMAGE_ROUTE)
    ensures StartsWith(s, IMAGE_ROUTE) || StartsWith(s, "/api/image-assets/files/")
  {
    if s[0] == '/' {
      assert |s| > 1 ==> s[..2] == [s[0], s[1]];
      assert LStrip(s, IsSlash) == LStrip(s[1..], IsSlash) == s[1..];
      RouteAtSlash(s[1..]);
      assert s == "/" + s[1..];
    }
  }

  lemma RouteAtSlash(rest: string)
    requires StartsWith(rest, IMAGE_ROUTE)
    ensures StartsWith("/" + rest, "/api/image-assets/files/")
  {
    assert ("/" + rest)[..24] == "/" + rest[..23] == "/" + IMAGE_ROUTE;
    assert "/" + IMAGE_ROUTE == "/api/image-assets/files/";
  }

  /** The image behind a source is exactly the one it names. */
  lemma ImageIff(p: Payload, file: string)
    ensures NamesImage(p, file) <==> ImagePath(Get(p, "src")) == "storage/generated/images/" + file
    ensures ImagePath(Get(p, "src")) == "" || exists f :: NamesImage(p, f) && ImagePath(Get(p, "src")) == "storage/generated/images/" + f
  {
    var s := Strip(ForwardSlashes(OrText(Get(p, "src"))), IsSpace);
    if !StartsWith(s, "//") && StartsWith(LStrip(s, IsSlash), IMAGE_ROUTE) { RouteAfterSlashes(s); }
    if StartsWith(s, IMAGE_ROUTE) {
      RouteRelative(s);
      ImageOfRoute(p, s, s[|IMAGE_ROUTE|..], file);
    } else if StartsWith(s, "/api/image-assets/files/") {
      RouteAtRoot(s);
      ImageOfRoute(p, s, s[1..][|IMAGE_ROUTE|..], file);
    } else {
      assert ImagePath(Get(p, "src")) == "";
    }
  }

  lemma ImageOfRoute(p: Payload, s: string, tail: string, file: string)
    requires s == Strip(ForwardSlashes(OrText(Get(p, "src"))), IsSpace)
    requires s != "" && !StartsWith(s, "//") && StartsWith(LStrip(s, IsSlash), IMAGE_ROUTE)
    requires tail == LStrip(s, IsSlash)[|IMAGE_ROUTE|..]
    requires if StartsWith(s, IMAGE_ROUTE) then tail == s[|IMAGE_ROUTE|..] && !StartsWith(s, "/api/image-assets/files/")
             else StartsWith(s, "/api/image-assets/files/") && tail == s[|"/api/image-assets/files/"|..]
    ensures NamesImage(p, file) <==> ImagePath(Get(p, "src")) == "storage/generated/images/" + file
    ensures ImagePath(Get(p, "src")) == "" || exists f :: NamesImage(p, f) && ImagePath(Get(p, "src")) == "storage/generated/images/" + f
  {
    var named := Strip(tail, IsSlash);
    HasSlashIff(named);
    assert IMAGE_FOLDER + named == "storage/generated/images/" + named;
    if IMAGE_FOLDER + named == "storage/generated/images/" + file {
      assert (IMAGE_FOLDER + named)[|IMAGE_FOLDER|..] == named && ("storage/generated/images/" + file)[|IMAGE_FOLDER|..] == file;
    }
    if ImagePath(Get(p, "src")) != "" { assert NamesImage(p, named); }
  }

  /** Where the artifact is: at the first given path field, cleaned; else at the image that the source
      names; else nowhere. */
  ghost predicate Locates(p: Payload, path: string) {
    var given := Cleaned(FirstGiven(p, PATH_FIELDS));
    if given != "" then path == given
    else if exists file :: NamesImage(p, file) then exists file :: NamesImage(p, file) && path == "storage/generated/images/" + file
    else path == ""
  }

  /** The path settled on: where the artifact is, else what its reference names, else none. */
  ghost predicate Chooses(p: Payload, path: string) {
    if Locates(p, "") then path == Strip(WithoutPrefix(Strip(FirstGiven(p, ["artifact_ref"]), IsSpace), "artifact:"), IsSpace)
    else Locates(p, path)
  }

  lemma GivenIs(p: Payload)
    ensures FirstGiven(p, PATH_FIELDS) == PathField(p)
    ensures FirstGiven(p, ["artifact_ref"]) == OrText(Get(p, "artifact_ref"))
  {
    assert PATH_FIELDS[1..] == ["published_path", "artifact_path"];
    assert PATH_FIELDS[1..][1..] == ["artifact_path"] && PATH_FIELDS[1..][1..][1..] == [];
    assert ["artifact_ref"][1..] == [];
  }

  /** Normalisation, for every reference: the path it sets and the others it keeps. */
  lemma NormalizeChooses(r: Ref)
    ensures var p := if r.Dict? then r.fields else map["path" := Text(r.shown)];
            var n := Normalize(r);
            var ref := Strip(FirstGiven(p, ["artifact_ref"]), IsSpace);
            && (forall path :: path != "" && Chooses(p, path) ==> Get(n, "path") == Text(path))
            && (Chooses(p, "") ==> Get(n, "path") == if "path" in p && !IsEmpty(p["path"]) then p["path"] else Null)
            && Get(n, "artifact_ref") == (if ref != "" then Text(ref)
                                          else if "artifact_ref" in p && !IsEmpty(p["artifact_ref"]) then p["artifact_ref"] else Null)
            && (forall f :: f !in {"path", "artifact_ref"} ==> (f in n <==> f in p && !IsEmpty(p[f])) && (f in n ==> n[f] == p[f]))
  {
    var p := FieldsOf(r);
    GivenIs(p);
    ChoosesOne(p);
    NormalFieldsSet(p);
  }

  lemma NormalFieldsSet(p: Payload)
    ensures var n := NormalFields(p);
            && Get(n, "path") == (if ChosenPath(p) != "" then Text(ChosenPath(p))
                                  else if "path" in p && !IsEmpty(p["path"]) then p["path"] else Null)
            && Get(n, "artifact_ref") == (if RefText(p) != "" then Text(RefText(p))
                                          else if "artifact_ref" in p && !IsEmpty(p["artifact_ref"]) then p["artifact_ref"] else Null)
            && (forall f :: f !in {"path", "artifact_ref"} ==> (f in n <==> f in p && !IsEmpty(p[f])) && (f in n ==> n[f] == p[f]))
  {
  }

  /** Exactly the logical path is where the artifact is. */
  lemma LocatesOne(p: Payload)
    ensures forall path :: Locates(p, path) <==> path == LogicalPath(p)
  {
    GivenIs(p);
    forall path ensures Locates(p, path) <==> path == LogicalPath(p) {
      forall file ensures NamesImage(p, file) <==> ImagePath(Get(p, "src")) == "storage/generated/images/" + file {
        ImageIff(p, file);
      }
      ImageIff(p, "");
    }
  }

  /** Exactly the path that normalisation computes is chosen. */
  lemma ChoosesOne(p: Payload)
    ensures forall path :: Chooses(p, path) <==> path == ChosenPath(p)
  {
    GivenIs(p);
    LocatesOne(p);
  }

  // ---- cleaning and normalising again ----

  /** White space next to nothing but slashes on one side: stripping the slashes lays it bare. */
  predicate ShieldsSpace(t: string) {
    exists i :: 0 <= i < |t| && IsSpace(t[i]) && (AllSlashes(t[..i]) || AllSlashes(t[i + 1..]))
  }

  predicate AllSlashes(t: string) {
    forall i :: 0 <= i < |t| ==> IsSlash(t[i])
  }

  /** Cleaning twice is cleaning once if and only if, in the text without its outer white space,
      no slashes at an end shield further white space. */
  lemma CleanIdempotentIff(s: string)
    ensures Clean(Clean(s)) == Clean(s) <==> !ShieldsSpace(Strip(ForwardSlashes(s), IsSpace))
  {
    CleanIdempotentTrimmed(s);
    StripSlashesTrimmed(Strip(ForwardSlashes(s), IsSpace));
  }

  /** Where stripping from the left stops. */
  lemma {:induction false} LStripStops(s: string, drop: char -> bool) returns (a: nat)
    ensures a <= |s| && LStrip(s, drop) == s[a..]
    ensures forall i :: 0 <= i < a ==> drop(s[i])
    ensures a < |s| ==> !drop(s[a])
    decreases |s|
  {
    if s == "" || !drop(s[0]) {
      a := 0;
    } else {
      var b := LStripStops(s[1..], drop);
      a := b + 1;
    }
  }

  lemma {:induction false} RStripStops(s: string, drop: char -> bool) returns (b: nat)
    ensures b <= |s| && RStrip(s, drop) == s[..b]
    ensures forall i :: b <= i < |s| ==> drop(s[i])
    ensures b > 0 ==> !drop(s[b - 1])
    decreases |s|
  {
    if s == "" || !drop(s[|s| - 1]) {
      b := |s|;
      assert s[..b] == s;
    } else {
      b := RStripStops(s[..|s| - 1], drop);
      assert s[..|s| - 1][..b] == s[..b];
    }
  }

  /** The text without its outer slashes begins and ends in no white space exactly when the slashes
      shielded none. */
  lemma StripSlashesTrimmed(t: string)
    ensures Trimmed(Strip(t, IsSlash), IsSpace) <==> !ShieldsSpace(t)
  {
    var a := LStripStops(t, IsSlash);
    var l := LStrip(t, IsSlash);
    var b := RStripStops(l, IsSlash);
    var r := l[..b];
    if b == 0 {
      assert AllSlashes(t);
      NoShieldInSlashes(t);
    } else {
      assert forall i :: 0 <= i < b ==> r[i] == t[a + i];
      assert AllSlashes(t[..a]) && AllSlashes(t[a + b..]);
      if IsSpace(r[0]) { assert IsSpace(t[a]); }
      if IsSpace(r[b - 1]) { assert t[a + b - 1 + 1..] == t[a + b..]; }
      if ShieldsSpace(t) { ShieldedIsEnd(t, a, b); }
    }
  }

  lemma NoShieldInSlashes(t: string)
    requires AllSlashes(t)
    ensures !ShieldsSpace(t)
  {
  }

  lemma ShieldedIsEnd(t: string, a: nat, b: nat)
    requires 0 < b && a + b <= |t|
    requires forall j :: 0 <= j < |t| && !(a <= j < a + b) ==> IsSlash(t[j])
    requires !IsSlash(t[a]) && !IsSlash(t[a + b - 1]) && ShieldsSpace(t)
    ensures IsSpace(t[a]) || IsSpace(t[a + b - 1])
  {
    var i :| 0 <= i < |t| && IsSpace(t[i]) && (AllSlashes(t[..i]) || AllSlashes(t[i + 1..]));
    assert a <= i < a + b;
    if AllSlashes(t[..i]) {
      assert forall j :: 0 <= j < i ==> IsSlash(t[j]) by { assert forall j :: 0 <= j < i ==> t[..i][j] == t[j]; }
    } else {
      assert forall j :: i < j < |t| ==> IsSlash(t[j]) by { assert forall j :: i < j < |t| ==> t[i + 1..][j - i - 1] == t[j]; }
    }
  }

  lemma CleanIdempotentTrimmed(s: string)
    ensures Clean(Clean(s)) == Clean(s) <==> Trimmed(Clean(s), IsSpace)
  {
    var c := Clean(s);
    StripTrims(ForwardSlashes(s), IsSpace);
    StripTrims(Strip(ForwardSlashes(s), IsSpace), IsSlash);
    CleanHasNoBackslash(s);
    assert ForwardSlashes(c) == c;
    StripTrims(c, IsSpace);
    StripTrims(Strip(c, IsSpace), IsSlash);
    if Trimmed(c, IsSpace) {
      assert Strip(c, IsSpace) == c;
      StripTrims(c, IsSlash);
    } else {
      StripLength(Strip(c, IsSpace), IsSlash);
      StripLength(c, IsSpace);
    }
  }

  lemma StripLength(s: string, drop: char -> bool)
    ensures |Strip(s, drop)| <= |s| && (|Strip(s, drop)| == |s| ==> Trimmed(s, drop))
  {
    LStripEnds(s, drop);
    RStripEnds(LStrip(s, drop), drop);
    if s != "" && drop(s[0]) { LStripEnds(s[1..], drop); }
    var l := LStrip(s, drop);
    if l != "" && drop(l[|l| - 1]) { RStripEnds(l[..|l| - 1], drop); }
  }

  lemma {:induction false} LStripWithin(s: string, drop: char -> bool, c: char)
    ensures c in LStrip(s, drop) ==> c in s
    decreases |s|
  {
    if s == "" {
    } else if drop(s[0]) {
      LStripWithin(s[1..], drop, c);
    }
  }

  lemma {:induction false} RStripWithin(s: string, drop: char -> bool, c: char)
    ensures c in RStrip(s, drop) ==> c in s
    decreases |s|
  {
    if s == "" {
    } else if drop(s[|s| - 1]) {
      RStripWithin(s[..|s| - 1], drop, c);
    }
  }

  lemma StripWithin(s: string, drop: char -> bool, c: char)
    ensures c in Strip(s, drop) ==> c in s
  {
    LStripWithin(s, drop, c);
    RStripWithin(LStrip(s, drop), drop, c);
  }

  lemma CleanHasNoBackslash(s: string)
    ensures '\\' !in Clean(s) && ForwardSlashes(Clean(s)) == Clean(s)
  {
    StripWithin(ForwardSlashes(s), IsSpace, '\\');
    StripWithin(Strip(ForwardSlashes(s), IsSpace), IsSlash, '\\');
    assert '\\' !in ForwardSlashes(s);
    var c := Clean(s);
    assert forall i :: 0 <= i < |c| ==> c[i] in c;
  }

  /** The normalised reference text is stripped, so it is kept. */
  lemma RefTextKept(p: Payload)
    ensures RefText(NormalFields(p)) == RefText(p)
    ensures RefText(p) != "" ==> Get(NormalFields(p), "artifact_ref") == Text(RefText(p))
  {
    StripTrims(OrText(Get(p, "artifact_ref")), IsSpace);
    StripTrims(RefText(p), IsSpace);
  }

  /** With no path to settle on, the fields it depends on are as they were. */
  lemma NoPathKept(p: Payload)
    requires ChosenPath(p) == ""
    ensures ChosenPath(NormalFields(p)) == ""
  {
    RefTextKept(p);
    var n := NormalFields(p);
    assert OrText(Get(n, "path")) == OrText(Get(p, "path")) && Truth(Get(n, "path")) == Truth(Get(p, "path"));
    assert OrText(Get(n, "published_path")) == OrText(Get(p, "published_path"));
    assert OrText(Get(n, "artifact_path")) == OrText(Get(p, "artifact_path"));
    assert OrText(Get(n, "src")) == OrText(Get(p, "src"));
  }

  /** Nothing to normalise: the settled path, if any, is the path field. */
  predicate PathSettled(p: Payload) {
    ChosenPath(p) == "" || Get(p, "path") == Text(ChosenPath(p))
  }

  /** The fallback does not depend on the fields normalisation sets. */
  lemma FallbackKept(p: Payload)
    ensures Fallback(NormalFields(p)) == Fallback(p)
  {
    RefTextKept(p);
    assert OrText(Get(NormalFields(p), "src")) == OrText(Get(p, "src"));
  }

  /** Normalisation sets the path it chose, if any. */
  lemma ChosenKept(p: Payload)
    requires ChosenPath(p) != ""
    ensures var n := NormalFields(p);
            && Get(n, "path") == Text(ChosenPath(p))
            && ChosenPath(n) == if Clean(ChosenPath(p)) != "" then Clean(ChosenPath(p)) else Fallback(n)
  {
    assert Get(NormalFields(p), "path") == Text(ChosenPath(p));
    assert PathField(NormalFields(p)) == ChosenPath(p);
  }

  lemma SettledIff(p: Payload)
    ensures PathSettled(NormalFields(p)) <==>
              Clean(ChosenPath(p)) == ChosenPath(p) || (Clean(ChosenPath(p)) == "" && Fallback(p) in {"", ChosenPath(p)})
  {
    FallbackKept(p);
    if ChosenPath(p) == "" {
      NoPathKept(p);
      CleanOfNothing();
    } else {
      ChosenKept(p);
    }
  }

  lemma CleanOfNothing()
    ensures Clean("") == ""
  {
    assert ForwardSlashes("") == "";
  }

  lemma RefStays(p: Payload, path: string)
    ensures var named := WithText(NormalFields(p), "path", path);
            WithText(named, "artifact_ref", RefText(NormalFields(p))) == named
  {
    RefTextKept(p);
    var named := WithText(NormalFields(p), "path", path);
    if RefText(p) != "" { assert named["artifact_ref"] == Text(RefText(p)); }
  }

  /** Normalising a normalised payload sets its path and nothing else. */
  lemma NormalTwice(p: Payload)
    ensures var n := NormalFields(p); NormalFields(n) == DropEmpty(WithText(n, "path", ChosenPath(n)))
  {
    RefStays(p, ChosenPath(NormalFields(p)));
  }

  lemma DropEmptyTwice(p: Payload)
    ensures DropEmpty(DropEmpty(p)) == DropEmpty(p)
  {
  }

  lemma DropEmptyWithPath(n: Payload, path: string)
    requires DropEmpty(n) == n
    ensures DropEmpty(WithText(n, "path", path)) == n <==> path == "" || Get(n, "path") == Text(path)
  {
    if path != "" && Get(n, "path") != Text(path) {
      assert DropEmpty(WithText(n, "path", path))["path"] == Text(path);
    } else {
      assert WithText(n, "path", path) == n;
    }
  }

  lemma SettledStays(p: Payload)
    ensures NormalFields(NormalFields(p)) == NormalFields(p) <==> PathSettled(NormalFields(p))
  {
    NormalTwice(p);
    DropEmptyTwice(WithText(WithText(p, "path", ChosenPath(p)), "artifact_ref", RefText(p)));
    DropEmptyWithPath(NormalFields(p), ChosenPath(NormalFields(p)));
  }

  /** Normalisation is idempotent if and only if the path chosen from the given fields is a fixed
      point of cleaning, or cleans to nothing and the fallback of those fields does not replace it. */
  lemma NormalizeIdempotentIff(r: Ref)
    ensures var p := FieldsOf(r);
            var x := ChosenPath(p);
            Normalize(Dict(Normalize(r))) == Normalize(r) <==> Clean(x) == x || (Clean(x) == "" && Fallback(p) in {"", x})
  {
    SettledIff(FieldsOf(r));
    SettledStays(FieldsOf(r));
  }

  /** When the path comes from a path field, that is a condition on the field's text alone, but for
      a path of white space between slashes. */
  lemma PathFieldIdempotentIff(r: Ref)
    requires Clean(PathField(FieldsOf(r))) != "" && Clean(Clean(PathField(FieldsOf(r)))) != ""
    ensures Normalize(Dict(Normalize(r))) == Normalize(r) <==>
              !ShieldsSpace(Strip(ForwardSlashes(PathField(FieldsOf(r))), IsSpace))
  {
    NormalizeIdempotentIff(r);
    CleanIdempotentIff(PathField(FieldsOf(r)));
  }

  /** The smallest witness: a slash that shields a space. */
  lemma CleanOnceIsNotEnough()
    ensures Clean("/ a") == " a" && Clean(" a") == "a"
    ensures var r := Dict(map["path" := Text("/ a")]); Normalize(Dict(Normalize(r))) != Normalize(r)
  {
    assert ForwardSlashes("/ a") == "/ a" && ForwardSlashes(" a") == " a";
    assert " a"[1..] == "a" && "/ a"[1..] == " a";
    assert Clean("/ a") == " a" && Clean(" a") == "a";
    var r := Dict(map["path" := Text("/ a")]);
    NormalizeIdempotentIff(r);
    assert ChosenPath(FieldsOf(r)) == " a";
  }
}
