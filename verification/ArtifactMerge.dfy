/** Merging artifact references: the ordered fold of `dedupe_artifact_refs`. */
module ArtifactMerge {
  import opened Common
  import opened Text
  import opened ArtifactRefs
  import opened KeyedMerge

  function KeyOf(p: Payload): Key {
    if LogicalPath(p) != "" then Named(LogicalPath(p))
    else if OrText(Get(p, "absolute_path")) != "" then Named(OrText(Get(p, "absolute_path")))
    else Anonymous(p)
  }

  /** What a reference is filed under: where it is, else its absolute path, else all it says. */
  lemma KeyIsWhereItIs(p: Payload, path: string)
    requires Locates(p, path)
    ensures KeyOf(p) == if path != "" then Named(path)
                        else if FirstGiven(p, ["absolute_path"]) != "" then Named(FirstGiven(p, ["absolute_path"]))
                        else Anonymous(p)
  {
    LocatesOne(p);
    assert ["absolute_path"][1..] == [];
  }

  predicate LastWins(field: string) {
    StartsWith(field, "repository_") || field == "content_hash" || field == "collection_id"
  }

  predicate Takes(current: Payload, field: string) {
    field !in current || IsEmpty(current[field]) || LastWins(field)
  }

  /** The field loop: a field of p is taken when it is missing, empty or one the last wins. */
  function Merge(current: Payload, p: Payload): (r: Payload)
    ensures r.Keys == current.Keys + p.Keys
    ensures forall f :: f in r ==> r[f] == if f in p && Takes(current, f) then p[f] else Get(current, f)
  {
    map f | f in current.Keys + p.Keys :: if f in p && Takes(current, f) then p[f] else Get(current, f)
  }

  const ByArtifact := Rule(KeyOf, Merge)

  const EMPTY_TABLE: Table<Key, Payload> := Table([], [])

  function Payloads(refs: seq<Ref>): seq<Payload> {
    Prepared(Normalize, refs)
  }

  function AsRefs(ps: seq<Payload>): (r: seq<Ref>)
    ensures |r| == |ps| && forall i :: 0 <= i < |ps| ==> r[i] == Dict(ps[i])
  {
    seq(|ps|, i requires 0 <= i < |ps| => Dict(ps[i]))
  }

  /** `dedupe_artifact_refs` */
  function Dedupe(refs: seq<Ref>): seq<Payload> {
    Fold(ByArtifact, EMPTY_TABLE, Payloads(refs)).items
  }

  // ---- the canonical merge ----

  /** The first value of a field in a group. */
  function FirstValue(group: seq<Payload>, field: string): Option<Value>
    decreases |group|
  {
    if group == [] then None
    else if field in group[0] then Some(group[0][field])
    else FirstValue(group[1..], field)
  }

  /** The last value of a field in a group. */
  function LastValue(group: seq<Payload>, field: string): Option<Value>
    decreases |group|
  {
    if group == [] then None
    else if field in group[|group| - 1] then Some(group[|group| - 1][field])
    else LastValue(group[..|group| - 1], field)
  }

  /** What a group says of a field: the last value for what describes the repository, the content hash
      and the collection, the first for anything else. */
  function GroupValue(group: seq<Payload>, field: string): Option<Value> {
    if StartsWith(field, "repository_") || field in {"content_hash", "collection_id"}
    then LastValue(group, field) else FirstValue(group, field)
  }

  function FieldOf(p: Payload, field: string): Option<Value> {
    if field in p then Some(p[field]) else None
  }

  predicate NoEmptyField(p: Payload) {
    forall f :: f in p ==> !IsEmpty(p[f])
  }

  predicate AllFull(ps: seq<Payload>) {
    forall i :: 0 <= i < |ps| ==> NoEmptyField(ps[i])
  }

  lemma {:induction false} FirstValueAppend(group: seq<Payload>, p: Payload, field: string)
    ensures FirstValue(group + [p], field) == if FirstValue(group, field).Some? then FirstValue(group, field) else FieldOf(p, field)
    decreases |group|
  {
    if group == [] {
      assert FirstValue([p][1..], field) == None;
    } else {
      FirstValueAppend(group[1..], p, field);
      assert (group + [p])[1..] == group[1..] + [p];
    }
  }

  lemma {:induction false} FirstValueFull(group: seq<Payload>, field: string)
    requires AllFull(group)
    ensures FirstValue(group, field).Some? ==> !IsEmpty(FirstValue(group, field).value)
    decreases |group|
  {
    if group == [] {
    } else {
      FirstValueFull(group[1..], field);
    }
  }

  /** A merged group holds the first value of each field, or the last where the last wins. */
  lemma {:induction false} MergedField(group: seq<Payload>, field: string)
    requires group != [] && AllFull(group)
    ensures FieldOf(MergeAll(ByArtifact, group), field) == GroupValue(group, field)
    decreases |group|
  {
    var front, p := group[..|group| - 1], group[|group| - 1];
    assert group == front + [p];
    FirstValueAppend(front, p, field);
    if front == [] {
      assert group[1..] == [] && group[..0] == [];
      assert FieldOf(p, field) == FirstValue(group, field) == LastValue(group, field);
    } else {
      MergedField(front, field);
      FirstValueFull(front, field);
      var current := MergeAll(ByArtifact, front);
      assert MergeAll(ByArtifact, group) == Merge(current, p);
      LastValueEither(front, field);
    }
  }

  /** A field has a first value exactly when it has a last one. */
  lemma {:induction false} LastValueEither(group: seq<Payload>, field: string)
    ensures FirstValue(group, field).Some? <==> LastValue(group, field).Some?
    decreases |group|
  {
    if group == [] {
    } else {
      LastValueEither(group[..|group| - 1], field);
      FirstValueAppend(group[..|group| - 1], group[|group| - 1], field);
      assert group == group[..|group| - 1] + [group[|group| - 1]];
    }
  }

  /** Is the field's merged value right, over the references of this key? */
  predicate FieldMerged(refs: seq<Ref>, key: Key, item: Payload, field: string) {
    var group := Group(ByArtifact, Payloads(refs), key);
    FieldOf(item, field) == GroupValue(group, field)
  }

  lemma {:induction false} GroupFull(ps: seq<Payload>, key: Key)
    requires AllFull(ps)
    ensures AllFull(Group(ByArtifact, ps, key))
    decreases |ps|
  {
    if ps == [] {
    } else {
      GroupFull(ps[..|ps| - 1], key);
    }
  }

  /** The canonical ordered merge, for every list of references: one entry per key, by first
      occurrence, whose fields are those of the key's group, each with its first value, or its
      last for the fields where the last wins. */
  lemma DedupeIsCanonical(refs: seq<Ref>)
    ensures var keys := KeysOf(ByArtifact, Payloads(refs));
            && Distinct(keys) && |Dedupe(refs)| == |keys|
            && forall i, f :: 0 <= i < |keys| ==> FieldMerged(refs, keys[i], Dedupe(refs)[i], f)
  {
    var ps := Payloads(refs);
    assert [] + ps == ps;
    FoldCanonical(ByArtifact, EMPTY_TABLE, [], ps);
    var t := Fold(ByArtifact, EMPTY_TABLE, ps);
    assert Canonical(ByArtifact, t, ps);
    forall i, f | 0 <= i < |t.keys| ensures FieldMerged(refs, t.keys[i], t.items[i], f) {
      GroupFull(ps, t.keys[i]);
      assert IsMergeOf(ByArtifact, t.items[i], Group(ByArtifact, ps, t.keys[i]));
      MergedField(Group(ByArtifact, ps, t.keys[i]), f);
    }
  }

  // ---- stability ----

  /** A path that is a fixed point of cleaning; or none, and no published path that `or` skips. */
  predicate PlainPath(p: Payload) {
    if "path" in p then p["path"].Text? && p["path"].text != "" && Clean(p["path"].text) == p["path"].text
    else "published_path" in p ==> !p["published_path"].Falsy?
  }

  /** Normalised, with a plain path. */
  predicate Ready(p: Payload) {
    && NoEmptyField(p) && PlainPath(p)
    && (RefText(p) != "" ==> Get(p, "artifact_ref") == Text(RefText(p)))
    && ("path" !in p ==> ChosenPath(p) == "")
  }

  lemma NormalizedReady(r: Ref)
    requires PlainPath(Normalize(r))
    ensures Ready(Normalize(r))
  {
    var f, n := FieldsOf(r), Normalize(r);
    RefTextKept(f);
    if "path" !in n {
      assert ChosenPath(f) == "";
      NoPathKept(f);
    }
  }

  lemma ReadyIsNormal(p: Payload)
    requires Ready(p)
    ensures NormalFields(p) == p
  {
    assert WithText(p, "path", ChosenPath(p)) == p;
    assert WithText(p, "artifact_ref", RefText(p)) == p;
  }

  lemma ReadyKey(p: Payload)
    requires Ready(p)
    ensures KeyOf(p) == if "path" in p then Named(p["path"].text)
                        else if OrText(Get(p, "absolute_path")) != "" then Named(OrText(Get(p, "absolute_path")))
                        else Anonymous(p)
  {
  }

  lemma FirstWins(field: string)
    requires field != "" && field[0] != 'r' && field[0] != 'c'
    ensures !LastWins(field)
  {
    assert |field| >= |"repository_"| ==> field[..|"repository_"|][0] == field[0];
  }

  /** A field for which the first wins, between references without empty fields. */
  lemma MergedFirst(current: Payload, p: Payload, field: string)
    requires NoEmptyField(current) && field != "" && field[0] != 'r' && field[0] != 'c'
    ensures var r := Merge(current, p);
            && (field in r <==> field in current || field in p)
            && Get(r, field) == if field in current then current[field] else Get(p, field)
  {
    FirstWins(field);
  }

  /** Two references without a path have none when merged. */
  lemma MergedNoPath(current: Payload, p: Payload)
    requires Ready(current) && Ready(p) && "path" !in current && "path" !in p
    ensures ChosenPath(Merge(current, p)) == ""
  {
    var r := Merge(current, p);
    MergedFirst(current, p, "path");
    MergedFirst(current, p, "published_path");
    MergedFirst(current, p, "artifact_path");
    MergedFirst(current, p, "src");
    MergedFirst(current, p, "artifact_ref");
    CleanOfNothing();
    assert Clean(PathField(r)) == "" by {
      assert PathField(r) == PathField(current) || PathField(r) == PathField(p);
    }
    assert ImagePath(Get(r, "src")) == "" by {
      assert ImagePath(Get(current, "src")) == "" && ImagePath(Get(p, "src")) == "";
    }
  }

  lemma MergeReady(current: Payload, p: Payload)
    requires Ready(current) && Ready(p)
    ensures Ready(Merge(current, p))
  {
    MergedFirst(current, p, "path");
    MergedFirst(current, p, "artifact_ref");
    MergedFirst(current, p, "published_path");
    if "path" !in current && "path" !in p { MergedNoPath(current, p); }
  }

  /** Merging under one key keeps the key. */
  lemma MergeKeepsKey(current: Payload, p: Payload)
    requires Ready(current) && Ready(p) && KeyOf(current) == KeyOf(p)
    ensures Ready(Merge(current, p)) && KeyOf(Merge(current, p)) == KeyOf(p)
  {
    ReadyKey(current);
    ReadyKey(p);
    MergeReady(current, p);
    ReadyKey(Merge(current, p));
    if KeyOf(p).Anonymous? {
      assert Merge(current, p) == p;
    } else {
      MergedFirst(current, p, "path");
      MergedFirst(current, p, "absolute_path");
    }
  }

  predicate Domain(refs: seq<Ref>) {
    forall i :: 0 <= i < |refs| ==> PlainPath(Normalize(refs[i]))
  }

  lemma PlainKeepsKeys(refs: seq<Ref>)
    requires Domain(refs)
    ensures KeepsKeys(ByArtifact, Ready) && forall i :: 0 <= i < |refs| ==> Ready(Payloads(refs)[i])
  {
    forall x, y | Ready(x) && Ready(y) && ByArtifact.keyOf(x) == ByArtifact.keyOf(y)
      ensures Ready(ByArtifact.merge(x, y)) && ByArtifact.keyOf(ByArtifact.merge(x, y)) == ByArtifact.keyOf(y)
    {
      MergeKeepsKey(x, y);
    }
    forall i | 0 <= i < |refs| ensures Ready(Payloads(refs)[i]) { NormalizedReady(refs[i]); }
  }

  /** On plain references each entry still has the key it was filed under, and normalising it
      again changes nothing. */
  lemma KeysAreStable(refs: seq<Ref>)
    requires Domain(refs)
    ensures var items := Dedupe(refs);
            && (forall i :: 0 <= i < |items| ==> Normalize(Dict(items[i])) == items[i])
            && (forall i, j :: 0 <= i < j < |items| ==> KeyOf(items[i]) != KeyOf(items[j]))
  {
    PlainKeepsKeys(refs);
    FoldKeepsKeys(ByArtifact, Ready, Payloads(refs));
    var t := Fold(ByArtifact, EMPTY_TABLE, Payloads(refs));
    forall i | 0 <= i < |t.items| ensures Normalize(Dict(t.items[i])) == t.items[i] && KeyOf(t.items[i]) == t.keys[i] {
      assert ByArtifact.keyOf(t.items[i]) == t.keys[i] && Ready(t.items[i]);
      ReadyIsNormal(t.items[i]);
    }
  }

  lemma PayloadsJoin(a: seq<Ref>, b: seq<Ref>)
    ensures Payloads(a + b) == Payloads(a) + Payloads(b)
  {
    forall i | 0 <= i < |a + b| ensures Payloads(a + b)[i] == (Payloads(a) + Payloads(b))[i] {
      assert (a + b)[i] == if i < |a| then a[i] else b[i - |a|];
    }
  }

  lemma PayloadsOfNormal(items: seq<Payload>)
    requires forall i :: 0 <= i < |items| ==> Normalize(Dict(items[i])) == items[i]
    ensures Payloads(AsRefs(items)) == items
  {
    forall i | 0 <= i < |items| ensures Payloads(AsRefs(items))[i] == items[i] {
      assert AsRefs(items)[i] == Dict(items[i]);
    }
  }

  /** On plain references merging absorbs an earlier merge: merge a first, or all at once; what
      follows need not be plain. */
  lemma DedupeAbsorbs(a: seq<Ref>, b: seq<Ref>)
    requires Domain(a)
    ensures Dedupe(AsRefs(Dedupe(a)) + b) == Dedupe(a + b)
  {
    KeysAreStable(a);
    PayloadsOfNormal(Dedupe(a));
    PayloadsJoin(AsRefs(Dedupe(a)), b);
    PayloadsJoin(a, b);
    PlainKeepsKeys(a);
    FoldAbsorbs(ByArtifact, Ready, Payloads(a), Payloads(b));
  }

  /** On plain references merging is idempotent. */
  lemma DedupeIdempotent(refs: seq<Ref>)
    requires Domain(refs)
    ensures Dedupe(AsRefs(Dedupe(refs))) == Dedupe(refs)
  {
    DedupeAbsorbs(refs, []);
    assert AsRefs(Dedupe(refs)) + [] == AsRefs(Dedupe(refs)) && refs + [] == refs;
  }

  /** Which payloads merging leaves alone: exactly the lists of normal payloads with pairwise
      distinct keys. So merging again changes nothing exactly when the first merge gave one. */
  lemma DedupeFixedIff(items: seq<Payload>)
    ensures Dedupe(AsRefs(items)) == items <==>
              && (forall i :: 0 <= i < |items| ==> Normalize(Dict(items[i])) == items[i])
              && (forall i, j :: 0 <= i < j < |items| ==> KeyOf(items[i]) != KeyOf(items[j]))
  {
    var ps := Payloads(AsRefs(items));
    assert forall i :: 0 <= i < |items| ==> ps[i] == Normalize(Dict(items[i]));
    FoldFixedIff(ByArtifact, ps);
    if Dedupe(AsRefs(items)) == items {
      assert ps == items;
      assert forall i :: 0 <= i < |items| ==> EachKey(ByArtifact, ps)[i] == KeyOf(items[i]);
    } else if forall i :: 0 <= i < |items| ==> Normalize(Dict(items[i])) == items[i] {
      PayloadsOfNormal(items);
      assert forall i :: 0 <= i < |items| ==> EachKey(ByArtifact, ps)[i] == KeyOf(items[i]);
    }
  }

  // ---- a list that is not plain ----

  const SLASHED: Payload := map["absolute_path" := Text("A"), "path" := Text("//")]
  const NAMED: Payload := map["path" := Text("A"), "artifact_ref" := Text("artifact:foo")]
  const JOINED: Payload := map["absolute_path" := Text("A"), "path" := Text("//"), "artifact_ref" := Text("artifact:foo")]

  lemma CleanSlashes()
    ensures Clean("//") == "" && Clean("A") == "A"
  {
    assert ForwardSlashes("//") == "//" && ForwardSlashes("A") == "A";
    assert "//"[1..] == "/" && "/"[1..] == "";
  }

  lemma CleanFoo()
    ensures Clean("foo") == "foo"
  {
    assert ForwardSlashes("foo") == "foo";
  }

  lemma ReferenceText()
    ensures Strip("artifact:foo", IsSpace) == "artifact:foo" && Strip("foo", IsSpace) == "foo"
    ensures WithoutPrefix("artifact:foo", "artifact:") == "foo"
  {
    assert "artifact:foo"[..|"artifact:"|] == "artifact:" && "artifact:foo"[|"artifact:"|..] == "foo";
  }

  lemma NoImage()
    ensures ImagePath(Null) == ""
  {
    assert ForwardSlashes("") == "";
  }

  lemma SlashedIsNormal()
    ensures Normalize(Dict(SLASHED)) == SLASHED && KeyOf(SLASHED) == Named("A")
  {
    CleanSlashes();
    NoImage();
    assert ChosenPath(SLASHED) == "" && RefText(SLASHED) == "";
    assert DropEmpty(SLASHED) == SLASHED;
  }

  lemma NamedIsNormal()
    ensures Normalize(Dict(NAMED)) == NAMED && KeyOf(NAMED) == Named("A")
  {
    CleanSlashes();
    ReferenceText();
    assert ChosenPath(NAMED) == "A" && RefText(NAMED) == "artifact:foo";
    assert WithText(WithText(NAMED, "path", "A"), "artifact_ref", "artifact:foo") == NAMED;
    assert DropEmpty(NAMED) == NAMED;
  }

  lemma SlashedMerge()
    ensures Merge(SLASHED, NAMED) == JOINED
  {
    FirstWins("path");
  }

  /** Both are filed under the one name. */
  lemma SlashedFold()
    ensures Fold(ByArtifact, EMPTY_TABLE, [SLASHED, NAMED]) == Table([Named("A")], [JOINED])
  {
    SlashedIsNormal();
    NamedIsNormal();
    SlashedMerge();
    assert [SLASHED, NAMED][1..] == [NAMED];
    var t := Insert(ByArtifact, EMPTY_TABLE, SLASHED);
    assert t == Table([Named("A")], [SLASHED]);
    assert Insert(ByArtifact, t, NAMED) == Table([Named("A")], [JOINED]);
    assert Fold(ByArtifact, t, [NAMED]) == Fold(ByArtifact, Insert(ByArtifact, t, NAMED), []);
  }

  lemma JoinedFallsBack()
    ensures Fallback(JOINED) == "foo"
  {
    ReferenceText();
    NoImage();
    assert Get(JOINED, "artifact_ref") == Text("artifact:foo") && RefText(JOINED) == "artifact:foo";
  }

  lemma JoinedChooses()
    ensures ChosenPath(JOINED) == "foo"
  {
    CleanSlashes();
    JoinedFallsBack();
    assert PathField(JOINED) == "//";
  }

  lemma JoinedIsNotNormal()
    ensures Normalize(Dict(JOINED)) != JOINED && KeyOf(Normalize(Dict(JOINED))) == Named("foo")
  {
    JoinedChooses();
    ChosenKept(JOINED);
    CleanFoo();
    var n := Normalize(Dict(JOINED));
    assert Get(n, "path") == Text("foo") && Get(JOINED, "path") == Text("//");
    assert PathField(n) == "foo" && LogicalPath(n) == "foo";
  }

  lemma UnsettledPayloads()
    ensures Payloads([Dict(SLASHED), Dict(NAMED)]) == [SLASHED, NAMED]
  {
    SlashedIsNormal();
    NamedIsNormal();
  }

  /** A path field that cleans to nothing: once merged with a reference that names an artifact, it
      is replaced when merged again, under another key. */
  lemma SlashedPathIsReplaced()
    ensures Dedupe([Dict(SLASHED), Dict(NAMED)]) == [JOINED]
    ensures Dedupe(AsRefs([JOINED])) != [JOINED] && KeyOf(Normalize(Dict(JOINED))) == Named("foo")
  {
    UnsettledPayloads();
    SlashedFold();
    JoinedIsNotNormal();
    DedupeFixedIff([JOINED]);
    assert [JOINED][0] == JOINED;
  }
}
