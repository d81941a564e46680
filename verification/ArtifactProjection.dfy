/** The projection of artifact references shown to the model, and the two loops as they run over
    a mutable result and a set of seen keys. */
module ArtifactProjection {
  import opened Common
  import opened Text
  import opened ArtifactRefs
  import opened ArtifactMerge
  import opened KeyedMerge

  /** What the projection decides; its other fields are copied from the source reference. */
  datatype Visible = Visible(path: string, artifactRef: string, source: Payload)

  /** The logical path, else the sandbox path, else an absolute path outside the sandboxes. */
  function VisiblePath(isSandbox: string -> bool, p: Payload): string {
    var sandboxed := Clean(OrText(Get(p, "sandbox_path")));
    var absolute := Strip(OrText(Get(p, "absolute_path")), IsSpace);
    if LogicalPath(p) != "" then LogicalPath(p)
    else if sandboxed != "" then sandboxed
    else if absolute != "" && !isSandbox(absolute) then absolute
    else ""
  }

  function VisibleOf(isSandbox: string -> bool, p: Payload): Visible {
    var path := VisiblePath(isSandbox, p);
    Visible(path, if Get(p, "artifact_ref") != Text(path) then OrText(Get(p, "artifact_ref")) else "", p)
  }

  function VisibleKey(v: Visible): string {
    if v.path != "" then v.path else v.artifactRef
  }

  predicate Reached(limit: Option<int>, count: nat) {
    limit.Some? && count >= limit.value
  }

  /** The loop over the remaining candidates: skip keyless and seen ones, stop at the limit. */
  function Project(candidates: seq<Visible>, limit: Option<int>, seen: set<string>, shown: seq<Visible>): seq<Visible>
    decreases |candidates|
  {
    if candidates == [] then shown
    else
      var key := VisibleKey(candidates[0]);
      if key == "" || key in seen then Project(candidates[1..], limit, seen, shown)
      else
        var longer := shown + [candidates[0]];
        if Reached(limit, |longer|) then longer else Project(candidates[1..], limit, seen + {key}, longer)
  }

  function Candidates(isSandbox: string -> bool, refs: seq<Ref>): seq<Visible> {
    Prepared(p => VisibleOf(isSandbox, p), Dedupe(AsRefs(Payloads(refs))))
  }

  /** `model_visible_artifact_refs` */
  function ModelVisible(isSandbox: string -> bool, refs: seq<Ref>, limit: Option<int>): seq<Visible> {
    Project(Candidates(isSandbox, refs), limit, {}, [])
  }

  // ---- properties ----

  lemma {:induction false} ProjectExtends(candidates: seq<Visible>, limit: Option<int>, seen: set<string>, shown: seq<Visible>)
    ensures shown <= Project(candidates, limit, seen, shown)
    decreases |candidates|
  {
    if candidates == [] {
    } else {
      var key := VisibleKey(candidates[0]);
      if key == "" || key in seen {
        ProjectExtends(candidates[1..], limit, seen, shown);
      } else {
        ProjectExtends(candidates[1..], limit, seen + {key}, shown + [candidates[0]]);
      }
    }
  }

  /** How many entries a limit leaves: the check comes after the first append. */
  function Kept(limit: int, count: nat): nat {
    Min(Max(limit, 1), count)
  }

  lemma {:induction false} ProjectLimited(candidates: seq<Visible>, limit: int, seen: set<string>, shown: seq<Visible>)
    requires |shown| < Max(limit, 1)
    ensures var full := Project(candidates, None, seen, shown);
            Project(candidates, Some(limit), seen, shown) == full[..Kept(limit, |full|)]
    decreases |candidates|
  {
    if candidates == [] {
    } else {
      var key := VisibleKey(candidates[0]);
      var longer := shown + [candidates[0]];
      if key == "" || key in seen {
        ProjectLimited(candidates[1..], limit, seen, shown);
      } else if |longer| >= limit {
        ProjectExtends(candidates[1..], None, seen + {key}, longer);
      } else {
        ProjectLimited(candidates[1..], limit, seen + {key}, longer);
      }
    }
  }

  /** A limited projection is a prefix of the unlimited one: its first n entries for every n from
      1 on, and for n below 1 its first entry, if it has one. */
  lemma LimitedIsPrefix(isSandbox: string -> bool, refs: seq<Ref>, limit: int)
    ensures var full := ModelVisible(isSandbox, refs, None);
            ModelVisible(isSandbox, refs, Some(limit)) == full[..Kept(limit, |full|)]
  {
    ProjectLimited(Candidates(isSandbox, refs), limit, {}, []);
  }

  predicate KeysDiffer(shown: seq<Visible>) {
    && (forall i :: 0 <= i < |shown| ==> VisibleKey(shown[i]) != "")
    && (forall i, j :: 0 <= i < j < |shown| ==> VisibleKey(shown[i]) != VisibleKey(shown[j]))
  }

  predicate SeenAre(seen: set<string>, shown: seq<Visible>) {
    forall i :: 0 <= i < |shown| ==> VisibleKey(shown[i]) in seen
  }

  lemma {:induction false} ProjectDistinct(candidates: seq<Visible>, limit: Option<int>, seen: set<string>, shown: seq<Visible>)
    requires KeysDiffer(shown) && SeenAre(seen, shown)
    ensures KeysDiffer(Project(candidates, limit, seen, shown))
    decreases |candidates|
  {
    if candidates == [] {
    } else {
      var key := VisibleKey(candidates[0]);
      if key == "" || key in seen {
        ProjectDistinct(candidates[1..], limit, seen, shown);
      } else {
        assert KeysDiffer(shown + [candidates[0]]);
        ProjectDistinct(candidates[1..], limit, seen + {key}, shown + [candidates[0]]);
      }
    }
  }

  /** Nothing keyed is lost: without a limit every candidate's key is shown. */
  lemma {:induction false} ProjectComplete(candidates: seq<Visible>, seen: set<string>, shown: seq<Visible>, i: nat)
    requires i < |candidates| && VisibleKey(candidates[i]) != ""
    requires forall k :: k in seen ==> exists j :: 0 <= j < |shown| && VisibleKey(shown[j]) == k
    ensures exists j :: 0 <= j < |Project(candidates, None, seen, shown)|
              && VisibleKey(Project(candidates, None, seen, shown)[j]) == VisibleKey(candidates[i])
    decreases |candidates|
  {
    var key, full := VisibleKey(candidates[0]), Project(candidates, None, seen, shown);
    var longer := shown + [candidates[0]];
    if key == "" {
      ProjectComplete(candidates[1..], seen, shown, i - 1);
    } else {
      var next := if key in seen then shown else longer;
      assert forall j :: 0 <= j < |shown| ==> next[j] == shown[j];
      assert key !in seen ==> next[|shown|] == candidates[0];
      ProjectExtends(candidates[1..], None, seen + {key}, next);
      assert seen + {key} == if key in seen then seen else seen + {key};
      if i == 0 {
        var j :| 0 <= j < |next| && VisibleKey(next[j]) == key;
        assert full[j] == next[j];
      } else {
        ProjectComplete(candidates[1..], seen + {key}, next, i - 1);
      }
    }
  }

  /** Every keyed candidate's key is among those shown. */
  predicate AllShown(candidates: seq<Visible>, shown: seq<Visible>) {
    forall i :: 0 <= i < |candidates| && VisibleKey(candidates[i]) != "" ==>
      exists j :: 0 <= j < |shown| && VisibleKey(shown[j]) == VisibleKey(candidates[i])
  }

  lemma ProjectedKeys(candidates: seq<Visible>, limit: Option<int>)
    ensures KeysDiffer(Project(candidates, limit, {}, []))
    ensures AllShown(candidates, Project(candidates, None, {}, []))
  {
    ProjectDistinct(candidates, limit, {}, []);
    forall i | 0 <= i < |candidates| && VisibleKey(candidates[i]) != ""
      ensures exists j :: 0 <= j < |Project(candidates, None, {}, [])|
                && VisibleKey(Project(candidates, None, {}, [])[j]) == VisibleKey(candidates[i])
    {
      ProjectComplete(candidates, {}, [], i);
    }
  }

  /** The projection shows no key twice, whatever the limit; without one it shows the key of every
      candidate that has one. */
  lemma VisibleKeysDistinct(isSandbox: string -> bool, refs: seq<Ref>, limit: Option<int>)
    ensures KeysDiffer(ModelVisible(isSandbox, refs, limit))
    ensures AllShown(Candidates(isSandbox, refs), ModelVisible(isSandbox, refs, None))
  {
    ProjectedKeys(Candidates(isSandbox, refs), limit);
  }

  /** The first of these that is not empty. */
  function FirstNonEmpty(xs: seq<string>): string
    decreases |xs|
  {
    if xs == [] then "" else if xs[0] != "" then xs[0] else FirstNonEmpty(xs[1..])
  }

  /** The path by which a reference is shown: the one it settles on without its artifact reference, else
      where the sandbox has it, else its absolute path, unless that lies in a sandbox. */
  function ShownPath(isSandbox: string -> bool, p: Payload, logical: string): string {
    var absolute := Strip(FirstGiven(p, ["absolute_path"]), IsSpace);
    FirstNonEmpty([logical, Cleaned(FirstGiven(p, ["sandbox_path"])), if isSandbox(absolute) then "" else absolute])
  }

  /** Shown as reference p: by its path, and by its artifact reference where that says more. */
  predicate ShowsAs(isSandbox: string -> bool, v: Visible, p: Payload) {
    && v.source == p && v.path == ShownPath(isSandbox, p, LogicalPath(p))
    && v.artifactRef == (if "artifact_ref" in p && p["artifact_ref"] == Text(v.path) then "" else FirstGiven(p, ["artifact_ref"]))
  }

  lemma FirstOfTwo(a: string, b: string)
    ensures FirstNonEmpty([a, b]) == if a != "" then a else b
  {
    assert [a, b][1..] == [b] && [b][1..] == [];
    assert FirstNonEmpty([b]) == b;
  }

  lemma FirstOfThree(a: string, b: string, c: string)
    ensures FirstNonEmpty([a, b, c]) == if a != "" then a else if b != "" then b else c
  {
    assert [a, b, c][1..] == [b, c];
    FirstOfTwo(b, c);
  }

  lemma OneGiven(p: Payload, field: string)
    ensures FirstGiven(p, [field]) == OrText(Get(p, field))
  {
    assert [field][1..] == [];
  }

  lemma VisibleIs(isSandbox: string -> bool, p: Payload)
    ensures ShowsAs(isSandbox, VisibleOf(isSandbox, p), p)
  {
    OneGiven(p, "absolute_path");
    OneGiven(p, "sandbox_path");
    OneGiven(p, "artifact_ref");
    var absolute := Strip(OrText(Get(p, "absolute_path")), IsSpace);
    FirstOfThree(LogicalPath(p), Clean(OrText(Get(p, "sandbox_path"))), if isSandbox(absolute) then "" else absolute);
  }

  lemma {:induction false} ProjectShowsCandidates(candidates: seq<Visible>, limit: Option<int>, seen: set<string>, shown: seq<Visible>, j: nat)
    requires j < |Project(candidates, limit, seen, shown)| && j >= |shown|
    ensures Project(candidates, limit, seen, shown)[j] in candidates
    decreases |candidates|
  {
    if candidates == [] {
    } else {
      var key, longer := VisibleKey(candidates[0]), shown + [candidates[0]];
      if key == "" || key in seen {
        ProjectShowsCandidates(candidates[1..], limit, seen, shown, j);
      } else {
        ProjectExtends(candidates[1..], limit, seen + {key}, longer);
        if j == |shown| || Reached(limit, |longer|) {
          assert Project(candidates, limit, seen, shown)[|shown|] == longer[|shown|];
        } else {
          ProjectShowsCandidates(candidates[1..], limit, seen + {key}, longer, j);
        }
      }
    }
  }

  /** What is shown are the merged references, each as it is to be shown. */
  lemma ShowsMerged(isSandbox: string -> bool, refs: seq<Ref>, limit: Option<int>, v: Visible)
    requires v in ModelVisible(isSandbox, refs, limit)
    ensures exists p :: p in Dedupe(AsRefs(Payloads(refs))) && ShowsAs(isSandbox, v, p)
  {
    var items := Dedupe(AsRefs(Payloads(refs)));
    var candidates := Candidates(isSandbox, refs);
    var shown := ModelVisible(isSandbox, refs, limit);
    var j :| 0 <= j < |shown| && shown[j] == v;
    ProjectShowsCandidates(candidates, limit, {}, [], j);
    var i :| 0 <= i < |candidates| && candidates[i] == v;
    VisibleIs(isSandbox, items[i]);
    assert items[i] in items;
  }

  function NameOf(v: Visible): string {
    FirstNonEmpty([v.path, v.artifactRef])
  }

  /** Without a limit every merged reference that has a path or an artifact reference to be shown by is
      shown, or another by its name. */
  lemma MergedAreShown(isSandbox: string -> bool, refs: seq<Ref>, p: Payload, v: Visible)
    requires p in Dedupe(AsRefs(Payloads(refs))) && ShowsAs(isSandbox, v, p) && NameOf(v) != ""
    ensures exists u :: u in ModelVisible(isSandbox, refs, None) && NameOf(u) == NameOf(v)
  {
    var items := Dedupe(AsRefs(Payloads(refs)));
    var candidates := Candidates(isSandbox, refs);
    var i :| 0 <= i < |items| && items[i] == p;
    VisibleIs(isSandbox, p);
    assert candidates[i] == v;
    KeyIs(v);
    VisibleKeysDistinct(isSandbox, refs, None);
    var full := ModelVisible(isSandbox, refs, None);
    var j :| 0 <= j < |full| && VisibleKey(full[j]) == VisibleKey(candidates[i]);
    KeyIs(full[j]);
    assert full[j] in full;
  }

  lemma KeyIs(v: Visible)
    ensures VisibleKey(v) == FirstNonEmpty([v.path, v.artifactRef])
  {
    FirstOfTwo(v.path, v.artifactRef);
  }

  // ---- the loops ----

  method DedupeRefs(refs: seq<Ref>) returns (result: seq<Payload>)
    ensures result == Dedupe(refs)
  {
    result := MergeEach(ByArtifact, Normalize, refs);
  }

  method ShowRefs(show: Payload -> Visible, items: seq<Payload>, limit: Option<int>) returns (result: seq<Visible>)
    ensures result == Project(Prepared(show, items), limit, {}, [])
  {
    ghost var candidates := Prepared(show, items);
    result := [];
    var seen: set<string> := {};
    var i := 0;
    while i < |items|
      invariant 0 <= i <= |items|
      invariant Project(candidates[i..], limit, seen, result) == Project(candidates, limit, {}, [])
    {
      var v := show(items[i]);
      assert candidates[i..][0] == v && candidates[i..][1..] == candidates[i + 1..];
      var key := VisibleKey(v);
      i := i + 1;
      if key == "" || key in seen { continue; }
      seen := seen + {key};
      result := result + [v];
      if limit.Some? && |result| >= limit.value { break; }
    }
  }

  method ModelVisibleRefs(isSandbox: string -> bool, refs: seq<Ref>, limit: Option<int>) returns (result: seq<Visible>)
    ensures result == ModelVisible(isSandbox, refs, limit)
  {
    var items := DedupeRefs(AsRefs(Payloads(refs)));
    result := ShowRefs(p => VisibleOf(isSandbox, p), items, limit);
  }
}
