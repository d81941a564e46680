/** The modular-novel graph generator: permissions and memory edges, which two separate branch
    chains compute from a node's write mode, and the graph they are assembled into.

    Node specifications are arbitrary; the tables of collections are parameters. */
module GraphGenerator {
  import opened Common

  const BASELINE := "memory.writing.baseline"
  const MUTABLE := "memory.writing.mutable"
  const MANUSCRIPT := "memory.writing.manuscript"
  const ISSUES := "memory.writing.issue_ledger"
  const ARTIFACTS := "memory.writing.artifact_index"

  const REPOSITORIES: seq<string> := [BASELINE, MUTABLE, MANUSCRIPT, ARTIFACTS, ISSUES]

  datatype NodeSpec = NodeSpec(
    id: string,
    writeMode: string,
    readable: seq<string>,
    artifactPaths: seq<string>,
    revisionStage: string)

  datatype Kind = ReadEdge | CommitEdge | RevisionEdge | BusinessEdge

  datatype Edge = Edge(id: string, source: string, target: string, kind: Kind)

  /** Collections read by a node from a repository, collections a node writes (by table), and the
      collections of the issue ledger, which are not empty. */
  datatype Catalog = Catalog(readBy: (string, string) -> seq<string>, writtenBy: (string, string) -> seq<string>, issues: seq<string>)

  predicate ValidCatalog(cat: Catalog) {
    cat.issues != []
  }

  predicate MutableCommit(mode: string) {
    mode == "chapter_commit" || mode == "volume_commit" || mode == "dynamic_memory_commit" || mode == "finalize_commit"
  }

  predicate ManuscriptCommit(mode: string) {
    mode == "chapter_commit" || mode == "finalize_commit"
  }

  // ---- permissions ----

  /** `list(dict.fromkeys(targets))` */
  function Unique(xs: seq<string>): seq<string> {
    if xs == [] then []
    else
      var front := Unique(xs[..|xs| - 1]);
      if xs[|xs| - 1] in front then front else front + [xs[|xs| - 1]]
  }

  function MemoryTargets(n: NodeSpec): seq<string> {
    if n.writeMode == "baseline_commit" then [BASELINE]
    else if MutableCommit(n.writeMode) then [MUTABLE]
    else []
  }

  function LedgerTargets(n: NodeSpec): seq<string> {
    if ManuscriptCommit(n.writeMode) then [MANUSCRIPT]
    else if n.writeMode == "review_and_issue_ledger" then [ISSUES]
    else []
  }

  function ArtifactTargets(n: NodeSpec): seq<string> {
    if n.artifactPaths != [] then [ARTIFACTS] else []
  }

  function AllowedTargets(n: NodeSpec): seq<string> {
    Unique(MemoryTargets(n) + LedgerTargets(n) + ArtifactTargets(n))
  }

  const GUARDED: seq<string> := [BASELINE, MUTABLE, MANUSCRIPT, ISSUES]

  /** The guarded repositories from `from` on that are not allowed. */
  function Forbidden(n: NodeSpec, from: nat): seq<string>
    requires from <= |GUARDED|
    decreases |GUARDED| - from
  {
    if from == |GUARDED| then []
    else (if GUARDED[from] in AllowedTargets(n) then [] else [GUARDED[from]]) + Forbidden(n, from + 1)
  }

  function ForbiddenTargets(n: NodeSpec): seq<string> {
    Forbidden(n, 0)
  }

  /** `_write_permission_matrix` */
  datatype Permissions = Permissions(
    allowed: seq<string>, forbidden: seq<string>,
    artifactIndex: bool, issueLedger: bool, baseline: bool, mutable: bool, manuscript: bool, candidateArchive: bool)

  function PermissionsOf(n: NodeSpec): Permissions {
    Permissions(
      AllowedTargets(n), ForbiddenTargets(n),
      n.artifactPaths != [],
      n.writeMode == "review_and_issue_ledger",
      n.writeMode == "baseline_commit",
      MutableCommit(n.writeMode),
      ManuscriptCommit(n.writeMode),
      n.writeMode == "candidate_archive_only")
  }

  lemma {:induction false} UniqueHolds(xs: seq<string>, x: string)
    ensures x in Unique(xs) <==> x in xs
    decreases |xs|
  {
    if xs == [] {
    } else {
      UniqueHolds(xs[..|xs| - 1], x);
      assert xs == xs[..|xs| - 1] + [xs[|xs| - 1]];
    }
  }

  lemma {:induction false} UniqueDistinct(xs: seq<string>)
    ensures forall i, j :: 0 <= i < j < |Unique(xs)| ==> Unique(xs)[i] != Unique(xs)[j]
    decreases |xs|
  {
    if xs == [] {
    } else {
      UniqueDistinct(xs[..|xs| - 1]);
    }
  }

  lemma AllowedIff(n: NodeSpec, t: string)
    ensures t in AllowedTargets(n) <==> t in MemoryTargets(n) || t in LedgerTargets(n) || t in ArtifactTargets(n)
  {
    UniqueHolds(MemoryTargets(n) + LedgerTargets(n) + ArtifactTargets(n), t);
  }

  /** Who may write where: the write modes that allow each repository. */
  lemma AllowedModes(n: NodeSpec, t: string)
    ensures t in AllowedTargets(n) <==>
              || (t == BASELINE && n.writeMode == "baseline_commit")
              || (t == MUTABLE && n.writeMode in {"chapter_commit", "volume_commit", "dynamic_memory_commit", "finalize_commit"})
              || (t == MANUSCRIPT && n.writeMode in {"chapter_commit", "finalize_commit"})
              || (t == ISSUES && n.writeMode == "review_and_issue_ledger")
              || (t == ARTIFACTS && n.artifactPaths != [])
  {
    AllowedIff(n, t);
    var mode := n.writeMode;
    assert mode == "baseline_commit" ==> mode[0] == 'b';
    assert mode == "review_and_issue_ledger" ==> mode[0] == 'r';
    assert mode == "chapter_commit" ==> mode[0] == 'c';
    assert mode == "volume_commit" ==> mode[0] == 'v';
    assert mode == "dynamic_memory_commit" ==> mode[0] == 'd';
    assert mode == "finalize_commit" ==> mode[0] == 'f';
  }

  lemma {:induction false} ForbiddenIff(n: NodeSpec, from: nat, t: string)
    requires from <= |GUARDED|
    ensures t in Forbidden(n, from) <==> t in GUARDED[from..] && t !in AllowedTargets(n)
    decreases |GUARDED| - from
  {
    if from == |GUARDED| {
    } else {
      ForbiddenIff(n, from + 1, t);
      assert GUARDED[from..] == [GUARDED[from]] + GUARDED[from + 1..];
    }
  }

  /** Every guarded repository is allowed or forbidden, never both; the artifact index is never
      forbidden. */
  lemma AllowedAndForbiddenPartition(n: NodeSpec, t: string)
    ensures !(t in AllowedTargets(n) && t in ForbiddenTargets(n))
    ensures t in GUARDED <==> t in ForbiddenTargets(n) || (t in AllowedTargets(n) && t != ARTIFACTS)
  {
    ForbiddenIff(n, 0, t);
    assert GUARDED[0..] == GUARDED;
    AllowedIff(n, t);
    assert GUARDED[0] == BASELINE && GUARDED[1] == MUTABLE && GUARDED[2] == MANUSCRIPT && GUARDED[3] == ISSUES;
    RepositoriesDiffer();
  }

  lemma RepositoriesDiffer()
    ensures BASELINE != MUTABLE && BASELINE != MANUSCRIPT && BASELINE != ISSUES && BASELINE != ARTIFACTS
    ensures MUTABLE != MANUSCRIPT && MUTABLE != ISSUES && MUTABLE != ARTIFACTS
    ensures MANUSCRIPT != ISSUES && MANUSCRIPT != ARTIFACTS && ISSUES != ARTIFACTS
  {
    assert BASELINE[15] == 'b' && MUTABLE[15] == 'm' && MANUSCRIPT[15] == 'm' && ISSUES[15] == 'i' && ARTIFACTS[15] == 'a';
    assert MUTABLE[16] == 'u' && MANUSCRIPT[16] == 'a';
  }

  /** Each permission flag says that its repository is an allowed target; a candidate archive may
      write to no guarded repository. */
  lemma FlagsAgree(n: NodeSpec)
    ensures var p := PermissionsOf(n);
            && (p.artifactIndex <==> ARTIFACTS in p.allowed) && (p.issueLedger <==> ISSUES in p.allowed)
            && (p.baseline <==> BASELINE in p.allowed) && (p.mutable <==> MUTABLE in p.allowed)
            && (p.manuscript <==> MANUSCRIPT in p.allowed)
            && (p.candidateArchive <==> n.writeMode == "candidate_archive_only")
            && (p.candidateArchive ==> !p.baseline && !p.mutable && !p.manuscript && !p.issueLedger)
  {
    RepositoriesDiffer();
    AllowedIff(n, ARTIFACTS);
    AllowedIff(n, ISSUES);
    AllowedIff(n, BASELINE);
    AllowedIff(n, MUTABLE);
    AllowedIff(n, MANUSCRIPT);
  }

  // ---- memory edges ----

  function CollectionEdges(prefix: string, suffix: string, source: string, target: string, kind: Kind, collections: seq<string>): (r: seq<Edge>)
    ensures |r| == |collections|
    ensures forall i :: 0 <= i < |r| ==> r[i].source == source && r[i].target == target && r[i].kind == kind
  {
    seq(|collections|, i requires 0 <= i < |collections| => Edge(prefix + collections[i] + suffix, source, target, kind))
  }

  /** `_write_collections_for_node`: the table's, or one default. */
  function WriteCollections(cat: Catalog, nodeId: string, repo: string): (r: seq<string>)
    ensures r != []
  {
    if cat.writtenBy(nodeId, repo) != [] then cat.writtenBy(nodeId, repo)
    else if repo == BASELINE then ["frozen_facts"]
    else if repo == MUTABLE then ["continuity_notes"]
    else ["prose_refs"]
  }

  function ReadEdges(cat: Catalog, n: NodeSpec, repos: seq<string>): seq<Edge> {
    if repos == [] then []
    else
      var repo := repos[|repos| - 1];
      ReadEdges(cat, n, repos[..|repos| - 1])
      + CollectionEdges("edge.memory_read." + repo + ".", "." + n.id, repo, n.id, ReadEdge, cat.readBy(n.id, repo))
  }

  function MemoryCommits(cat: Catalog, n: NodeSpec): seq<Edge> {
    if n.writeMode == "baseline_commit"
    then CollectionEdges("edge.memory_commit." + n.id + ".baseline.", "", n.id, BASELINE, CommitEdge, WriteCollections(cat, n.id, BASELINE))
    else if MutableCommit(n.writeMode)
    then CollectionEdges("edge.memory_commit." + n.id + ".mutable.", "", n.id, MUTABLE, CommitEdge, WriteCollections(cat, n.id, MUTABLE))
    else []
  }

  function LedgerCommits(cat: Catalog, n: NodeSpec): seq<Edge> {
    if ManuscriptCommit(n.writeMode)
    then CollectionEdges("edge.memory_commit." + n.id + ".manuscript.", "", n.id, MANUSCRIPT, CommitEdge, WriteCollections(cat, n.id, MANUSCRIPT))
    else if n.writeMode == "review_and_issue_ledger"
    then CollectionEdges("edge.issue_commit." + n.id + ".", "", n.id, ISSUES, CommitEdge, cat.issues)
    else []
  }

  function ArtifactCommits(n: NodeSpec): seq<Edge> {
    if n.artifactPaths != [] then [Edge("edge.artifact_index." + n.id, n.id, ARTIFACTS, CommitEdge)] else []
  }

  function NodeEdges(cat: Catalog, n: NodeSpec): seq<Edge> {
    ReadEdges(cat, n, n.readable) + MemoryCommits(cat, n) + LedgerCommits(cat, n) + ArtifactCommits(n)
  }

  function AllNodeEdges(cat: Catalog, nodes: seq<NodeSpec>): seq<Edge> {
    if nodes == [] then [] else AllNodeEdges(cat, nodes[..|nodes| - 1]) + NodeEdges(cat, nodes[|nodes| - 1])
  }

  predicate IsNodeId(nodes: seq<NodeSpec>, id: string) {
    exists i :: 0 <= i < |nodes| && nodes[i].id == id
  }

  predicate KeptEdge(nodes: seq<NodeSpec>, e: Edge) {
    IsNodeId(nodes, e.source) || IsNodeId(nodes, e.target) || StartsWith(e.source, "memory.") || StartsWith(e.target, "memory.")
  }

  function KeptEdges(nodes: seq<NodeSpec>, edges: seq<Edge>): seq<Edge> {
    if edges == [] then []
    else KeptEdges(nodes, edges[..|edges| - 1]) + (if KeptEdge(nodes, edges[|edges| - 1]) then [edges[|edges| - 1]] else [])
  }

  /** `_memory_edges_for_nodes` */
  function MemoryEdges(cat: Catalog, nodes: seq<NodeSpec>): seq<Edge> {
    KeptEdges(nodes, AllNodeEdges(cat, nodes))
  }

  // ---- generated writes are granted writes ----

  predicate HasCommit(edges: seq<Edge>, source: string, target: string) {
    exists i :: 0 <= i < |edges| && edges[i].kind.CommitEdge? && edges[i].source == source && edges[i].target == target
  }

  lemma HasCommitJoin(a: seq<Edge>, b: seq<Edge>, source: string, target: string)
    ensures HasCommit(a + b, source, target) <==> HasCommit(a, source, target) || HasCommit(b, source, target)
  {
    if HasCommit(a, source, target) {
      var i :| 0 <= i < |a| && a[i].kind.CommitEdge? && a[i].source == source && a[i].target == target;
      assert (a + b)[i] == a[i];
    }
    if HasCommit(b, source, target) {
      var i :| 0 <= i < |b| && b[i].kind.CommitEdge? && b[i].source == source && b[i].target == target;
      assert (a + b)[|a| + i] == b[i];
    }
  }

  lemma {:induction false} ReadsAreReads(cat: Catalog, n: NodeSpec, repos: seq<string>)
    ensures forall i :: 0 <= i < |ReadEdges(cat, n, repos)| ==>
              var e := ReadEdges(cat, n, repos)[i]; e.kind.ReadEdge? && e.target == n.id && e.source in repos && cat.readBy(n.id, e.source) != []
    decreases |repos|
  {
    if repos == [] {
    } else {
      ReadsAreReads(cat, n, repos[..|repos| - 1]);
      assert repos == repos[..|repos| - 1] + [repos[|repos| - 1]];
    }
  }

  lemma MemoryCommitsGranted(cat: Catalog, n: NodeSpec, id: string, t: string)
    ensures HasCommit(MemoryCommits(cat, n), id, t) <==> id == n.id && t in MemoryTargets(n)
  {
    if id == n.id && t in MemoryTargets(n) { assert MemoryCommits(cat, n)[0].target == t; }
  }

  lemma LedgerCommitsGranted(cat: Catalog, n: NodeSpec, id: string, t: string)
    requires ValidCatalog(cat)
    ensures HasCommit(LedgerCommits(cat, n), id, t) <==> id == n.id && t in LedgerTargets(n)
  {
    if id == n.id && t in LedgerTargets(n) { assert LedgerCommits(cat, n)[0].target == t; }
  }

  lemma ArtifactCommitsGranted(n: NodeSpec, id: string, t: string)
    ensures HasCommit(ArtifactCommits(n), id, t) <==> id == n.id && t in ArtifactTargets(n)
  {
    if id == n.id && t in ArtifactTargets(n) { assert ArtifactCommits(n)[0].target == t; }
  }

  lemma NodeCommitsGranted(cat: Catalog, n: NodeSpec, id: string, t: string)
    requires ValidCatalog(cat)
    ensures HasCommit(NodeEdges(cat, n), id, t) <==> id == n.id && t in AllowedTargets(n)
  {
    var fromReads := ReadEdges(cat, n, n.readable);
    ReadsAreReads(cat, n, n.readable);
    assert !HasCommit(fromReads, id, t);
    HasCommitJoin(fromReads, MemoryCommits(cat, n), id, t);
    HasCommitJoin(fromReads + MemoryCommits(cat, n), LedgerCommits(cat, n), id, t);
    HasCommitJoin(fromReads + MemoryCommits(cat, n) + LedgerCommits(cat, n), ArtifactCommits(n), id, t);
    MemoryCommitsGranted(cat, n, id, t);
    LedgerCommitsGranted(cat, n, id, t);
    ArtifactCommitsGranted(n, id, t);
    AllowedIff(n, t);
  }

  /** May some node with this id write to the target? */
  predicate Granted(nodes: seq<NodeSpec>, id: string, t: string) {
    nodes != [] &&
    (Granted(nodes[..|nodes| - 1], id, t) || (nodes[|nodes| - 1].id == id && t in AllowedTargets(nodes[|nodes| - 1])))
  }

  lemma {:induction false} AllCommitsGranted(cat: Catalog, nodes: seq<NodeSpec>, id: string, t: string)
    requires ValidCatalog(cat)
    ensures HasCommit(AllNodeEdges(cat, nodes), id, t) <==> Granted(nodes, id, t)
    decreases |nodes|
  {
    if nodes == [] {
    } else {
      var front, n := nodes[..|nodes| - 1], nodes[|nodes| - 1];
      AllCommitsGranted(cat, front, id, t);
      NodeCommitsGranted(cat, n, id, t);
      HasCommitJoin(AllNodeEdges(cat, front), NodeEdges(cat, n), id, t);
    }
  }

  // ---- where edges come from ----

  /** One edge for each of the collections, named after it. */
  predicate OneEach(prefix: string, suffix: string, source: string, target: string, kind: Kind, collections: seq<string>, e: Edge) {
    exists c :: c in collections && e == Edge(prefix + c + suffix, source, target, kind)
  }

  predicate CommitsTo(cat: Catalog, n: NodeSpec, name: string, target: string, fallback: string, e: Edge) {
    OneEach("edge.memory_commit." + n.id + name, "", n.id, target, CommitEdge,
            if cat.writtenBy(n.id, target) != [] then cat.writtenBy(n.id, target) else [fallback], e)
  }

  /** An edge of the node: it reads a collection of a readable repository, or commits to one of a
      repository that its write mode commits to, or to the artifact index. */
  predicate EdgeOf(cat: Catalog, n: NodeSpec, e: Edge) {
    || (exists r :: r in n.readable && OneEach("edge.memory_read." + r + ".", "." + n.id, r, n.id, ReadEdge, cat.readBy(n.id, r), e))
    || (n.writeMode == "baseline_commit" && CommitsTo(cat, n, ".baseline.", BASELINE, "frozen_facts", e))
    || (n.writeMode in {"chapter_commit", "volume_commit", "dynamic_memory_commit", "finalize_commit"}
        && CommitsTo(cat, n, ".mutable.", MUTABLE, "continuity_notes", e))
    || (n.writeMode in {"chapter_commit", "finalize_commit"} && CommitsTo(cat, n, ".manuscript.", MANUSCRIPT, "prose_refs", e))
    || (n.writeMode == "review_and_issue_ledger" && OneEach("edge.issue_commit." + n.id + ".", "", n.id, ISSUES, CommitEdge, cat.issues, e))
    || (n.artifactPaths != [] && e == Edge("edge.artifact_index." + n.id, n.id, ARTIFACTS, CommitEdge))
  }

  lemma CollectionEdgesIff(prefix: string, suffix: string, source: string, target: string, kind: Kind, collections: seq<string>, e: Edge)
    ensures e in CollectionEdges(prefix, suffix, source, target, kind, collections) <==>
              OneEach(prefix, suffix, source, target, kind, collections, e)
  {
    var edges := CollectionEdges(prefix, suffix, source, target, kind, collections);
    if OneEach(prefix, suffix, source, target, kind, collections, e) {
      var c :| c in collections && e == Edge(prefix + c + suffix, source, target, kind);
      var i :| 0 <= i < |collections| && collections[i] == c;
      assert edges[i] == e;
    }
    if e in edges {
      var i :| 0 <= i < |edges| && edges[i] == e;
      assert collections[i] in collections;
    }
  }

  lemma {:induction false} ReadEdgesIff(cat: Catalog, n: NodeSpec, repos: seq<string>, e: Edge)
    ensures e in ReadEdges(cat, n, repos) <==>
              exists r :: r in repos && OneEach("edge.memory_read." + r + ".", "." + n.id, r, n.id, ReadEdge, cat.readBy(n.id, r), e)
    decreases |repos|
  {
    if repos == [] {
    } else {
      var front, repo := repos[..|repos| - 1], repos[|repos| - 1];
      ReadEdgesIff(cat, n, front, e);
      CollectionEdgesIff("edge.memory_read." + repo + ".", "." + n.id, repo, n.id, ReadEdge, cat.readBy(n.id, repo), e);
      assert repos == front + [repo];
    }
  }

  lemma MemoryCommitsIff(cat: Catalog, n: NodeSpec, e: Edge)
    ensures e in MemoryCommits(cat, n) <==>
              || (n.writeMode == "baseline_commit" && CommitsTo(cat, n, ".baseline.", BASELINE, "frozen_facts", e))
              || (n.writeMode in {"chapter_commit", "volume_commit", "dynamic_memory_commit", "finalize_commit"}
                  && CommitsTo(cat, n, ".mutable.", MUTABLE, "continuity_notes", e))
  {
    RepositoriesDiffer();
    assert n.writeMode == "baseline_commit" ==> n.writeMode[0] == 'b';
    var prefix := "edge.memory_commit." + n.id;
    CollectionEdgesIff(prefix + ".baseline.", "", n.id, BASELINE, CommitEdge, WriteCollections(cat, n.id, BASELINE), e);
    CollectionEdgesIff(prefix + ".mutable.", "", n.id, MUTABLE, CommitEdge, WriteCollections(cat, n.id, MUTABLE), e);
  }

  lemma LedgerCommitsIff(cat: Catalog, n: NodeSpec, e: Edge)
    ensures e in LedgerCommits(cat, n) <==>
              || (n.writeMode in {"chapter_commit", "finalize_commit"} && CommitsTo(cat, n, ".manuscript.", MANUSCRIPT, "prose_refs", e))
              || (n.writeMode == "review_and_issue_ledger"
                  && OneEach("edge.issue_commit." + n.id + ".", "", n.id, ISSUES, CommitEdge, cat.issues, e))
  {
    RepositoriesDiffer();
    assert n.writeMode == "review_and_issue_ledger" ==> n.writeMode[0] == 'r';
    CollectionEdgesIff("edge.memory_commit." + n.id + ".manuscript.", "", n.id, MANUSCRIPT, CommitEdge, WriteCollections(cat, n.id, MANUSCRIPT), e);
    CollectionEdgesIff("edge.issue_commit." + n.id + ".", "", n.id, ISSUES, CommitEdge, cat.issues, e);
  }

  lemma NodeEdgeIff(cat: Catalog, n: NodeSpec, e: Edge)
    ensures e in NodeEdges(cat, n) <==> EdgeOf(cat, n, e)
  {
    ReadEdgesIff(cat, n, n.readable, e);
    MemoryCommitsIff(cat, n, e);
    LedgerCommitsIff(cat, n, e);
  }

  predicate EdgeOfOne(cat: Catalog, nodes: seq<NodeSpec>, e: Edge) {
    exists n :: n in nodes && EdgeOf(cat, n, e)
  }

  lemma EdgeOfOneMore(cat: Catalog, front: seq<NodeSpec>, n: NodeSpec, e: Edge)
    ensures EdgeOfOne(cat, front + [n], e) <==> EdgeOfOne(cat, front, e) || EdgeOf(cat, n, e)
  {
    if EdgeOf(cat, n, e) { assert n in front + [n]; }
    if m :| m in front && EdgeOf(cat, m, e) { assert m in front + [n]; }
  }

  lemma {:induction false} AllEdgesIff(cat: Catalog, nodes: seq<NodeSpec>, e: Edge)
    ensures e in AllNodeEdges(cat, nodes) <==> EdgeOfOne(cat, nodes, e)
    decreases |nodes|
  {
    if nodes == [] {
    } else {
      var front, n := nodes[..|nodes| - 1], nodes[|nodes| - 1];
      AllEdgesIff(cat, front, e);
      NodeEdgeIff(cat, n, e);
      EdgeOfOneMore(cat, front, n, e);
      assert nodes == front + [n];
    }
  }

  /** The generated memory edges, by name: one for each collection that a node reads from a readable
      repository, or writes to a repository its write mode commits to, and one to the artifact index
      for each node with artifacts; and no others. */
  lemma MemoryEdgeIff(cat: Catalog, nodes: seq<NodeSpec>, e: Edge)
    ensures e in MemoryEdges(cat, nodes) <==> EdgeOfOne(cat, nodes, e)
  {
    FilterDropsNothing(cat, nodes);
    AllEdgesIff(cat, nodes, e);
  }

  /** An edge of a node starts or ends at it; a read edge comes from a readable repository with
      something to read, a commit edge leads to an allowed target. */
  lemma EdgeOfEnds(cat: Catalog, n: NodeSpec, e: Edge)
    requires EdgeOf(cat, n, e)
    ensures e.kind.ReadEdge? || e.kind.CommitEdge?
    ensures e.kind.ReadEdge? ==> e.target == n.id && e.source in n.readable && cat.readBy(n.id, e.source) != []
    ensures e.kind.CommitEdge? ==> e.source == n.id && e.target in AllowedTargets(n)
  {
    AllowedModes(n, e.target);
  }

  /** The final filter of `_memory_edges_for_nodes` drops nothing. */
  lemma FilterDropsNothing(cat: Catalog, nodes: seq<NodeSpec>)
    ensures MemoryEdges(cat, nodes) == AllNodeEdges(cat, nodes)
  {
    var edges := AllNodeEdges(cat, nodes);
    forall i | 0 <= i < |edges| ensures KeptEdge(nodes, edges[i]) {
      AllEdgesIff(cat, nodes, edges[i]);
      var n :| n in nodes && EdgeOf(cat, n, edges[i]);
      EdgeOfEnds(cat, n, edges[i]);
    }
    KeptAll(nodes, edges);
  }

  lemma {:induction false} KeptAll(nodes: seq<NodeSpec>, edges: seq<Edge>)
    requires forall i :: 0 <= i < |edges| ==> KeptEdge(nodes, edges[i])
    ensures KeptEdges(nodes, edges) == edges
    decreases |edges|
  {
    if edges == [] {
    } else {
      KeptAll(nodes, edges[..|edges| - 1]);
      assert edges == edges[..|edges| - 1] + [edges[|edges| - 1]];
    }
  }

  /** For every tuple of node specifications: the generated commit edges from an id lead exactly to
      the allowed write targets of the nodes with that id. */
  lemma GeneratedWritesAreGrantedWrites(cat: Catalog, nodes: seq<NodeSpec>, id: string, t: string)
    requires ValidCatalog(cat)
    ensures HasCommit(MemoryEdges(cat, nodes), id, t) <==> Granted(nodes, id, t)
  {
    FilterDropsNothing(cat, nodes);
    AllCommitsGranted(cat, nodes, id, t);
  }

  // ---- the emitted graph ----

  predicate Wants(n: NodeSpec, repo: string) {
    repo in n.readable || repo in AllowedTargets(n)
  }

  /** `_repository_needed` */
  predicate RepositoryNeeded(nodes: seq<NodeSpec>, repo: string) {
    exists i :: 0 <= i < |nodes| && Wants(nodes[i], repo)
  }

  predicate Emitted(nodes: seq<NodeSpec>, id: string) {
    IsNodeId(nodes, id) || (id in REPOSITORIES && RepositoryNeeded(nodes, id))
  }

  /** `_revision_edges_for_nodes` */
  function RevisionEdges(nodes: seq<NodeSpec>, upTo: nat): seq<Edge>
    requires upTo <= |nodes|
  {
    if upTo == 0 then []
    else
      var n := nodes[upTo - 1];
      RevisionEdges(nodes, upTo - 1) +
      if n.revisionStage == "" || !IsNodeId(nodes, n.revisionStage) then []
      else [Edge("edge.revision." + n.id + "." + n.revisionStage, n.id, n.revisionStage, RevisionEdge)]
  }

  function GraphEdges(cat: Catalog, nodes: seq<NodeSpec>, business: seq<Edge>): seq<Edge> {
    business + MemoryEdges(cat, nodes) + RevisionEdges(nodes, |nodes|)
  }

  predicate EndsEmitted(nodes: seq<NodeSpec>, e: Edge) {
    Emitted(nodes, e.source) && Emitted(nodes, e.target)
  }

  predicate AllEndsEmitted(nodes: seq<NodeSpec>, edges: seq<Edge>) {
    forall i :: 0 <= i < |edges| ==> EndsEmitted(nodes, edges[i])
  }

  predicate KnownRepository(nodes: seq<NodeSpec>, repo: string) {
    repo in REPOSITORIES || IsNodeId(nodes, repo)
  }

  /** Every repository a node reads something from is known. */
  predicate ReadsKnown(cat: Catalog, nodes: seq<NodeSpec>) {
    forall j, r :: 0 <= j < |nodes| && 0 <= r < |nodes[j].readable| && cat.readBy(nodes[j].id, nodes[j].readable[r]) != [] ==>
      KnownRepository(nodes, nodes[j].readable[r])
  }

  lemma EdgeEmitted(cat: Catalog, nodes: seq<NodeSpec>, n: NodeSpec, e: Edge)
    requires n in nodes && EdgeOf(cat, n, e)
    ensures e.kind.CommitEdge? ==> EndsEmitted(nodes, e)
    ensures e.kind.ReadEdge? ==> (EndsEmitted(nodes, e) <==> KnownRepository(nodes, e.source))
  {
    var j :| 0 <= j < |nodes| && nodes[j] == n;
    assert IsNodeId(nodes, nodes[j].id);
    EdgeOfEnds(cat, n, e);
    if e.kind.CommitEdge? {
      AllowedModes(n, e.target);
      assert Wants(nodes[j], e.target) && e.target in REPOSITORIES;
    } else {
      assert Wants(nodes[j], e.source);
    }
  }

  lemma ReadEdgePresent(cat: Catalog, nodes: seq<NodeSpec>, n: NodeSpec, repo: string) returns (e: Edge)
    requires n in nodes && repo in n.readable && cat.readBy(n.id, repo) != []
    ensures e in AllNodeEdges(cat, nodes) && e.source == repo
  {
    var c := cat.readBy(n.id, repo)[0];
    e := Edge("edge.memory_read." + repo + "." + c + ("." + n.id), repo, n.id, ReadEdge);
    assert c in cat.readBy(n.id, repo);
    assert OneEach("edge.memory_read." + repo + ".", "." + n.id, repo, n.id, ReadEdge, cat.readBy(n.id, repo), e);
    AllEdgesIff(cat, nodes, e);
  }

  lemma ReadEdgesEmittedIff(cat: Catalog, nodes: seq<NodeSpec>)
    ensures AllEndsEmitted(nodes, AllNodeEdges(cat, nodes)) <==> ReadsKnown(cat, nodes)
  {
    var edges := AllNodeEdges(cat, nodes);
    if AllEndsEmitted(nodes, edges) {
      forall j, r | 0 <= j < |nodes| && 0 <= r < |nodes[j].readable| && cat.readBy(nodes[j].id, nodes[j].readable[r]) != []
        ensures KnownRepository(nodes, nodes[j].readable[r])
      {
        var e := ReadEdgePresent(cat, nodes, nodes[j], nodes[j].readable[r]);
        var i :| 0 <= i < |edges| && edges[i] == e;
        assert EndsEmitted(nodes, edges[i]);
      }
    }
    if ReadsKnown(cat, nodes) {
      forall i | 0 <= i < |edges| ensures EndsEmitted(nodes, edges[i]) {
        AllEdgesIff(cat, nodes, edges[i]);
        var n :| n in nodes && EdgeOf(cat, n, edges[i]);
        EdgeOfEnds(cat, n, edges[i]);
        EdgeEmitted(cat, nodes, n, edges[i]);
      }
    }
  }

  lemma {:induction false} RevisionsEmitted(nodes: seq<NodeSpec>, upTo: nat)
    requires upTo <= |nodes|
    ensures AllEndsEmitted(nodes, RevisionEdges(nodes, upTo))
    decreases upTo
  {
    if upTo == 0 {
    } else {
      RevisionsEmitted(nodes, upTo - 1);
      assert IsNodeId(nodes, nodes[upTo - 1].id);
    }
  }

  predicate RevisionOf(nodes: seq<NodeSpec>, n: NodeSpec, e: Edge) {
    && n.revisionStage != "" && IsNodeId(nodes, n.revisionStage)
    && e == Edge("edge.revision." + n.id + "." + n.revisionStage, n.id, n.revisionStage, RevisionEdge)
  }

  /** A revision edge leads from a node to the stage that revises it, for each node whose stage is
      named and is a node; and there are no others. */
  lemma {:induction false} RevisionEdgeIff(nodes: seq<NodeSpec>, upTo: nat, e: Edge)
    requires upTo <= |nodes|
    ensures e in RevisionEdges(nodes, upTo) <==> exists n :: n in nodes[..upTo] && RevisionOf(nodes, n, e)
    decreases upTo
  {
    if upTo == 0 {
    } else {
      RevisionEdgeIff(nodes, upTo - 1, e);
      var front, n := nodes[..upTo - 1], nodes[upTo - 1];
      assert nodes[..upTo] == front + [n];
      if RevisionOf(nodes, n, e) { assert n in nodes[..upTo]; }
    }
  }

  lemma AllEndsJoin(nodes: seq<NodeSpec>, a: seq<Edge>, b: seq<Edge>)
    ensures AllEndsEmitted(nodes, a + b) <==> AllEndsEmitted(nodes, a) && AllEndsEmitted(nodes, b)
  {
    if AllEndsEmitted(nodes, a + b) {
      assert forall i :: 0 <= i < |a| ==> a[i] == (a + b)[i];
      assert forall i :: 0 <= i < |b| ==> b[i] == (a + b)[|a| + i];
    }
  }

  /** The emitted graph is closed, every end of every edge one of its nodes, exactly when the
      business edges are well formed and every repository read from is known. */
  lemma GraphClosedIff(cat: Catalog, nodes: seq<NodeSpec>, business: seq<Edge>)
    ensures AllEndsEmitted(nodes, GraphEdges(cat, nodes, business)) <==>
              AllEndsEmitted(nodes, business) && ReadsKnown(cat, nodes)
  {
    FilterDropsNothing(cat, nodes);
    ReadEdgesEmittedIff(cat, nodes);
    RevisionsEmitted(nodes, |nodes|);
    AllEndsJoin(nodes, business, MemoryEdges(cat, nodes));
    AllEndsJoin(nodes, business + MemoryEdges(cat, nodes), RevisionEdges(nodes, |nodes|));
  }

  // ---- the loops ----

  method AllowedWriteTargets(n: NodeSpec) returns (targets: seq<string>)
    ensures targets == AllowedTargets(n)
    ensures forall i, j :: 0 <= i < j < |targets| ==> targets[i] != targets[j]
  {
    targets := [];
    if n.writeMode == "baseline_commit" {
      targets := targets + [BASELINE];
    } else if MutableCommit(n.writeMode) {
      targets := targets + [MUTABLE];
    }
    if ManuscriptCommit(n.writeMode) {
      targets := targets + [MANUSCRIPT];
    } else if n.writeMode == "review_and_issue_ledger" {
      targets := targets + [ISSUES];
    }
    if n.artifactPaths != [] { targets := targets + [ARTIFACTS]; }
    assert targets == MemoryTargets(n) + LedgerTargets(n) + ArtifactTargets(n);
    UniqueDistinct(targets);
    targets := Unique(targets);
  }

  method ReadEdgesOf(cat: Catalog, n: NodeSpec) returns (edges: seq<Edge>)
    ensures edges == ReadEdges(cat, n, n.readable)
  {
    edges := [];
    for r := 0 to |n.readable|
      invariant edges == ReadEdges(cat, n, n.readable[..r])
    {
      var repo := n.readable[r];
      var collections := cat.readBy(n.id, repo);
      ghost var before := edges;
      ghost var added := CollectionEdges("edge.memory_read." + repo + ".", "." + n.id, repo, n.id, ReadEdge, collections);
      for c := 0 to |collections|
        invariant edges == before + added[..c]
      {
        var prefix := "edge.memory_read." + repo + ".";
        assert prefix + collections[c] + "." + n.id == prefix + collections[c] + ("." + n.id);
        edges := edges + [Edge(prefix + collections[c] + "." + n.id, repo, n.id, ReadEdge)];
        assert added[..c + 1] == added[..c] + [added[c]];
      }
      assert added[..|collections|] == added;
      assert n.readable[..r + 1][..r] == n.readable[..r];
    }
    assert n.readable[..|n.readable|] == n.readable;
  }

  method MemoryEdgesFor(cat: Catalog, nodes: seq<NodeSpec>) returns (edges: seq<Edge>)
    ensures edges == MemoryEdges(cat, nodes)
  {
    edges := [];
    for j := 0 to |nodes|
      invariant edges == AllNodeEdges(cat, nodes[..j])
    {
      var n := nodes[j];
      var readEdges := ReadEdgesOf(cat, n);
      edges := edges + (readEdges + MemoryCommits(cat, n) + LedgerCommits(cat, n) + ArtifactCommits(n));
      assert nodes[..j + 1][..j] == nodes[..j];
    }
    assert nodes[..|nodes|] == nodes;
    edges := KeptEdges(nodes, edges);
  }

  method RevisionEdgesFor(nodes: seq<NodeSpec>) returns (edges: seq<Edge>)
    ensures edges == RevisionEdges(nodes, |nodes|)
  {
    edges := [];
    for j := 0 to |nodes|
      invariant edges == RevisionEdges(nodes, j)
    {
      var n := nodes[j];
      if n.revisionStage == "" || !IsNodeId(nodes, n.revisionStage) { continue; }
      edges := edges + [Edge("edge.revision." + n.id + "." + n.revisionStage, n.id, n.revisionStage, RevisionEdge)];
    }
  }
}
