/** The modules a source imports, directly or through local files, and the local
    files among them: the worklist of the environment fingerprint. */
module ImportClosure {
  import opened Wrappers

  /** A source line: the modules it imports, if it is an import line. */
  datatype Line = Import(modules: seq<string>) | Other

  type Source = seq<Line>

  /** Which module names have a local file, what the files contain, and the
      fingerprint of a text. */
  datatype Project = Project(path: string -> Option<string>, files: map<string, Source>, fingerprint: Source -> int) {
    ghost predicate Valid() { forall m :: path(m).Some? ==> path(m).value in files }
  }

  // ---- the imports of one source ----

  /** All modules named on import lines, in order, with repetitions. */
  function Named(s: Source): seq<string> {
    if s == [] then [] else Named(s[..|s| - 1]) + if s[|s| - 1].Import? then s[|s| - 1].modules else []
  }

  /** First occurrences only. */
  function Dedupe(ms: seq<string>): (r: seq<string>)
    ensures forall m :: m in r <==> m in ms
    ensures forall i, j | 0 <= i < j < |r| :: r[i] != r[j]
  {
    if ms == [] then []
    else
      var front, m := Dedupe(ms[..|ms| - 1]), ms[|ms| - 1];
      assert ms == ms[..|ms| - 1] + [m];
      if m in front then front else front + [m]
  }

  lemma NamedStep(s: Source, i: nat)
    requires i < |s|
    ensures Named(s[..i + 1]) == Named(s[..i]) + if s[i].Import? then s[i].modules else []
  {
    assert s[..i + 1][..i] == s[..i];
  }

  lemma DedupeStep(before: seq<string>, ms: seq<string>, j: nat)
    requires j < |ms|
    ensures var r := Dedupe(before + ms[..j]);
            Dedupe(before + ms[..j + 1]) == if ms[j] in r then r else r + [ms[j]]
  {
    assert (before + ms[..j + 1])[..|before| + j] == before + ms[..j];
  }

  lemma {:induction false} NamedIs(s: Source, m: string)
    ensures m in Named(s) <==> exists i | 0 <= i < |s| :: s[i].Import? && m in s[i].modules
  {
    if s != [] {
      NamedIs(s[..|s| - 1], m);
    }
  }

  /** The `p`-th name stands on line `i` at place `k`, and the names before it are those
      of the earlier lines and of the earlier places. */
  lemma {:induction false} PlaceOf(s: Source, p: nat) returns (i: nat, k: nat)
    requires p < |Named(s)|
    ensures i < |s| && s[i].Import? && k < |s[i].modules| && Named(s)[..p + 1] == Named(s[..i]) + s[i].modules[..k + 1]
  {
    var n := |s| - 1;
    var before := Named(s[..n]);
    if p < |before| {
      i, k := PlaceOf(s[..n], p);
      assert s[..n][..i] == s[..i] && Named(s)[..p + 1] == before[..p + 1];
    } else {
      i, k := n, p - |before|;
      assert Named(s) == before + s[n].modules;
    }
  }

  lemma {:induction false} DedupeKeepsOrder(ms: seq<string>, a: nat, b: nat) returns (p: nat)
    requires a < b < |Dedupe(ms)|
    ensures p < |ms| && ms[p] == Dedupe(ms)[a] && Dedupe(ms)[b] !in ms[..p + 1]
  {
    var n := |ms| - 1;
    var front := Dedupe(ms[..n]);
    if b < |front| {
      p := DedupeKeepsOrder(ms[..n], a, b);
      assert ms[..n][..p + 1] == ms[..p + 1];
    } else {
      assert front[a] in ms[..n];
      p :| 0 <= p < n && ms[p] == front[a];
      assert forall x | x in ms[..p + 1] :: x in ms[..n];
    }
  }

  /** The modules of a source come in the order of their first mention: one that comes
      earlier is mentioned at a place by which the other is not. */
  lemma FirstMentionDecides(s: Source, a: nat, b: nat) returns (i: nat, k: nat)
    requires a < b < |Dedupe(Named(s))|
    ensures i < |s| && s[i].Import? && k < |s[i].modules| && s[i].modules[k] == Dedupe(Named(s))[a]
    ensures var m := Dedupe(Named(s))[b];
            (forall h | 0 <= h < i && s[h].Import? :: m !in s[h].modules) && m !in s[i].modules[..k + 1]
  {
    var p := DedupeKeepsOrder(Named(s), a, b);
    i, k := PlaceOf(s, p);
    NamedIs(s[..i], Dedupe(Named(s))[b]);
    assert Named(s)[..p + 1][p] == (Named(s[..i]) + s[i].modules[..k + 1])[p];
  }

  method Imports(s: Source) returns (modules: seq<string>)
    ensures modules == Dedupe(Named(s))
  {
    modules := [];
    for i := 0 to |s|
      invariant modules == Dedupe(Named(s[..i]))
    {
      NamedStep(s, i);
      ghost var before := Named(s[..i]);
      if s[i].Other? {
        assert before + [] == before;
        continue;
      }
      var ms := s[i].modules;
      assert before + ms[..0] == before;
      for j := 0 to |ms|
        invariant modules == Dedupe(before + ms[..j])
      {
        DedupeStep(before, ms, j);
        if ms[j] !in modules { modules := modules + [ms[j]]; }
      }
      assert ms[..|ms|] == ms;
    }
    assert s[..|s|] == s;
  }

  // ---- reachability ----

  /** What each module imports. */
  type Graph = string -> seq<string>

  /** A chain of imports that starts at one of the initial modules. */
  ghost predicate Chain(g: Graph, initial: seq<string>, ms: seq<string>) {
    && ms != [] && ms[0] in initial
    && forall i | 0 <= i < |ms| - 1 :: ms[i + 1] in g(ms[i])
  }

  ghost predicate EndsAt(ms: seq<string>, m: string) { ms != [] && ms[|ms| - 1] == m }

  ghost predicate Reachable(g: Graph, initial: seq<string>, m: string) {
    exists ms :: Chain(g, initial, ms) && EndsAt(ms, m)
  }

  lemma InitialIsReachable(g: Graph, initial: seq<string>, m: string)
    requires m in initial
    ensures Reachable(g, initial, m)
  {
    assert Chain(g, initial, [m]) && EndsAt([m], m);
  }

  lemma ChildIsReachable(g: Graph, initial: seq<string>, m: string, c: string)
    requires Reachable(g, initial, m) && c in g(m)
    ensures Reachable(g, initial, c)
  {
    var ms :| Chain(g, initial, ms) && EndsAt(ms, m);
    assert Chain(g, initial, ms + [c]) && EndsAt(ms + [c], c);
  }

  /** A set that has the initial modules and the children of its members. */
  ghost predicate Closed(g: Graph, initial: seq<string>, seen: set<string>) {
    && (forall m | m in initial :: m in seen)
    && (forall m, c | m in seen && c in g(m) :: c in seen)
  }

  lemma {:induction false} ClosedHasChains(g: Graph, initial: seq<string>, seen: set<string>, ms: seq<string>)
    requires Closed(g, initial, seen) && Chain(g, initial, ms)
    ensures ms[|ms| - 1] in seen
    decreases |ms|
  {
    if |ms| > 1 {
      ClosedHasChains(g, initial, seen, ms[..|ms| - 1]);
      assert ms[|ms| - 2 + 1] in g(ms[|ms| - 2]);
    }
  }

  /** The answer is determined: a closed set of reachable modules is all of them. */
  lemma ClosedIsExact(g: Graph, initial: seq<string>, seen: set<string>, m: string)
    requires Closed(g, initial, seen) && forall x | x in seen :: Reachable(g, initial, x)
    ensures m in seen <==> Reachable(g, initial, m)
  {
    if Reachable(g, initial, m) {
      var ms :| Chain(g, initial, ms) && EndsAt(ms, m);
      ClosedHasChains(g, initial, seen, ms);
    }
  }

  // ---- the worklist ----

  /** What the module's local file imports; nothing if it has none. */
  function Children(p: Project, m: string): seq<string>
    requires p.Valid()
  {
    if p.path(m).None? then [] else Dedupe(Named(p.files[p.path(m).value]))
  }

  /** A module imports what the import lines of its local file name, whichever line. */
  lemma ChildrenAreImported(p: Project, m: string, c: string)
    requires p.Valid()
    ensures c in ImportsIn(p)(m) <==>
              p.path(m).Some? && exists i | 0 <= i < |p.files[p.path(m).value]| ::
                p.files[p.path(m).value][i].Import? && c in p.files[p.path(m).value][i].modules
  {
    if p.path(m).Some? {
      NamedIs(p.files[p.path(m).value], c);
    }
  }

  ghost function ImportsIn(p: Project): Graph
    requires p.Valid()
  {
    m requires p.Valid() => Children(p, m)
  }

  /** Every module name that can turn up. */
  ghost function Mentioned(p: Project, initial: seq<string>): set<string> {
    (set m | m in initial) + (set f, m | f in p.files && m in Dedupe(Named(p.files[f])) :: m)
  }

  lemma ChildIsMentioned(p: Project, initial: seq<string>, m: string, c: string)
    requires p.Valid() && c in Children(p, m)
    ensures c in Mentioned(p, initial)
  {
    var f := p.path(m).value;
    assert f in p.files;
  }

  /** The files of these modules, with their fingerprints. */
  ghost predicate FilesOf(p: Project, seen: set<string>, files: map<string, int>)
    requires p.Valid()
  {
    && (forall f | f in files :: f in p.files && files[f] == p.fingerprint(p.files[f]) && exists m :: m in seen && p.path(m) == Some(f))
    && (forall m | m in seen && p.path(m).Some? :: p.path(m).value in files)
  }

  ghost predicate Working(g: Graph, initial: seq<string>, all: set<string>, seen: set<string>, pending: seq<string>) {
    && (forall m | m in seen || m in pending :: Reachable(g, initial, m) && m in all)
    && (forall m | m in initial :: m in seen || m in pending)
    && (forall m, c | m in seen && c in g(m) :: c in seen || c in pending)
  }

  /** The children not seen yet, in order. */
  method Unseen(children: seq<string>, seen: set<string>) returns (r: seq<string>)
    ensures forall c :: c in r <==> c in children && c !in seen
  {
    r := [];
    for i := 0 to |children|
      invariant forall c :: c in r <==> c in children[..i] && c !in seen
    {
      assert children[..i + 1] == children[..i] + [children[i]];
      if children[i] !in seen { r := r + [children[i]]; }
    }
    assert children[..|children|] == children;
  }

  /** A module seen before can be dropped. */
  lemma Drop(g: Graph, initial: seq<string>, all: set<string>, seen: set<string>, pending: seq<string>)
    requires Working(g, initial, all, seen, pending) && pending != [] && pending[0] in seen
    ensures Working(g, initial, all, seen, pending[1..])
  {
    assert pending == [pending[0]] + pending[1..];
  }

  /** Taking up a module not seen before keeps the books: it is seen, and its
      unseen children are pending. */
  lemma TakeUp(g: Graph, initial: seq<string>, all: set<string>, seen: set<string>, pending: seq<string>, more: seq<string>)
    requires Working(g, initial, all, seen, pending) && pending != []
    requires forall c :: c in more <==> c in g(pending[0]) && c !in seen + {pending[0]}
    requires forall c | c in g(pending[0]) :: c in all
    ensures Working(g, initial, all, seen + {pending[0]}, pending[1..] + more)
  {
    var m := pending[0];
    assert pending == [m] + pending[1..];
    forall c | c in more ensures Reachable(g, initial, c) && c in all {
      ChildIsReachable(g, initial, m, c);
    }
  }

  lemma FilesGrow(p: Project, seen: set<string>, files: map<string, int>, m: string)
    requires p.Valid() && FilesOf(p, seen, files)
    ensures FilesOf(p, seen + {m}, match p.path(m) case None => files case Some(f) => files[f := p.fingerprint(p.files[f])])
  {
    forall f | f in files ensures exists x :: x in seen + {m} && p.path(x) == Some(f) {
      var x :| x in seen && p.path(x) == Some(f);
      assert x in seen + {m};
    }
    assert m in seen + {m};
  }

  lemma NothingPending(g: Graph, initial: seq<string>, all: set<string>, seen: set<string>)
    requires Working(g, initial, all, seen, [])
    ensures forall m :: m in seen <==> Reachable(g, initial, m)
  {
    assert Closed(g, initial, seen);
    forall m ensures m in seen <==> Reachable(g, initial, m) {
      ClosedIsExact(g, initial, seen, m);
    }
  }

  lemma Start(g: Graph, initial: seq<string>, all: set<string>)
    requires forall m | m in initial :: m in all
    ensures Working(g, initial, all, {}, initial)
  {
    forall m | m in initial ensures Reachable(g, initial, m) {
      InitialIsReachable(g, initial, m);
    }
  }

  /** Exactly the reachable modules, and exactly the local files among them,
      whatever cycles and repetitions the graph has. */
  method Closure(p: Project, initial: seq<string>) returns (seen: set<string>, localFiles: map<string, int>)
    requires p.Valid()
    ensures forall m :: m in seen <==> Reachable(ImportsIn(p), initial, m)
    ensures FilesOf(p, seen, localFiles)
  {
    ghost var g, all := ImportsIn(p), Mentioned(p, initial);
    var pending := initial;
    seen, localFiles := {}, map[];
    Start(g, initial, all);
    while pending != []
      invariant Working(g, initial, all, seen, pending) && FilesOf(p, seen, localFiles)
      decreases all - seen, |pending|
    {
      var m := pending[0];
      ghost var before, work := seen, pending;
      if m in seen {
        Drop(g, initial, all, seen, pending);
        pending := pending[1..];
        continue;
      }
      assert m in pending && m in all;
      pending := pending[1..];
      seen := seen + {m};
      var path := p.path(m);
      var more := [];
      FilesGrow(p, before, localFiles, m);
      if path.Some? {
        var source := p.files[path.value];
        localFiles := localFiles[path.value := p.fingerprint(source)];
        var children := Imports(source);
        more := Unseen(children, seen);
        forall c | c in g(m) ensures c in all {
          ChildIsMentioned(p, initial, m, c);
        }
      }
      TakeUp(g, initial, all, before, work, more);
      pending := pending + more;
    }
    NothingPending(g, initial, all, seen);
  }

  // ---- independence of the traversal ----

  /** The same import relation, in whatever order the imports are written. */
  ghost predicate SameGraph(g: Graph, h: Graph, initial: seq<string>, initial': seq<string>) {
    && (forall m :: m in initial <==> m in initial')
    && (forall m, c :: c in g(m) <==> c in h(m))
  }

  lemma SameChains(g: Graph, h: Graph, initial: seq<string>, initial': seq<string>, ms: seq<string>)
    requires SameGraph(g, h, initial, initial') && Chain(g, initial, ms)
    ensures Chain(h, initial', ms)
  {
  }

  /** Reordering or repeating imports does not change what is reached. */
  lemma OrderDoesNotMatter(g: Graph, h: Graph, initial: seq<string>, initial': seq<string>, m: string)
    requires SameGraph(g, h, initial, initial')
    ensures Reachable(g, initial, m) <==> Reachable(h, initial', m)
  {
    if Reachable(g, initial, m) {
      var ms :| Chain(g, initial, ms) && EndsAt(ms, m);
      SameChains(g, h, initial, initial', ms);
    }
    if Reachable(h, initial', m) {
      var ms :| Chain(h, initial', ms) && EndsAt(ms, m);
      SameChains(h, g, initial', initial, ms);
    }
  }

  /** Both results are determined by the files and by which modules are reachable. */
  lemma ResultIsDetermined(p: Project, seen: set<string>, files: map<string, int>, files': map<string, int>)
    requires p.Valid() && FilesOf(p, seen, files) && FilesOf(p, seen, files')
    ensures files == files'
  {
    forall f ensures f in files <==> f in files' {
    }
  }
}
