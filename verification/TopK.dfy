/** The bounded declaration search: candidates are inserted one at a time into a
    list that is sorted and cut to a limit after every insertion. */
module TopK {
  import opened Wrappers

  datatype Item = Item(score: nat, name: string, info: int)

  /** Strings in lexicographic order. */
  predicate Less(a: string, b: string) {
    b != "" && (a == "" || a[0] < b[0] || (a[0] == b[0] && Less(a[1..], b[1..])))
  }

  predicate Before(x: Item, y: Item) { x.score < y.score || (x.score == y.score && Less(x.name, y.name)) }

  predicate SameKey(x: Item, y: Item) { x.score == y.score && x.name == y.name }

  lemma SameHead(a: string, b: string, k: nat)
    requires 0 < k <= |a| && k <= |b| && a[..k] == b[..k]
    ensures a[0] == b[0]
  {
    assert a[..k][0] == b[..k][0];
  }

  /** The shorter of two strings that agree as far as it goes, and else the one with the
      smaller character where they first differ. */
  lemma {:induction false} LessIsLexicographic(a: string, b: string)
    ensures Less(a, b) <==>
              exists k: nat :: k <= |a| && k < |b| && a[..k] == b[..k] && (k == |a| || a[k] < b[k])
  {
    if a != "" && b != "" && a[0] == b[0] {
      LessIsLexicographic(a[1..], b[1..]);
      if Less(a, b) {
        var k: nat :| k <= |a[1..]| && k < |b[1..]| && a[1..][..k] == b[1..][..k] && (k == |a[1..]| || a[1..][k] < b[1..][k]);
        assert a[..k + 1] == [a[0]] + a[1..][..k] && b[..k + 1] == [b[0]] + b[1..][..k];
      }
      if exists k: nat :: k <= |a| && k < |b| && a[..k] == b[..k] && (k == |a| || a[k] < b[k]) {
        var k: nat :| k <= |a| && k < |b| && a[..k] == b[..k] && (k == |a| || a[k] < b[k]);
        assert k > 0 && a[1..][..k - 1] == a[..k][1..] && b[1..][..k - 1] == b[..k][1..];
      }
    } else if Less(a, b) {
      assert a[..0] == b[..0];
    } else if exists k: nat :: k <= |a| && k < |b| && a[..k] == b[..k] && (k == |a| || a[k] < b[k]) {
      var k: nat :| k <= |a| && k < |b| && a[..k] == b[..k] && (k == |a| || a[k] < b[k]);
      if k > 0 {
        SameHead(a, b, k);
        assert false;
      }
    }
  }

  lemma {:induction false} LessIsTransitive(a: string, b: string, c: string)
    requires Less(a, b) && Less(b, c)
    ensures Less(a, c)
  {
    if a != "" && a[0] == b[0] && b[0] == c[0] {
      LessIsTransitive(a[1..], b[1..], c[1..]);
    }
  }

  lemma {:induction false} LessIsTotal(a: string, b: string)
    ensures Less(a, b) || Less(b, a) || a == b
    ensures !(Less(a, b) && Less(b, a)) && !Less(a, a)
  {
    if a != "" && b != "" {
      LessIsTotal(a[1..], b[1..]);
      assert a == [a[0]] + a[1..] && b == [b[0]] + b[1..];
    }
    if a != "" {
      LessIsTotal(a[1..], a[1..]);
    }
  }

  lemma BeforeIsTotal(x: Item, y: Item)
    ensures Before(x, y) || Before(y, x) || SameKey(x, y)
    ensures !(Before(x, y) && Before(y, x)) && !Before(x, x)
  {
    LessIsTotal(x.name, y.name);
    LessIsTotal(x.name, x.name);
  }

  lemma BeforeIsTransitive(x: Item, y: Item, z: Item)
    requires !Before(y, x) && !Before(z, y)
    ensures !Before(z, x)
  {
    BeforeIsTotal(x, y);
    BeforeIsTotal(y, z);
    if Before(z, x) {
      if x.score == z.score && Less(x.name, y.name) && Less(y.name, z.name) {
        LessIsTransitive(x.name, y.name, z.name);
      }
      BeforeIsTotal(x, z);
    }
  }

  // ---- sorting ----

  ghost predicate Sorted(s: seq<Item>) { forall i, j | 0 <= i < j < |s| :: !Before(s[j], s[i]) }

  /** What the library's sort may return: any sorted rearrangement. */
  ghost predicate SortOf(q: seq<Item>, s: seq<Item>) { Sorted(q) && multiset(q) == multiset(s) }

  /** No two different items have the same score and name. */
  ghost predicate Keyed(m: multiset<Item>) { forall x, y | x in m && y in m && SameKey(x, y) :: x == y }

  function Insert(x: Item, s: seq<Item>): seq<Item> {
    if s == [] || !Before(s[0], x) then [x] + s else [s[0]] + Insert(x, s[1..])
  }

  function Sort(s: seq<Item>): seq<Item> {
    if s == [] then [] else Insert(s[|s| - 1], Sort(s[..|s| - 1]))
  }

  lemma {:induction false} InsertIsSorted(x: Item, s: seq<Item>)
    requires Sorted(s)
    ensures Sorted(Insert(x, s)) && multiset(Insert(x, s)) == multiset(s) + multiset{x}
  {
    if s == [] {
    } else if !Before(s[0], x) {
      forall j | 0 <= j < |s| ensures !Before(s[j], x) {
        if j > 0 {
          BeforeIsTransitive(x, s[0], s[j]);
        }
      }
    } else {
      InsertIsSorted(x, s[1..]);
      var t := Insert(x, s[1..]);
      assert s == [s[0]] + s[1..];
      BeforeIsTotal(s[0], x);
      forall j | 0 <= j < |t| ensures !Before(t[j], s[0]) {
        assert t[j] in multiset(t);
        assert t[j] in multiset(s[1..]) + multiset{x};
        if t[j] != x {
          var k :| 0 <= k < |s[1..]| && s[1..][k] == t[j];
          assert s[k + 1] == t[j];
        }
      }
    }
  }

  lemma {:induction false} SortIsSorted(s: seq<Item>)
    ensures SortOf(Sort(s), s)
  {
    if s != [] {
      var n := |s| - 1;
      SortIsSorted(s[..n]);
      InsertIsSorted(s[n], Sort(s[..n]));
      assert s == s[..n] + [s[n]];
    }
  }

  lemma FirstIsLeast(a: seq<Item>, b: seq<Item>)
    requires a != [] && b != [] && Sorted(a) && Sorted(b) && multiset(a) == multiset(b)
    ensures SameKey(a[0], b[0])
  {
    assert a[0] in multiset(b) && b[0] in multiset(a);
    var i :| 0 <= i < |b| && b[i] == a[0];
    var j :| 0 <= j < |a| && a[j] == b[0];
    BeforeIsTotal(a[0], b[0]);
    BeforeIsTotal(a[0], a[0]);
    BeforeIsTotal(b[0], b[0]);
  }

  /** With distinct keys there is only one sorted rearrangement. */
  lemma {:induction false} SortedIsUnique(a: seq<Item>, b: seq<Item>)
    requires Sorted(a) && Sorted(b) && multiset(a) == multiset(b) && Keyed(multiset(a))
    ensures a == b
    decreases |a|
  {
    assert |a| == |multiset(a)| == |multiset(b)| == |b|;
    if a != [] {
      FirstIsLeast(a, b);
      assert a[0] in multiset(a) && b[0] in multiset(a);
      assert a == [a[0]] + a[1..] && b == [b[0]] + b[1..];
      assert multiset(a[1..]) == multiset(a) - multiset{a[0]};
      assert multiset(b[1..]) == multiset(b) - multiset{b[0]};
      SortedIsUnique(a[1..], b[1..]);
    }
  }

  // ---- the bounded insertion ----

  function Take(s: seq<Item>, k: nat): (r: seq<Item>)
    ensures r <= s && |r| == if |s| <= k then |s| else k
  {
    if |s| <= k then s else s[..k]
  }

  /** One insertion, whatever rearrangement the sort picks. */
  ghost predicate Inserted(items: seq<Item>, item: Item, limit: nat, out: seq<Item>) {
    if limit == 0 then out == [] else exists q :: SortOf(q, items + [item]) && out == Take(q, limit)
  }

  lemma {:induction false} TakeInsert(x: Item, s: seq<Item>, k: nat)
    ensures Take(Insert(x, Take(s, k)), k) == Take(Insert(x, s), k)
    decreases |s|
  {
    if |s| > k && k > 0 {
      var t := s[..k];
      if Before(s[0], x) {
        assert t[1..] == s[1..][..k - 1];
        TakeInsert(x, s[1..], k - 1);
        assert Take(s[1..], k - 1) == t[1..];
        assert Take([s[0]] + Insert(x, t[1..]), k) == [s[0]] + Take(Insert(x, t[1..]), k - 1);
        assert Take([s[0]] + Insert(x, s[1..]), k) == [s[0]] + Take(Insert(x, s[1..]), k - 1);
      }
    }
  }

  lemma KeyedSubset(a: multiset<Item>, b: multiset<Item>)
    requires a <= b && Keyed(b)
    ensures Keyed(a)
  {
  }

  lemma TakeIsSub(s: seq<Item>, k: nat)
    ensures multiset(Take(s, k)) <= multiset(s)
  {
    if |s| > k {
      assert s == s[..k] + s[k..];
    }
  }

  /** Inserting into the best of what came before gives the best of everything. */
  lemma InsertionIsExact(before: seq<Item>, item: Item, limit: nat, out: seq<Item>)
    requires Keyed(multiset(before + [item])) && Inserted(Take(Sort(before), limit), item, limit, out)
    ensures out == Take(Sort(before + [item]), limit)
  {
    var all := before + [item];
    assert all[..|before|] == before;
    if limit > 0 {
      var sorted := Sort(before);
      var kept := Take(sorted, limit);
      var q :| SortOf(q, kept + [item]) && out == Take(q, limit);
      SortIsSorted(before);
      TakeIsSub(sorted, limit);
      InsertIsSorted(item, kept);
      assert multiset(q) == multiset(kept) + multiset{item} <= multiset(all);
      KeyedSubset(multiset(q), multiset(all));
      SortedIsUnique(q, Insert(item, kept));
      TakeInsert(item, sorted, limit);
    }
  }

  /** Successive results of inserting the candidates one after the other. */
  ghost predicate Streamed(results: seq<seq<Item>>, candidates: seq<Item>, limit: nat) {
    && |results| == |candidates| + 1 && results[0] == []
    && forall i | 0 <= i < |candidates| :: Inserted(results[i], candidates[i], limit, results[i + 1])
  }

  /** Streaming is batch: inserting any list of candidates whose keys identify them,
      repetitions allowed, one at a time, whatever rearrangement each sort picks,
      ends with the first `limit` of the whole list sorted. */
  lemma {:induction false} StreamingIsBatch(results: seq<seq<Item>>, candidates: seq<Item>, limit: nat)
    requires Streamed(results, candidates, limit) && Keyed(multiset(candidates))
    ensures results[|candidates|] == Take(Sort(candidates), limit)
    decreases |candidates|
  {
    if candidates != [] {
      var n := |candidates| - 1;
      assert candidates == candidates[..n] + [candidates[n]];
      KeyedSubset(multiset(candidates[..n]), multiset(candidates));
      StreamingIsBatch(results[..n + 1], candidates[..n], limit);
      assert Inserted(results[n], candidates[n], limit, results[n + 1]);
      InsertionIsExact(candidates[..n], candidates[n], limit, results[n + 1]);
    }
  }

  /** The order of the candidates does not matter. */
  lemma OrderDoesNotMatter(results: seq<seq<Item>>, candidates: seq<Item>, results': seq<seq<Item>>, candidates': seq<Item>, limit: nat)
    requires Streamed(results, candidates, limit) && Streamed(results', candidates', limit)
    requires multiset(candidates) == multiset(candidates') && Keyed(multiset(candidates))
    ensures results[|candidates|] == results'[|candidates'|]
  {
    StreamingIsBatch(results, candidates, limit);
    StreamingIsBatch(results', candidates', limit);
    SortIsSorted(candidates);
    SortIsSorted(candidates');
    SortedIsUnique(Sort(candidates), Sort(candidates'));
  }

  /** The keys have to identify the items: of two different items with the same key,
      a search limited to one result may return either. */
  lemma TiesAreUndetermined(a: Item, b: Item)
    requires SameKey(a, b)
    ensures Inserted([a], b, 1, [a]) && Inserted([a], b, 1, [b])
  {
    BeforeIsTotal(a, b);
    assert SortOf([a, b], [a] + [b]) && Take([a, b], 1) == [a];
    assert SortOf([b, a], [a] + [b]) && Take([b, a], 1) == [b];
  }

  /** One item may stand before the other: it has the smaller score, or the same score
      and no greater name. */
  predicate NoWorse(x: Item, y: Item) { x.score < y.score || (x.score == y.score && (x.name == y.name || Less(x.name, y.name))) }

  lemma SortedMeans(sorted: seq<Item>, i: nat, j: nat)
    requires Sorted(sorted) && i < j < |sorted|
    ensures NoWorse(sorted[i], sorted[j])
  {
    BeforeIsTotal(sorted[i], sorted[j]);
  }

  /** What the best `k` of a list are: in order of score and then of name, as many as
      there are up to `k`; and together with what is left out, none of which is better
      than one that is kept, they are the list. */
  lemma BestAreBest(s: seq<Item>, k: nat) returns (out: seq<Item>)
    ensures var best := Take(Sort(s), k);
            && |best| == (if |s| <= k then |s| else k) && multiset(best) + multiset(out) == multiset(s)
            && (forall i, j | 0 <= i < j < |best| :: NoWorse(best[i], best[j]))
            && forall i, j | 0 <= i < |best| && 0 <= j < |out| :: NoWorse(best[i], out[j])
  {
    var sorted := Sort(s);
    SortIsSorted(s);
    assert |sorted| == |multiset(sorted)| == |multiset(s)| == |s|;
    var best := Take(sorted, k);
    out := sorted[|best|..];
    assert sorted == best + out;
    forall i, j | 0 <= i < j < |best| ensures NoWorse(best[i], best[j]) {
      SortedMeans(sorted, i, j);
    }
    forall i, j | 0 <= i < |best| && 0 <= j < |out| ensures NoWorse(best[i], out[j]) {
      SortedMeans(sorted, i, |best| + j);
    }
  }

  // ---- the search ----

  /** The library's sort. */
  method QSort(s: seq<Item>) returns (q: seq<Item>)
    ensures SortOf(q, s)
  {
    SortIsSorted(s);
    q := Sort(s);
  }

  method InsertSearchCandidate(items: seq<Item>, item: Item, limit: nat) returns (out: seq<Item>)
    ensures Inserted(items, item, limit, out)
  {
    if limit == 0 { return []; }
    var sorted := QSort(items + [item]);
    out := if |sorted| <= limit then sorted else sorted[..limit];
    assert out == Take(sorted, limit);
  }

  /** The candidates that were found. */
  function Found(s: seq<Option<Item>>): seq<Item> {
    if s == [] then [] else Found(s[..|s| - 1]) + if s[|s| - 1].Some? then [s[|s| - 1].value] else []
  }

  const MAX_RESULTS := 32

  function Limit(maxResults: nat): nat { if maxResults <= MAX_RESULTS then maxResults else MAX_RESULTS }

  lemma FoundStep(s: seq<Option<Item>>, i: nat)
    requires i < |s|
    ensures Found(s[..i + 1]) == Found(s[..i]) + if s[i].Some? then [s[i].value] else []
  {
    assert s[..i + 1][..i] == s[..i];
  }

  lemma StreamOneMore(results: seq<seq<Item>>, candidates: seq<Item>, limit: nat, item: Item, out: seq<Item>)
    requires Streamed(results, candidates, limit) && Inserted(results[|candidates|], item, limit, out)
    ensures Streamed(results + [out], candidates + [item], limit)
  {
    var rs, cs := results + [out], candidates + [item];
    forall i | 0 <= i < |cs| ensures Inserted(rs[i], cs[i], limit, rs[i + 1]) {
      if i < |candidates| {
        assert Inserted(results[i], candidates[i], limit, results[i + 1]);
      }
    }
  }

  /** The best candidates of one list, inserted as they are found. */
  method Rank(s: seq<Option<Item>>, limit: nat) returns (ranked: seq<Item>)
    ensures |ranked| <= limit
    ensures Keyed(multiset(Found(s))) ==> ranked == Take(Sort(Found(s)), limit)
  {
    ranked := [];
    ghost var results: seq<seq<Item>> := [[]];
    for i := 0 to |s|
      invariant Streamed(results, Found(s[..i]), limit) && results[|results| - 1] == ranked && |ranked| <= limit
    {
      FoundStep(s, i);
      if s[i].Some? {
        ranked := InsertSearchCandidate(ranked, s[i].value, limit);
        StreamOneMore(results, Found(s[..i]), limit, s[i].value, ranked);
        results := results + [ranked];
      }
    }
    assert s[..|s|] == s;
    if Keyed(multiset(Found(s))) {
      StreamingIsBatch(results, Found(s), limit);
    }
  }

  /** The names that match exactly, or if there are none and the caller asked for
      it, the best of the whole environment; at most 32 of them. */
  method SearchDeclarations(exact: seq<Option<Item>>, all: seq<Option<Item>>, fuzzy: bool, maxResults: nat) returns (ranked: seq<Item>)
    ensures |ranked| <= maxResults && |ranked| <= 32
    ensures Keyed(multiset(Found(exact))) && Keyed(multiset(Found(all))) ==>
              ranked == Take(Sort(if Found(exact) == [] && fuzzy then Found(all) else Found(exact)),
                             if maxResults < 32 then maxResults else 32)
  {
    var limit := Limit(maxResults);
    ranked := Rank(exact, limit);
    SortIsSorted(Found(exact));
    if ranked == [] && fuzzy {
      ranked := Rank(all, limit);
    }
  }
}
