/**
 * The tree view of exported runs: rows that point to their parents by id become indented lines. A line is
 * identified with the walk from a root that leads to it, so that the recursion's end, the order of the lines
 * and their number are all statements about walks.
 */
module RunTree {

  /** A row; an empty parent is none, and `tool` is the tool name in the metadata, if any. */
  datatype Row = Row(id: string, parent: string, name: string, tool: string)

  type Walk = seq<nat>

  datatype Line = Line(walk: Walk, text: string)

  // ---------- Rows and their children ----------

  predicate Known(rows: seq<Row>, id: string) {
    exists i | 0 <= i < |rows| :: rows[i].id == id
  }

  predicate IsRoot(rows: seq<Row>, i: nat)
    requires i < |rows|
  {
    rows[i].parent == "" || !Known(rows, rows[i].parent)
  }

  predicate IsChild(rows: seq<Row>, id: string, i: nat)
    requires i < |rows|
  {
    !IsRoot(rows, i) && rows[i].parent == id
  }

  /** The roots among the first `n` rows, in input order. */
  function Roots(rows: seq<Row>, n: nat): seq<nat>
    requires n <= |rows|
  {
    if n == 0 then [] else Roots(rows, n - 1) + (if IsRoot(rows, n - 1) then [n - 1] else [])
  }

  function Children(rows: seq<Row>, id: string, n: nat): seq<nat>
    requires n <= |rows|
  {
    if n == 0 then [] else Children(rows, id, n - 1) + (if IsChild(rows, id, n - 1) then [n - 1] else [])
  }

  lemma {:induction false} RootsAre(rows: seq<Row>, n: nat)
    requires n <= |rows|
    ensures forall i: nat :: i in Roots(rows, n) <==> i < n && IsRoot(rows, i)
    ensures Ascending(Roots(rows, n))
  {
    if n > 0 {
      RootsAre(rows, n - 1);
      var front := Roots(rows, n - 1);
      assert forall k | 0 <= k < |front| :: front[k] in front;
    }
  }

  lemma {:induction false} ChildrenAre(rows: seq<Row>, id: string, n: nat)
    requires n <= |rows|
    ensures forall i: nat :: i in Children(rows, id, n) <==> i < n && IsChild(rows, id, i)
    ensures Ascending(Children(rows, id, n))
  {
    if n > 0 {
      ChildrenAre(rows, id, n - 1);
      var front := Children(rows, id, n - 1);
      assert forall k | 0 <= k < |front| :: front[k] in front;
    }
  }

  predicate Ascending(s: seq<nat>) {
    forall i, j | 0 <= i < j < |s| :: s[i] < s[j]
  }

  // ---------- Walks ----------

  /** From a root down to a row, every step to a row that names the last one as its parent. */
  predicate IsWalk(rows: seq<Row>, w: Walk) {
    && w != []
    && (forall k | 0 <= k < |w| :: w[k] < |rows|)
    && IsRoot(rows, w[0])
    && forall k | 0 < k < |w| :: IsChild(rows, rows[w[k - 1]].id, w[k])
  }

  predicate NoRepeat(w: Walk) {
    forall i, j | 0 <= i < j < |w| :: w[i] != w[j]
  }

  /** No walk comes back to a row. */
  ghost predicate Acyclic(rows: seq<Row>) {
    forall w | IsWalk(rows, w) :: NoRepeat(w)
  }

  predicate DistinctIds(rows: seq<Row>) {
    forall i, j | 0 <= i < j < |rows| :: rows[i].id != rows[j].id
  }

  lemma {:induction false} Pigeonhole(w: Walk, n: nat)
    requires NoRepeat(w) && forall k | 0 <= k < |w| :: w[k] < n
    ensures |w| <= n
    decreases n
  {
    var first := if |w| > 0 then w[0] else 0;
    assert |w| > 0 ==> first < n;
    if k :| 0 <= k < |w| && w[k] == n - 1 {
      var rest := w[..k] + w[k + 1..];
      assert NoRepeat(rest) && forall m | 0 <= m < |rest| :: rest[m] < n - 1;
      Pigeonhole(rest, n - 1);
    } else if n > 0 {
      Pigeonhole(w, n - 1);
    }
  }

  lemma WalksAreShort(rows: seq<Row>, w: Walk)
    requires Acyclic(rows) && IsWalk(rows, w)
    ensures |w| <= |rows|
  {
    Pigeonhole(w, |rows|);
  }

  /** Rows with distinct ids have one parent, so walks that meet came the same way. */
  lemma WaysAgree(rows: seq<Row>, v: Walk, j: nat, w: Walk, m: nat)
    requires DistinctIds(rows) && IsWalk(rows, v) && IsWalk(rows, w)
    requires j < |v| && m < |w| && v[j] == w[m]
    ensures j == 0 <==> m == 0
    ensures j > 0 ==> v[j - 1] == w[m - 1]
  {
    if j > 0 {
      assert IsChild(rows, rows[v[j - 1]].id, v[j]);
    }
    if m > 0 {
      assert IsChild(rows, rows[w[m - 1]].id, w[m]);
    }
  }

  lemma {:induction false} DistinctIdsNeverRepeat(rows: seq<Row>, w: Walk)
    requires DistinctIds(rows) && IsWalk(rows, w)
    ensures NoRepeat(w)
    decreases |w|
  {
    if |w| > 1 {
      var m := |w| - 1;
      DistinctIdsNeverRepeat(rows, w[..m]);
      assert forall i, j | 0 <= i < j < m :: w[..m][i] != w[..m][j];
      assert forall i, j | 0 <= i < j < m :: w[i] != w[j];
      forall j | 0 <= j < m ensures w[j] != w[m] {
        if w[j] == w[m] {
          WaysAgree(rows, w, j, w, m);
        }
      }
    }
  }

  lemma DistinctIdsAreAcyclic(rows: seq<Row>)
    requires DistinctIds(rows)
    ensures Acyclic(rows)
  {
    forall w | IsWalk(rows, w) ensures NoRepeat(w) {
      DistinctIdsNeverRepeat(rows, w);
    }
  }

  /** A cycle that a walk reaches can be walked round as often as one likes. */
  lemma {:induction false} Longer(rows: seq<Row>, w: Walk, i: nat, j: nat, n: nat) returns (longer: Walk)
    requires IsWalk(rows, w) && i < j < |w| && w[i] == w[j]
    ensures IsWalk(rows, longer) && |longer| >= n
    decreases n - |w|
  {
    if |w| >= n {
      longer := w;
    } else {
      var round := w[..j + 1] + w[i + 1..];
      forall k | 0 < k < |round| ensures IsChild(rows, rows[round[k - 1]].id, round[k]) {
        if k > j {
          assert round[k] == w[i + (k - j)];
        }
      }
      longer := Longer(rows, round, i, j, n);
    }
  }

  ghost predicate NoLonger(rows: seq<Row>, n: nat) {
    forall w | IsWalk(rows, w) :: |w| <= n
  }

  /** The recursion has an end, its nesting being the length of a walk, exactly when no walk repeats a row. */
  lemma EndsExactlyWhenAcyclic(rows: seq<Row>)
    ensures Acyclic(rows) <==> exists n: nat :: NoLonger(rows, n)
  {
    if Acyclic(rows) {
      forall w | IsWalk(rows, w) ensures |w| <= |rows| {
        WalksAreShort(rows, w);
      }
      assert NoLonger(rows, |rows|);
    } else {
      var w :| IsWalk(rows, w) && !NoRepeat(w);
      var i, j :| 0 <= i < j < |w| && w[i] == w[j];
      forall n: nat ensures !NoLonger(rows, n) {
        var v := Longer(rows, w, i, j, n + 1);
      }
    }
  }

  /** Two rows of one id are enough for a recursion without end. */
  lemma ARepeatedIdNeedNotEnd()
    ensures !Acyclic([Row("a", "", "run", ""), Row("a", "a", "run", "")])
  {
    var rows := [Row("a", "", "run", ""), Row("a", "a", "run", "")];
    assert rows[0].id == rows[1].parent;
    var w: Walk := [0, 1, 1];
    assert IsWalk(rows, w) && w[1] == w[2];
  }

  // ---------- Rendering ----------

  predicate Contains(s: string, part: string) {
    exists k | 0 <= k <= |s| :: part <= s[k..]
  }

  function Label(r: Row): string {
    var name := if r.name == "" then "run" else r.name;
    if r.tool != "" && !Contains(name, r.tool) then name + " [" + r.tool + "]" else name
  }

  function LineText(r: Row, prefix: string, last: bool, root: bool): string {
    prefix + (if root then "" else if last then "└── " else "├── ") + Label(r)
  }

  function ChildPrefix(prefix: string, last: bool, root: bool): string {
    prefix + (if root then "" else if last then "    " else "│   ")
  }

  /** A walk may go on to any child of its end. */
  lemma NextIsWalk(rows: seq<Row>, w: Walk, k: nat)
    requires IsWalk(rows, w) && k < |Children(rows, rows[w[|w| - 1]].id, |rows|)|
    ensures IsWalk(rows, w + [Children(rows, rows[w[|w| - 1]].id, |rows|)[k]])
  {
    var children := Children(rows, rows[w[|w| - 1]].id, |rows|);
    ChildrenAre(rows, rows[w[|w| - 1]].id, |rows|);
    assert children[k] in children;
  }

  lemma RootIsWalk(rows: seq<Row>, k: nat)
    requires k < |Roots(rows, |rows|)|
    ensures IsWalk(rows, [Roots(rows, |rows|)[k]])
  {
    RootsAre(rows, |rows|);
    assert Roots(rows, |rows|)[k] in Roots(rows, |rows|);
  }

  /** The lines below the end of a walk, its own one first. */
  function Render(rows: seq<Row>, w: Walk, prefix: string, last: bool): seq<Line>
    requires Acyclic(rows) && IsWalk(rows, w)
    decreases |rows| + 1 - |w|, 1, 0
  {
    WalksAreShort(rows, w);
    var i, root := w[|w| - 1], |w| == 1;
    [Line(w, LineText(rows[i], prefix, last, root))]
    + RenderChildren(rows, w, |Children(rows, rows[i].id, |rows|)|, ChildPrefix(prefix, last, root))
  }

  /** The lines below the first `n` children of the end of a walk. */
  function RenderChildren(rows: seq<Row>, w: Walk, n: nat, prefix: string): seq<Line>
    requires Acyclic(rows) && IsWalk(rows, w) && n <= |Children(rows, rows[w[|w| - 1]].id, |rows|)|
    decreases |rows| + 1 - |w|, 0, n
  {
    WalksAreShort(rows, w);
    if n == 0 then []
    else
      var children := Children(rows, rows[w[|w| - 1]].id, |rows|);
      var next := w + [children[n - 1]];
      NextIsWalk(rows, w, n - 1);
      WalksAreShort(rows, next);
      RenderChildren(rows, w, n - 1, prefix) + Render(rows, next, prefix, n == |children|)
  }

  /** The lines below the first `n` roots. */
  function RenderRoots(rows: seq<Row>, n: nat): seq<Line>
    requires Acyclic(rows) && n <= |Roots(rows, |rows|)|
  {
    if n == 0 then []
    else
      var root := Roots(rows, |rows|)[n - 1];
      RootIsWalk(rows, n - 1);
      RenderRoots(rows, n - 1) + Render(rows, [root], "", true)
  }

  function Tree(rows: seq<Row>): seq<Line>
    requires Acyclic(rows)
  {
    RenderRoots(rows, |Roots(rows, |rows|)|)
  }

  // ---------- Which lines, and in which order ----------

  /** The order of a tree on paper: above comes before below, and siblings in input order. */
  predicate Before(v: Walk, w: Walk) {
    exists k | 0 <= k <= |v| :: BeforeAt(v, w, k)
  }

  /** Place `k` decides: one walk ends there, or the other goes to a later row. */
  predicate BeforeAt(v: Walk, w: Walk, k: nat) {
    && k <= |v| && k <= |w| && v[..k] == w[..k]
    && ((k == |v| && k < |w|) || (k < |v| && k < |w| && v[k] < w[k]))
  }

  predicate Sorted(lines: seq<Line>) {
    forall i, j | 0 <= i < j < |lines| :: Before(lines[i].walk, lines[j].walk)
  }

  predicate Covers(lines: seq<Line>, w: Walk) {
    exists k | 0 <= k < |lines| :: lines[k].walk == w
  }

  /** The walks through the first `n` children of the end of `w`. */
  predicate Through(children: seq<nat>, n: nat, w: Walk, v: Walk)
    requires n <= |children|
  {
    |v| > |w| && w < v && v[|w|] in children[..n]
  }

  /** The lines are those of the walks that extend `w`, sorted. */
  ghost predicate ListsBelow(rows: seq<Row>, lines: seq<Line>, w: Walk) {
    && Sorted(lines)
    && (forall k | 0 <= k < |lines| :: IsWalk(rows, lines[k].walk) && w <= lines[k].walk)
    && (forall v | IsWalk(rows, v) && w <= v :: Covers(lines, v))
  }

  /** The lines are those of the walks through the first `n` children, sorted. */
  ghost predicate ListsThrough(rows: seq<Row>, lines: seq<Line>, children: seq<nat>, n: nat, w: Walk)
    requires n <= |children|
  {
    && Sorted(lines)
    && (forall k | 0 <= k < |lines| :: IsWalk(rows, lines[k].walk) && Through(children, n, w, lines[k].walk))
    && (forall v | IsWalk(rows, v) && Through(children, n, w, v) :: Covers(lines, v))
  }

  lemma SplitOrders(v: Walk, w: Walk, u: Walk, a: nat, b: nat)
    requires u + [a] <= v && u + [b] <= w && a < b
    ensures Before(v, w)
  {
    var k := |u|;
    assert v[..k] == v[..k + 1][..k] == u;
    assert w[..k] == w[..k + 1][..k] == u;
    assert v[k] == v[..k + 1][k] && w[k] == w[..k + 1][k];
    assert BeforeAt(v, w, k);
  }

  lemma PrefixOrders(v: Walk, w: Walk)
    requires v < w
    ensures Before(v, w)
  {
    assert v[..|v|] == w[..|v|];
    assert BeforeAt(v, w, |v|);
  }

  lemma SortedConcat(a: seq<Line>, b: seq<Line>)
    requires Sorted(a) && Sorted(b)
    requires forall i, j | 0 <= i < |a| && 0 <= j < |b| :: Before(a[i].walk, b[j].walk)
    ensures Sorted(a + b)
  {
  }

  lemma CoversConcat(a: seq<Line>, b: seq<Line>, w: Walk)
    requires Covers(a, w) || Covers(b, w)
    ensures Covers(a + b, w)
  {
    if Covers(a, w) {
      var k :| 0 <= k < |a| && a[k].walk == w;
      assert (a + b)[k].walk == w;
    } else {
      var k :| 0 <= k < |b| && b[k].walk == w;
      assert (a + b)[|a| + k].walk == w;
    }
  }

  /** Below the end of a walk are exactly the walks that extend it. */
  lemma {:induction false} RenderLists(rows: seq<Row>, w: Walk, prefix: string, last: bool)
    requires Acyclic(rows) && IsWalk(rows, w)
    ensures ListsBelow(rows, Render(rows, w, prefix, last), w)
    decreases |rows| + 1 - |w|, 1, 0
  {
    WalksAreShort(rows, w);
    var root := |w| == 1;
    var children := Children(rows, rows[w[|w| - 1]].id, |rows|);
    var own := Line(w, LineText(rows[w[|w| - 1]], prefix, last, root));
    var below := RenderChildren(rows, w, |children|, ChildPrefix(prefix, last, root));
    RenderChildrenLists(rows, w, |children|, ChildPrefix(prefix, last, root));
    assert Render(rows, w, prefix, last) == [own] + below;
    AddOwnLine(rows, w, children, own, below);
  }

  lemma AddOwnLine(rows: seq<Row>, w: Walk, children: seq<nat>, own: Line, below: seq<Line>)
    requires IsWalk(rows, w) && own.walk == w && children == Children(rows, rows[w[|w| - 1]].id, |rows|)
    requires ListsThrough(rows, below, children, |children|, w)
    ensures ListsBelow(rows, [own] + below, w)
  {
    ChildrenAre(rows, rows[w[|w| - 1]].id, |rows|);
    forall k | 0 <= k < |below| ensures Before(w, below[k].walk) && w <= below[k].walk {
      PrefixOrders(w, below[k].walk);
    }
    SortedConcat([own], below);
    forall v | IsWalk(rows, v) && w <= v ensures Covers([own] + below, v) {
      if v == w {
        assert Covers([own], v) by { assert [own][0].walk == v; }
      } else {
        assert IsChild(rows, rows[v[|w| - 1]].id, v[|w|]);
        assert children[..|children|] == children;
        assert Through(children, |children|, w, v);
      }
      CoversConcat([own], below, v);
    }
  }

  lemma {:induction false} RenderChildrenLists(rows: seq<Row>, w: Walk, n: nat, prefix: string)
    requires Acyclic(rows) && IsWalk(rows, w) && n <= |Children(rows, rows[w[|w| - 1]].id, |rows|)|
    ensures ListsThrough(rows, RenderChildren(rows, w, n, prefix), Children(rows, rows[w[|w| - 1]].id, |rows|), n, w)
    decreases |rows| + 1 - |w|, 0, n
  {
    WalksAreShort(rows, w);
    if n > 0 {
      var children := Children(rows, rows[w[|w| - 1]].id, |rows|);
      var next := w + [children[n - 1]];
      NextIsWalk(rows, w, n - 1);
      ChildrenAre(rows, rows[w[|w| - 1]].id, |rows|);
      WalksAreShort(rows, next);
      RenderChildrenLists(rows, w, n - 1, prefix);
      RenderLists(rows, next, prefix, n == |children|);
      var earlier, last := RenderChildren(rows, w, n - 1, prefix), Render(rows, next, prefix, n == |children|);
      JoinLists(rows, w, children, n, earlier, last);
    }
  }

  /** A walk through an earlier child comes before one through a later child. */
  lemma ThroughOrders(children: seq<nat>, n: nat, w: Walk, v: Walk, u: Walk)
    requires 0 < n <= |children| && Ascending(children)
    requires Through(children, n - 1, w, v) && w + [children[n - 1]] <= u
    ensures Before(v, u)
  {
    assert w + [v[|w|]] <= v;
    var m :| 0 <= m < n - 1 && children[m] == v[|w|];
    SplitOrders(v, u, w, children[m], children[n - 1]);
  }

  /** One more child adds the walks that go through it. */
  lemma ThroughOneMore(children: seq<nat>, n: nat, w: Walk, v: Walk)
    requires 0 < n <= |children|
    ensures Through(children, n, w, v) <==> Through(children, n - 1, w, v) || w + [children[n - 1]] <= v
  {
    assert children[..n] == children[..n - 1] + [children[n - 1]];
    var next := w + [children[n - 1]];
    if next <= v {
      assert w < next && v[|w|] == next[|w|];
    }
  }

  /** The lines of one more child behind those of the children before. */
  lemma JoinLists(rows: seq<Row>, w: Walk, children: seq<nat>, n: nat, front: seq<Line>, back: seq<Line>)
    requires 0 < n <= |children| && Ascending(children)
    requires ListsThrough(rows, front, children, n - 1, w)
    requires ListsBelow(rows, back, w + [children[n - 1]])
    ensures ListsThrough(rows, front + back, children, n, w)
  {
    forall i, j | 0 <= i < |front| && 0 <= j < |back| ensures Before(front[i].walk, back[j].walk) {
      ThroughOrders(children, n, w, front[i].walk, back[j].walk);
    }
    SortedConcat(front, back);
    forall v ensures Through(children, n, w, v) <==> Through(children, n - 1, w, v) || w + [children[n - 1]] <= v {
      ThroughOneMore(children, n, w, v);
    }
    forall v | IsWalk(rows, v) && Through(children, n, w, v) ensures Covers(front + back, v) {
      CoversConcat(front, back, v);
    }
  }

  lemma {:induction false} RenderRootsLists(rows: seq<Row>, n: nat)
    requires Acyclic(rows) && n <= |Roots(rows, |rows|)|
    ensures ListsThrough(rows, RenderRoots(rows, n), Roots(rows, |rows|), n, [])
    decreases n
  {
    if n > 0 {
      RenderRootsLists(rows, n - 1);
      AddRoot(rows, n);
    }
  }

  lemma AddRoot(rows: seq<Row>, n: nat)
    requires Acyclic(rows) && 0 < n <= |Roots(rows, |rows|)|
    requires ListsThrough(rows, RenderRoots(rows, n - 1), Roots(rows, |rows|), n - 1, [])
    ensures ListsThrough(rows, RenderRoots(rows, n), Roots(rows, |rows|), n, [])
  {
    var root := Roots(rows, |rows|)[n - 1];
    RootIsWalk(rows, n - 1);
    RenderLists(rows, [root], "", true);
    JoinRoot(rows, n, RenderRoots(rows, n - 1), Render(rows, [root], "", true));
  }

  lemma JoinRoot(rows: seq<Row>, n: nat, front: seq<Line>, back: seq<Line>)
    requires 0 < n <= |Roots(rows, |rows|)|
    requires ListsThrough(rows, front, Roots(rows, |rows|), n - 1, [])
    requires ListsBelow(rows, back, [Roots(rows, |rows|)[n - 1]])
    ensures ListsThrough(rows, front + back, Roots(rows, |rows|), n, [])
  {
    var roots := Roots(rows, |rows|);
    RootsAre(rows, |rows|);
    assert [] + [roots[n - 1]] == [roots[n - 1]];
    JoinLists(rows, [], roots, n, front, back);
  }

  /**
   * The tree has one line for every walk and no other, in the order of the walks: a row comes before what
   * hangs below it, and rows of one parent, like the roots, come in input order with all that hangs below.
   */
  lemma TreeListsAllWalks(rows: seq<Row>)
    requires Acyclic(rows)
    ensures Sorted(Tree(rows))
    ensures forall w :: IsWalk(rows, w) <==> Covers(Tree(rows), w)
  {
    var roots := Roots(rows, |rows|);
    RenderRootsLists(rows, |roots|);
    RootsAre(rows, |rows|);
    assert roots[..|roots|] == roots;
    forall w | IsWalk(rows, w) ensures Through(roots, |roots|, [], w) {
    }
  }

  // ---------- Rows with distinct ids ----------

  /** The parent links of a row lead up to a root. */
  ghost predicate Rooted(rows: seq<Row>, i: nat) {
    exists w :: IsWalk(rows, w) && w[|w| - 1] == i
  }

  lemma {:induction false} OneWalkPerRow(rows: seq<Row>, v: Walk, w: Walk)
    requires DistinctIds(rows) && IsWalk(rows, v) && IsWalk(rows, w) && v[|v| - 1] == w[|w| - 1]
    ensures v == w
    decreases |v|
  {
    var m, n := |v| - 1, |w| - 1;
    WaysAgree(rows, v, m, w, n);
    if m > 0 {
      OneWalkPerRow(rows, v[..m], w[..n]);
      assert v == v[..m] + [v[m]] && w == w[..n] + [w[n]];
    }
  }

  lemma BeforeIsStrict(v: Walk, w: Walk)
    requires Before(v, w)
    ensures v != w && !Before(w, v)
  {
    var k :| 0 <= k <= |v| && BeforeAt(v, w, k);
    forall m | 0 <= m <= |w| ensures !BeforeAt(w, v, m) {
      OnePlaceDecides(v, w, k, m);
    }
  }

  lemma OnePlaceDecides(v: Walk, w: Walk, k: nat, m: nat)
    requires BeforeAt(v, w, k)
    ensures !BeforeAt(w, v, m)
  {
    assert forall i | 0 <= i < k :: v[i] == v[..k][i] == w[i];
    assert m <= |v| && m <= |w| && w[..m] == v[..m] ==> forall i | 0 <= i < m :: v[i] == v[..m][i] == w[i];
  }

  /** The row a line is about. */
  function RowOf(l: Line): nat
    requires l.walk != []
  {
    l.walk[|l.walk| - 1]
  }

  lemma LinesAreWalks(rows: seq<Row>, a: nat)
    requires Acyclic(rows) && a < |Tree(rows)|
    ensures IsWalk(rows, Tree(rows)[a].walk)
  {
    TreeListsAllWalks(rows);
    assert Covers(Tree(rows), Tree(rows)[a].walk);
  }

  lemma OrderOfLines(rows: seq<Row>, a: nat, b: nat)
    requires Acyclic(rows) && a < |Tree(rows)| && b < |Tree(rows)|
    ensures Before(Tree(rows)[a].walk, Tree(rows)[b].walk) <==> a < b
    ensures Tree(rows)[a].walk == Tree(rows)[b].walk ==> a == b
  {
    TreeListsAllWalks(rows);
    var v, w := Tree(rows)[a].walk, Tree(rows)[b].walk;
    if a < b {
      assert Before(v, w);
      BeforeIsStrict(v, w);
    } else if b < a {
      assert Before(w, v);
      BeforeIsStrict(w, v);
    } else if Before(v, w) {
      BeforeIsStrict(v, w);
    }
  }

  /**
   * When ids are distinct, a row has a line exactly when its parent links lead to a root, and then one; rows
   * on or below a cycle have none.
   */
  lemma OneLinePerRootedRow(rows: seq<Row>, i: nat)
    requires DistinctIds(rows)
    ensures Acyclic(rows)
    ensures forall a | 0 <= a < |Tree(rows)| :: IsWalk(rows, Tree(rows)[a].walk)
    ensures Rooted(rows, i) <==> exists a :: 0 <= a < |Tree(rows)| && RowOf(Tree(rows)[a]) == i
    ensures forall a, b | 0 <= a < |Tree(rows)| && 0 <= b < |Tree(rows)| ::
              RowOf(Tree(rows)[a]) == i && RowOf(Tree(rows)[b]) == i ==> a == b
  {
    DistinctIdsAreAcyclic(rows);
    var lines := Tree(rows);
    forall a | 0 <= a < |lines| ensures IsWalk(rows, lines[a].walk) {
      LinesAreWalks(rows, a);
    }
    if Rooted(rows, i) {
      RootedRowsHaveLines(rows, i);
    }
    forall a, b | 0 <= a < |lines| && 0 <= b < |lines| && RowOf(lines[a]) == i && RowOf(lines[b]) == i ensures a == b {
      OneWalkPerRow(rows, lines[a].walk, lines[b].walk);
      OrderOfLines(rows, a, b);
    }
  }

  lemma RootedRowsHaveLines(rows: seq<Row>, i: nat)
    requires Acyclic(rows) && Rooted(rows, i)
    ensures exists a :: 0 <= a < |Tree(rows)| && Tree(rows)[a].walk != [] && RowOf(Tree(rows)[a]) == i
  {
    TreeListsAllWalks(rows);
    var w :| IsWalk(rows, w) && w[|w| - 1] == i;
    assert Covers(Tree(rows), w);
    var a :| 0 <= a < |Tree(rows)| && Tree(rows)[a].walk == w;
    assert RowOf(Tree(rows)[a]) == i;
  }

  /** Two rows with the same parent, or two roots. */
  predicate Siblings(rows: seq<Row>, i: nat, j: nat)
    requires i < |rows| && j < |rows|
  {
    (IsRoot(rows, i) && IsRoot(rows, j)) || (IsChild(rows, rows[j].parent, i) && IsChild(rows, rows[i].parent, j))
  }

  /** When ids are distinct, a parent's line comes before its child's, and siblings' lines in input order. */
  lemma LinesAreInOrder(rows: seq<Row>, a: nat, b: nat)
    requires DistinctIds(rows) && Acyclic(rows) && a < |Tree(rows)| && b < |Tree(rows)|
    ensures IsWalk(rows, Tree(rows)[a].walk) && IsWalk(rows, Tree(rows)[b].walk)
    ensures var i, j := RowOf(Tree(rows)[a]), RowOf(Tree(rows)[b]);
            && (IsChild(rows, rows[i].id, j) ==> a < b)
            && (Siblings(rows, i, j) && i < j ==> a < b)
  {
    LinesAreWalks(rows, a);
    LinesAreWalks(rows, b);
    OrderOfLines(rows, a, b);
    WalksAreInOrder(rows, Tree(rows)[a].walk, Tree(rows)[b].walk);
  }

  lemma WalksAreInOrder(rows: seq<Row>, v: Walk, w: Walk)
    requires DistinctIds(rows) && IsWalk(rows, v) && IsWalk(rows, w)
    ensures var i, j := v[|v| - 1], w[|w| - 1];
            (IsChild(rows, rows[i].id, j) || (Siblings(rows, i, j) && i < j)) ==> Before(v, w)
  {
    var i, j := v[|v| - 1], w[|w| - 1];
    if IsChild(rows, rows[i].id, j) {
      assert IsWalk(rows, v + [j]);
      OneWalkPerRow(rows, v + [j], w);
      PrefixOrders(v, w);
    } else if Siblings(rows, i, j) && i < j {
      SiblingWalks(rows, v, w);
      SplitOrders(v, w, v[..|v| - 1], i, j);
    }
  }

  lemma EndsAtRoot(rows: seq<Row>, w: Walk)
    requires IsWalk(rows, w)
    ensures IsRoot(rows, w[|w| - 1]) <==> |w| == 1
  {
    if |w| > 1 {
      assert IsChild(rows, rows[w[|w| - 2]].id, w[|w| - 1]);
    }
  }

  lemma SiblingWalks(rows: seq<Row>, v: Walk, w: Walk)
    requires DistinctIds(rows) && IsWalk(rows, v) && IsWalk(rows, w)
    requires Siblings(rows, v[|v| - 1], w[|w| - 1])
    ensures v[..|v| - 1] == w[..|w| - 1]
    ensures v == v[..|v| - 1] + [v[|v| - 1]] && w == v[..|v| - 1] + [w[|w| - 1]]
  {
    var m, n := |v| - 1, |w| - 1;
    EndsAtRoot(rows, v);
    EndsAtRoot(rows, w);
    if m > 0 {
      assert IsChild(rows, rows[v[m - 1]].id, v[m]) && IsChild(rows, rows[w[n - 1]].id, w[n]);
      OneWalkPerRow(rows, v[..m], w[..n]);
    }
  }

  // ---------- The program ----------

  function Texts(lines: seq<Line>): seq<string> {
    if lines == [] then [] else [lines[0].text] + Texts(lines[1..])
  }

  lemma TextsInFront(l: Line, rest: seq<Line>)
    ensures Texts([l] + rest) == [l.text] + Texts(rest)
  {
    assert ([l] + rest)[1..] == rest;
  }

  lemma {:induction false} TextsConcat(a: seq<Line>, b: seq<Line>)
    ensures Texts(a + b) == Texts(a) + Texts(b)
  {
    if a == [] {
      assert a + b == b;
    } else {
      TextsConcat(a[1..], b);
      TextsInFront(a[0], a[1..] + b);
      assert a + b == [a[0]] + (a[1..] + b);
      Associative([a[0].text], Texts(a[1..]), Texts(b));
    }
  }

  lemma Associative(a: seq<string>, b: seq<string>, c: seq<string>)
    ensures a + b + c == a + (b + c)
  {
  }

  /** `children_map.get(id, [])`. */
  function ChildrenOf(children: map<string, seq<nat>>, id: string): seq<nat> {
    if id in children then children[id] else []
  }

  /** `children_map` after the first `n` rows. */
  function ChildrenMap(rows: seq<Row>, n: nat): map<string, seq<nat>>
    requires n <= |rows|
  {
    if n == 0 then map[]
    else
      var front := ChildrenMap(rows, n - 1);
      var parent := rows[n - 1].parent;
      if IsRoot(rows, n - 1) then front else front[parent := ChildrenOf(front, parent) + [n - 1]]
  }

  lemma {:induction false} ChildrenMapHasChildren(rows: seq<Row>, n: nat, id: string)
    requires n <= |rows|
    ensures ChildrenOf(ChildrenMap(rows, n), id) == Children(rows, id, n)
  {
    if n > 0 {
      ChildrenMapHasChildren(rows, n - 1, id);
      assert IsChild(rows, id, n - 1) <==> !IsRoot(rows, n - 1) && rows[n - 1].parent == id;
    }
  }

  /** The texts of a node's own line and of the lines below its first `n` children. */
  function Output(rows: seq<Row>, w: Walk, prefix: string, last: bool, n: nat): seq<string>
    requires Acyclic(rows) && IsWalk(rows, w) && n <= |Children(rows, rows[w[|w| - 1]].id, |rows|)|
  {
    [LineText(rows[w[|w| - 1]], prefix, last, |w| == 1)]
    + Texts(RenderChildren(rows, w, n, ChildPrefix(prefix, last, |w| == 1)))
  }

  lemma OutputOfNode(rows: seq<Row>, w: Walk, prefix: string, last: bool)
    requires Acyclic(rows) && IsWalk(rows, w)
    ensures Output(rows, w, prefix, last, 0) == [LineText(rows[w[|w| - 1]], prefix, last, |w| == 1)]
    ensures Texts(Render(rows, w, prefix, last))
         == Output(rows, w, prefix, last, |Children(rows, rows[w[|w| - 1]].id, |rows|)|)
  {
  }

  lemma OutputOfChild(rows: seq<Row>, w: Walk, prefix: string, last: bool, k: nat)
    requires Acyclic(rows) && IsWalk(rows, w) && k < |Children(rows, rows[w[|w| - 1]].id, |rows|)|
    ensures var children := Children(rows, rows[w[|w| - 1]].id, |rows|);
            && IsWalk(rows, w + [children[k]])
            && Output(rows, w, prefix, last, k)
               + Texts(Render(rows, w + [children[k]], ChildPrefix(prefix, last, |w| == 1), k == |children| - 1))
               == Output(rows, w, prefix, last, k + 1)
  {
    var children := Children(rows, rows[w[|w| - 1]].id, |rows|);
    var below := ChildPrefix(prefix, last, |w| == 1);
    NextIsWalk(rows, w, k);
    var before, more := RenderChildren(rows, w, k, below), Render(rows, w + [children[k]], below, k + 1 == |children|);
    TextsConcat(before, more);
    Associative([LineText(rows[w[|w| - 1]], prefix, last, |w| == 1)], Texts(before), Texts(more));
  }

  method RenderNode(rows: seq<Row>, children: map<string, seq<nat>>, ghost w: Walk, i: nat, prefix: string, last: bool,
                    root: bool)
    returns (output: seq<string>)
    requires Acyclic(rows) && IsWalk(rows, w) && i == w[|w| - 1] && (root <==> |w| == 1)
    requires children == ChildrenMap(rows, |rows|)
    ensures output == Texts(Render(rows, w, prefix, last))
    decreases |rows| + 1 - |w|
  {
    WalksAreShort(rows, w);
    ChildrenMapHasChildren(rows, |rows|, rows[i].id);
    output := [LineText(rows[i], prefix, last, root)];
    var childPrefix := ChildPrefix(prefix, last, root);
    var below := ChildrenOf(children, rows[i].id);
    OutputOfNode(rows, w, prefix, last);
    for k := 0 to |below|
      invariant output == Output(rows, w, prefix, last, k)
    {
      OutputOfChild(rows, w, prefix, last, k);
      var more := RenderNode(rows, children, w + [below[k]], below[k], childPrefix, k == |below| - 1, false);
      output := output + more;
    }
  }

  method Group(rows: seq<Row>) returns (roots: seq<nat>, children: map<string, seq<nat>>)
    ensures roots == Roots(rows, |rows|)
    ensures children == ChildrenMap(rows, |rows|)
  {
    roots, children := [], map[];
    for k := 0 to |rows|
      invariant roots == Roots(rows, k)
      invariant children == ChildrenMap(rows, k)
    {
      if IsRoot(rows, k) {
        roots := roots + [k];
      } else {
        children := children[rows[k].parent := ChildrenOf(children, rows[k].parent) + [k]];
      }
    }
  }

  method BuildTree(rows: seq<Row>) returns (lines: seq<string>)
    requires Acyclic(rows)
    ensures lines == if rows == [] then ["(No LangSmith runs recorded for this invocation)"] else Texts(Tree(rows))
  {
    if rows == [] {
      return ["(No LangSmith runs recorded for this invocation)"];
    }
    var roots, children := Group(rows);
    lines := [];
    for k := 0 to |roots|
      invariant lines == Texts(RenderRoots(rows, k))
    {
      RootIsWalk(rows, k);
      var more := RenderNode(rows, children, [roots[k]], roots[k], "", true, true);
      TextsConcat(RenderRoots(rows, k), Render(rows, [roots[k]], "", true));
      assert RenderRoots(rows, k + 1) == RenderRoots(rows, k) + Render(rows, [roots[k]], "", true);
      lines := lines + more;
    }
  }
}
