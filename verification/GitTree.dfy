/** Git-compatible blob and tree ids of a source directory (senecio_polymarket/backend/artifact_identity.py). */
module GitTree {
  import opened Prelude
  import opened Sorting

  type Bytes = seq<byte>

  /** SHA-1, as a parameter. */
  type Hash = Bytes -> Bytes

  const ID_LENGTH := 20

  ghost predicate HashOk(h: Hash) { forall x :: |h(x)| == ID_LENGTH }

  datatype Node = File(data: Bytes, executable: bool) | Link(target: Bytes) | Dir(entries: seq<Entry>) | Special

  datatype Entry = Entry(name: Bytes, node: Node)

  const SLASH: byte := '/' as int
  const SPACE: byte := ' ' as int
  const DOT_GIT: Bytes := [46, 103, 105, 116]
  const BLOB: Bytes := [98, 108, 111, 98]
  const TREE: Bytes := [116, 114, 101, 101]
  const DIR_MODE: Bytes := [52, 48, 48, 48, 48]
  const EXECUTABLE_MODE: Bytes := [49, 48, 48, 55, 53, 53]
  const FILE_MODE: Bytes := [49, 48, 48, 54, 52, 52]
  const LINK_MODE: Bytes := [49, 50, 48, 48, 48, 48]

  predicate NameOk(name: Bytes) { name != [] && SLASH !in name && 0 !in name }

  // ---- Sizes, for recursion over listings ----

  function NodeSize(n: Node): nat { match n case Dir(es) => 1 + ListSize(es) case _ => 0 }

  function ListSize(es: seq<Entry>): nat { if es == [] then 0 else 1 + NodeSize(es[0].node) + ListSize(es[1..]) }

  lemma {:induction false} EntryIsSmaller(es: seq<Entry>, i: nat)
    requires i < |es|
    ensures NodeSize(es[i].node) < ListSize(es)
  {
    if i > 0 { EntryIsSmaller(es[1..], i - 1); }
  }

  /** Names are proper and distinct and every entry is a file, a link or a directory of such. */
  ghost predicate ListingOk(es: seq<Entry>)
    decreases ListSize(es), 1
  {
    && (forall i :: 0 <= i < |es| ==> NameOk(es[i].name))
    && (forall i, j :: 0 <= i < j < |es| ==> es[i].name != es[j].name)
    && (forall i :: 0 <= i < |es| ==> (EntryIsSmaller(es, i); NodeOk(es[i].node)))
  }

  ghost predicate NodeOk(n: Node)
    decreases NodeSize(n), 0
  {
    match n case Dir(es) => ListingOk(es) case Special => false case _ => true
  }

  /** The same names, each with the same mode and contents. */
  ghost predicate SameListing(a: seq<Entry>, b: seq<Entry>)
    decreases ListSize(a), 1
  {
    |a| == |b| && forall i :: 0 <= i < |a| ==>
      (EntryIsSmaller(a, i); exists j :: 0 <= j < |b| && b[j].name == a[i].name && SameNode(a[i].node, b[j].node))
  }

  ghost predicate SameNode(a: Node, b: Node)
    decreases NodeSize(a), 0
  {
    match a
    case Dir(es) => b.Dir? && SameListing(es, b.entries)
    case _ => b == a
  }

  // ---- Ids ----

  function Digits(n: nat): (r: Bytes)
    ensures 0 !in r && SPACE !in r
  {
    if n < 10 then [48 + n] else Digits(n / 10) + [48 + n % 10]
  }

  /** The number the digits spell. */
  function Number(s: Bytes): int { if s == [] then 0 else 10 * Number(s[..|s| - 1]) + (s[|s| - 1] as int - '0' as int) }

  /** A number is written in decimal, without leading zeros. */
  lemma {:induction false} DigitsAreDecimal(n: nat)
    ensures var d := Digits(n);
            && (forall c <- d :: '0' as int <= c as int <= '9' as int) && Number(d) == n
            && d != [] && (d[0] as int == '0' as int ==> n == 0 && |d| == 1)
  {
    var d := Digits(n);
    if n < 10 {
      assert Number([]) == 0 && d[..0] == [];
    } else {
      DigitsAreDecimal(n / 10);
      assert d[..|d| - 1] == Digits(n / 10);
    }
  }

  /** ASCII text as bytes. */
  function Ascii(text: string): (r: Bytes)
    requires forall i :: 0 <= i < |text| ==> text[i] as int < 128
    ensures |r| == |text| && forall i :: 0 <= i < |r| ==> r[i] as int == text[i] as int
  {
    if text == "" then [] else [text[0] as int as byte] + Ascii(text[1..])
  }

  /** The words of the format. */
  lemma Words()
    ensures BLOB == Ascii("blob") && TREE == Ascii("tree") && DOT_GIT == Ascii(".git")
    ensures [SPACE] == Ascii(" ") && [SLASH] == Ascii("/")
  {
  }

  /** A name is proper if it is not empty and holds neither a slash nor a zero byte. */
  lemma NameOkIff(name: Bytes)
    ensures NameOk(name) <==> name != [] && forall b <- name :: b as int != '/' as int && b != 0
  {
  }

  /** What the object id of a payload hashes. */
  function ObjectInput(kind: Bytes, payload: Bytes): Bytes { kind + [SPACE] + Digits(|payload|) + [0] + payload }

  function Mode(n: Node): Bytes {
    match n
    case File(_, executable) => if executable then EXECUTABLE_MODE else FILE_MODE
    case Link(_) => LINK_MODE
    case _ => DIR_MODE
  }

  /** The modes git writes for directories, links and files with and without the owner's execute bit. */
  lemma ModeIs(n: Node)
    ensures n.Dir? ==> Mode(n) == Ascii("40000")
    ensures n.Link? ==> Mode(n) == Ascii("120000")
    ensures n.File? ==> Mode(n) == if n.executable then Ascii("100755") else Ascii("100644")
  {
  }

  /** One entry's line; `key` is its name, with a slash behind a directory's. */
  datatype Line = Line(key: Bytes, mode: Bytes, name: Bytes, oid: Bytes)

  function LineBytes(l: Line): Bytes { l.mode + [SPACE] + l.name + [0] + l.oid }

  function Rank(b: byte): int { b }

  predicate LineLe(a: Line, b: Line) { LexLe(a.key, b.key, Rank) }

  function Concat(lines: seq<Line>): Bytes { if lines == [] then [] else LineBytes(lines[0]) + Concat(lines[1..]) }

  function NodeInput(h: Hash, n: Node): Bytes
    decreases NodeSize(n), 0
  {
    match n
    case File(data, _) => ObjectInput(BLOB, data)
    case Link(target) => ObjectInput(BLOB, target)
    case Dir(es) => TreeInput(h, es)
    case Special => []
  }

  function LineOf(h: Hash, e: Entry): Line
    decreases NodeSize(e.node), 1
  {
    Line(e.name + (if e.node.Dir? then [SLASH] else []), Mode(e.node), e.name, h(NodeInput(h, e.node)))
  }

  function Lines(h: Hash, es: seq<Entry>): (r: seq<Line>)
    ensures |r| == |es|
    decreases ListSize(es), 0
  {
    if es == [] then [] else [LineOf(h, es[0])] + Lines(h, es[1..])
  }

  function TreeInput(h: Hash, es: seq<Entry>): Bytes
    decreases ListSize(es), 1
  {
    ObjectInput(TREE, Concat(Sort(Lines(h, es), LineLe)))
  }

  /** `_git_tree_id`. */
  function TreeId(h: Hash, es: seq<Entry>): Bytes { h(TreeInput(h, es)) }

  lemma {:induction false} LinesAt(h: Hash, es: seq<Entry>, i: nat)
    requires i < |es|
    ensures Lines(h, es)[i] == LineOf(h, es[i])
  {
    if i > 0 { LinesAt(h, es[1..], i - 1); }
  }

  // ---- Equal ids mean equal trees ----

  /** Everything that is hashed for a listing's entries. */
  ghost function Inputs(h: Hash, es: seq<Entry>): set<Bytes>
    decreases ListSize(es)
  {
    if es == [] then {} else NodeInputs(h, es[0].node) + Inputs(h, es[1..])
  }

  ghost function NodeInputs(h: Hash, n: Node): set<Bytes>
    decreases NodeSize(n)
  {
    {NodeInput(h, n)} + (if n.Dir? then Inputs(h, n.entries) else {})
  }

  /** The hash tells these inputs apart. */
  ghost predicate CollisionFree(h: Hash, inputs: set<Bytes>) {
    forall x, y :: x in inputs && y in inputs && h(x) == h(y) ==> x == y
  }

  lemma {:induction false} InputsOfEntry(h: Hash, es: seq<Entry>, i: nat)
    requires i < |es|
    ensures NodeInputs(h, es[i].node) <= Inputs(h, es)
  {
    if i > 0 { InputsOfEntry(h, es[1..], i - 1); }
  }

  lemma SplitAt(sep: byte, a: Bytes, x: Bytes, b: Bytes, y: Bytes)
    requires a + [sep] + x == b + [sep] + y && sep !in a && sep !in b
    ensures a == b && x == y
  {
    var s := a + [sep] + x;
    assert s[|a|] == sep && s[|b|] == sep;
    assert |a| == |b|;
    assert s[..|a|] == a && s[..|b|] == b;
    assert s[|a| + 1..] == x && s[|b| + 1..] == y;
  }

  /** An object's input determines its payload. */
  lemma ObjectInputSplits(kind: Bytes, x: Bytes, y: Bytes)
    requires 0 !in kind && ObjectInput(kind, x) == ObjectInput(kind, y)
    ensures x == y
  {
    hide Digits;
    SplitAt(0, kind + [SPACE] + Digits(|x|), x, kind + [SPACE] + Digits(|y|), y);
  }

  ghost predicate LineOk(l: Line) {
    && 0 !in l.mode && SPACE !in l.mode && 0 !in l.name && |l.oid| == ID_LENGTH
    && l.key == l.name + (if l.mode == DIR_MODE then [SLASH] else [])
  }

  lemma LineIsOk(h: Hash, e: Entry)
    requires HashOk(h) && NameOk(e.name) && NodeOk(e.node)
    ensures LineOk(LineOf(h, e))
  {
    hide NodeInput;
    assert DIR_MODE[1] == 48 && EXECUTABLE_MODE[1] == 48 && FILE_MODE[1] == 48 && LINK_MODE[1] == 50;
    assert EXECUTABLE_MODE[0] != DIR_MODE[0] && FILE_MODE[0] != DIR_MODE[0] && LINK_MODE[0] != DIR_MODE[0];
  }

  /** A line and whatever follows it can be told apart. */
  lemma LineSplits(l: Line, m: Line, x: Bytes, y: Bytes)
    requires LineOk(l) && LineOk(m) && LineBytes(l) + x == LineBytes(m) + y
    ensures l == m && x == y
  {
    assert LineBytes(l) + x == (l.mode + [SPACE] + l.name) + [0] + (l.oid + x);
    assert LineBytes(m) + y == (m.mode + [SPACE] + m.name) + [0] + (m.oid + y);
    SplitAt(0, l.mode + [SPACE] + l.name, l.oid + x, m.mode + [SPACE] + m.name, m.oid + y);
    SplitAt(SPACE, l.mode, l.name, m.mode, m.name);
    assert (l.oid + x)[..ID_LENGTH] == l.oid && (m.oid + y)[..ID_LENGTH] == m.oid;
    assert (l.oid + x)[ID_LENGTH..] == x && (m.oid + y)[ID_LENGTH..] == y;
  }

  /** A tree's payload determines its lines. */
  lemma {:induction false} ConcatSplits(a: seq<Line>, b: seq<Line>)
    requires (forall l <- a :: LineOk(l)) && (forall l <- b :: LineOk(l)) && Concat(a) == Concat(b)
    ensures a == b
  {
    hide LineOk, LineBytes;
    if a == [] || b == [] {
      NoLines(a);
      NoLines(b);
    } else {
      assert a[0] in a && b[0] in b;
      LineSplits(a[0], b[0], Concat(a[1..]), Concat(b[1..]));
      assert (forall l <- a[1..] :: l in a) && forall l <- b[1..] :: l in b;
      ConcatSplits(a[1..], b[1..]);
      assert a == [a[0]] + a[1..] && b == [b[0]] + b[1..];
    }
  }

  lemma NoLines(a: seq<Line>)
    ensures Concat(a) == [] <==> a == []
  {
  }

  /** The lines of a listing are proper, and each is an entry's. */
  lemma LinesAreOk(h: Hash, es: seq<Entry>)
    requires HashOk(h) && ListingOk(es)
    ensures forall l <- Lines(h, es) :: LineOk(l)
    ensures forall l <- Lines(h, es) :: exists i :: 0 <= i < |es| && l == LineOf(h, es[i])
    ensures NoRepeats(Lines(h, es))
  {
    hide LineOk, Lines, NodeInput;
    var lines := Lines(h, es);
    forall k | 0 <= k < |lines| ensures lines[k] == LineOf(h, es[k]) && LineOk(lines[k]) && lines[k].name == es[k].name {
      LinesAt(h, es, k);
      assert NodeOk(es[k].node);
      LineIsOk(h, es[k]);
    }
  }

  lemma NodesAgree(h: Hash, m: Node, n: Node, inputs: set<Bytes>)
    requires HashOk(h) && NodeOk(m) && NodeOk(n) && NodeInputs(h, m) <= inputs && NodeInputs(h, n) <= inputs
    requires CollisionFree(h, inputs) && Mode(m) == Mode(n) && h(NodeInput(h, m)) == h(NodeInput(h, n))
    ensures SameNode(m, n)
    decreases NodeSize(m), 0
  {
    hide ObjectInput, Inputs;
    assert DIR_MODE[1] == 48 && LINK_MODE[1] == 50 && EXECUTABLE_MODE[1] == 48 && FILE_MODE[1] == 48;
    assert EXECUTABLE_MODE[0] != DIR_MODE[0] && FILE_MODE[0] != DIR_MODE[0] && EXECUTABLE_MODE[3] != FILE_MODE[3];
    assert NodeInput(h, m) == NodeInput(h, n);
    match m
    case File(data, _) => ObjectInputSplits(BLOB, data, n.data);
    case Link(target) => ObjectInputSplits(BLOB, target, n.target);
    case Dir(es) => InputsDetermine(h, es, n.entries, inputs);
  }

  lemma InputsDetermine(h: Hash, a: seq<Entry>, b: seq<Entry>, inputs: set<Bytes>)
    requires HashOk(h) && ListingOk(a) && ListingOk(b) && Inputs(h, a) <= inputs && Inputs(h, b) <= inputs
    requires CollisionFree(h, inputs) && TreeInput(h, a) == TreeInput(h, b)
    ensures SameListing(a, b)
    decreases ListSize(a), 1
  {
    hide ObjectInput, NodeInput, CollisionFree, NodeInputs, Sort, Lines, LineOk, Concat, Mode, SameNode, NodeOk, NameOk;
    SortedLinesAgree(h, a, b);
    forall i | 0 <= i < |a| ensures exists j :: 0 <= j < |b| && b[j].name == a[i].name && SameNode(a[i].node, b[j].node) {
      LinesAt(h, a, i);
      assert Lines(h, a)[i] in Lines(h, a);
      var j :| 0 <= j < |b| && LineOf(h, a[i]) == LineOf(h, b[j]);
      InputsOfEntry(h, a, i);
      InputsOfEntry(h, b, j);
      EntryIsSmaller(a, i);
      assert NodeOk(a[i].node) && NodeOk(b[j].node);
      NodesAgree(h, a[i].node, b[j].node, inputs);
      assert b[j].name == a[i].name && SameNode(a[i].node, b[j].node);
    }
  }

  /** Equal tree inputs: the listings have the same lines. */
  lemma SortedLinesAgree(h: Hash, a: seq<Entry>, b: seq<Entry>)
    requires HashOk(h) && ListingOk(a) && ListingOk(b) && TreeInput(h, a) == TreeInput(h, b)
    ensures |a| == |b| && forall l <- Lines(h, a) :: exists j :: 0 <= j < |b| && l == LineOf(h, b[j])
  {
    hide ObjectInput, NodeInput, Sort, Lines, LineOk, Concat, ListingOk, LineOf;
    var la, lb := Sort(Lines(h, a), LineLe), Sort(Lines(h, b), LineLe);
    ObjectInputSplits(TREE, Concat(la), Concat(lb));
    LinesAreOk(h, a);
    LinesAreOk(h, b);
    SameMultisetSameMembers(la, Lines(h, a));
    SameMultisetSameMembers(lb, Lines(h, b));
    ConcatSplits(la, lb);
  }

  /** Where the hash collides on nothing it was given, equal tree ids mean equal trees: the same names, each with the
      same mode and contents, all the way down. */
  lemma EqualIdsEqualTrees(h: Hash, a: seq<Entry>, b: seq<Entry>)
    requires HashOk(h) && ListingOk(a) && ListingOk(b) && TreeId(h, a) == TreeId(h, b)
    requires CollisionFree(h, {TreeInput(h, a), TreeInput(h, b)} + Inputs(h, a) + Inputs(h, b))
    ensures SameListing(a, b)
  {
    hide TreeInput, SameListing, ListingOk;
    InputsDetermine(h, a, b, {TreeInput(h, a), TreeInput(h, b)} + Inputs(h, a) + Inputs(h, b));
  }

  // ---- Equal trees have equal ids, whatever the order of their directory listings ----

  lemma LineLeIsTotal()
    ensures TotalPreorder(LineLe)
  {
    hide LexLe;
    forall a: Line, b: Line ensures LineLe(a, b) || LineLe(b, a) { LexTotal(a.key, b.key, Rank); }
    forall a: Line, b: Line, c: Line | LineLe(a, b) && LineLe(b, c) ensures LineLe(a, c) { LexTransitive(a.key, b.key, c.key, Rank); }
  }

  /** Different entries have different keys, as no name has a slash. */
  lemma KeysTellApart(h: Hash, es: seq<Entry>, x: Line, y: Line)
    requires HashOk(h) && ListingOk(es) && x in Lines(h, es) && y in Lines(h, es) && LineLe(x, y) && LineLe(y, x)
    ensures x == y
  {
    hide Lines, NodeInput, LexLe, NodeOk;
    LinesAreOk(h, es);
    var i :| 0 <= i < |es| && x == LineOf(h, es[i]);
    var j :| 0 <= j < |es| && y == LineOf(h, es[j]);
    LexAntisymmetric(x.key, y.key, Rank);
    SlashFree(es[i].name, es[j].name, es[i].node.Dir?, es[j].node.Dir?);
  }

  lemma EndsWithSlash(a: Bytes, dir: bool)
    requires SLASH !in a
    ensures SLASH in a + (if dir then [SLASH] else []) <==> dir
  {
    if dir { assert (a + [SLASH])[|a|] == SLASH; }
  }

  lemma SlashFree(a: Bytes, b: Bytes, aDir: bool, bDir: bool)
    requires SLASH !in a && SLASH !in b && a + (if aDir then [SLASH] else []) == b + (if bDir then [SLASH] else [])
    ensures a == b
  {
    var x, y := a + (if aDir then [SLASH] else []), b + (if bDir then [SLASH] else []);
    EndsWithSlash(a, aDir);
    EndsWithSlash(b, bDir);
    assert aDir == bDir;
    assert x[..|a|] == a && y[..|b|] == b;
  }

  lemma SameNodeSameInput(h: Hash, m: Node, n: Node)
    requires HashOk(h) && NodeOk(m) && NodeOk(n) && SameNode(m, n)
    ensures NodeInput(h, m) == NodeInput(h, n) && Mode(m) == Mode(n) && m.Dir? == n.Dir?
    decreases NodeSize(m), 0
  {
    if m.Dir? { SameListingSameInput(h, m.entries, n.entries); }
  }

  lemma SameListingSameInput(h: Hash, a: seq<Entry>, b: seq<Entry>)
    requires HashOk(h) && ListingOk(a) && ListingOk(b) && SameListing(a, b)
    ensures TreeInput(h, a) == TreeInput(h, b)
    decreases ListSize(a), 1
  {
    hide NodeInput, Lines, NodeOk, NameOk, Sort, LineOk, LineLe, SameNode;
    LinesAreOk(h, a);
    LinesAreOk(h, b);
    forall l | l in Lines(h, a) ensures l in Lines(h, b) {
      var i :| 0 <= i < |a| && l == LineOf(h, a[i]);
      EntryIsSmaller(a, i);
      var j :| 0 <= j < |b| && b[j].name == a[i].name && SameNode(a[i].node, b[j].node);
      assert NodeOk(a[i].node) && NodeOk(b[j].node);
      SameNodeSameInput(h, a[i].node, b[j].node);
      LinesAt(h, b, j);
      assert Lines(h, b)[j] == l;
    }
    SameMembers(Lines(h, a), Lines(h, b));
    var la, lb := Sort(Lines(h, a), LineLe), Sort(Lines(h, b), LineLe);
    LineLeIsTotal();
    SortSorted(Lines(h, a), LineLe);
    SortSorted(Lines(h, b), LineLe);
    SameMultisetSameMembers(la, Lines(h, a));
    SameMultisetSameMembers(lb, Lines(h, b));
    PermutationNoRepeats(Lines(h, a), la);
    PermutationNoRepeats(Lines(h, b), lb);
    forall x, y | x in la && y in la && LineLe(x, y) && LineLe(y, x) ensures x == y { KeysTellApart(h, a, x, y); }
    SameMembersSameArrangement(la, lb, LineLe);
  }

  lemma SameMembers(a: seq<Line>, b: seq<Line>)
    requires NoRepeats(a) && NoRepeats(b) && |a| == |b| && forall l <- a :: l in b
    ensures forall l :: l in a <==> l in b
  {
    var x, y := set l | l in a, set l | l in b;
    NoRepeatsSize(a, x);
    NoRepeatsSize(b, y);
    SubsetOfSameSize(x, y);
    forall l ensures l in a <==> l in b { assert l in a <==> l in x; assert l in b <==> l in y; }
  }

  lemma EqualTreesEqualIds(h: Hash, a: seq<Entry>, b: seq<Entry>)
    requires HashOk(h) && ListingOk(a) && ListingOk(b) && SameListing(a, b)
    ensures TreeId(h, a) == TreeId(h, b)
  {
    hide TreeInput;
    SameListingSameInput(h, a, b);
  }

  // ---- The format ----

  /** In byte order a comes before b: by the first byte in which they differ, or as its beginning. */
  ghost predicate Before(a: Bytes, b: Bytes) {
    exists k: nat :: k <= |a| && k < |b| && a[..k] == b[..k] && (k == |a| || a[k] < b[k])
  }

  lemma {:induction false} FirstDifference(a: Bytes, b: Bytes)
    requires LexLe(a, b, Rank) && a != b
    ensures Before(a, b)
  {
    if a != [] && a[0] == b[0] {
      assert a == [a[0]] + a[1..] && b == [b[0]] + b[1..];
      FirstDifference(a[1..], b[1..]);
      var k: nat :| k <= |a| - 1 && k < |b| - 1 && a[1..][..k] == b[1..][..k] && (k == |a| - 1 || a[1..][k] < b[1..][k]);
      assert a[..k + 1] == [a[0]] + a[1..][..k] && b[..k + 1] == [b[0]] + b[1..][..k];
    } else {
      assert a[..0] == b[..0];
    }
  }

  /** The line of an entry, as git writes it, and the name it is sorted by. */
  ghost predicate LineFor(h: Hash, e: Entry, l: Line) {
    && l.key == e.name + (if e.node.Dir? then Ascii("/") else [])
    && LineBytes(l) == Mode(e.node) + Ascii(" ") + e.name + [0] + h(NodeInput(h, e.node))
  }

  /** One line for each entry, in byte order of the names, a directory's with a slash. */
  ghost predicate GitLines(h: Hash, es: seq<Entry>, lines: seq<Line>) {
    && |lines| == |es| && (forall i, j :: 0 <= i < j < |lines| ==> Before(lines[i].key, lines[j].key))
    && (forall l <- lines :: exists e <- es :: LineFor(h, e, l)) && forall e <- es :: exists l <- lines :: LineFor(h, e, l)
  }

  /** A tree object is its header and those lines. */
  lemma TreeFormat(h: Hash, es: seq<Entry>)
    requires HashOk(h) && ListingOk(es)
    ensures exists lines: seq<Line> ::
              && GitLines(h, es, lines)
              && TreeInput(h, es) == Ascii("tree") + Ascii(" ") + Digits(|Concat(lines)|) + [0] + Concat(lines)
  {
    hide Sort, Lines, LineLe, Mode, ListingOk, GitLines, Concat;
    var lines := Sort(Lines(h, es), LineLe);
    Words();
    SortedLinesAreGit(h, es);
    assert TreeInput(h, es) == Ascii("tree") + Ascii(" ") + Digits(|Concat(lines)|) + [0] + Concat(lines);
  }

  lemma SortedLinesAreGit(h: Hash, es: seq<Entry>)
    requires HashOk(h) && ListingOk(es)
    ensures GitLines(h, es, Sort(Lines(h, es), LineLe))
  {
    hide Sort, Lines, LineLe, LineFor, Before, ListingOk, HashOk;
    var all := Lines(h, es);
    var lines := Sort(all, LineLe);
    LineLeIsTotal();
    SortSorted(all, LineLe);
    SameMultisetSameMembers(lines, all);
    forall i, j | 0 <= i < j < |lines| ensures Before(lines[i].key, lines[j].key) { KeysRise(h, es, lines, i, j); }
    forall i | 0 <= i < |es| ensures LineFor(h, es[i], all[i]) {
      LinesAt(h, es, i);
      LineForEntry(h, es[i]);
    }
    forall l | l in lines ensures exists e <- es :: LineFor(h, e, l) {
      var i :| 0 <= i < |all| && all[i] == l;
      assert es[i] in es;
    }
    forall e | e in es ensures exists l <- lines :: LineFor(h, e, l) {
      var i :| 0 <= i < |es| && es[i] == e;
      assert all[i] in lines;
    }
    assert |multiset(lines)| == |multiset(all)|;
  }

  lemma LineForEntry(h: Hash, e: Entry)
    ensures LineFor(h, e, LineOf(h, e))
  {
    hide Mode;
    Words();
  }

  lemma KeysRise(h: Hash, es: seq<Entry>, lines: seq<Line>, i: nat, j: nat)
    requires HashOk(h) && ListingOk(es) && multiset(lines) == multiset(Lines(h, es)) && Sorted(lines, LineLe) && i < j < |lines|
    ensures Before(lines[i].key, lines[j].key)
  {
    hide Lines, ListingOk, LexLe, Before;
    SameMultisetSameMembers(lines, Lines(h, es));
    LinesAreOk(h, es);
    PermutationNoRepeats(Lines(h, es), lines);
    assert lines[i] in lines && lines[j] in lines && LineLe(lines[i], lines[j]);
    if lines[i].key == lines[j].key { KeysTellApart(h, es, lines[i], lines[j]); }
    FirstDifference(lines[i].key, lines[j].key);
  }

  // ---- The algorithm ----

  datatype TreeError = NameInvalid | UnsupportedEntry

  /** A directory that can be hashed: proper names, and nothing but files, links and such directories. */
  ghost predicate Hashable(es: seq<Entry>)
    decreases ListSize(es), 1
  {
    forall i :: 0 <= i < |es| ==> (EntryIsSmaller(es, i); NameOk(es[i].name) && NodeHashable(es[i].node))
  }

  ghost predicate NodeHashable(n: Node)
    decreases NodeSize(n), 0
  {
    match n case Dir(es) => Hashable(es) case Special => false case _ => true
  }

  /** The entries of the source root, without the repository's own directory. */
  function WithoutGit(es: seq<Entry>): seq<Entry> {
    if es == [] then [] else WithoutGit(es[..|es| - 1]) + (if es[|es| - 1].name == DOT_GIT then [] else [es[|es| - 1]])
  }

  function Kept(es: seq<Entry>, root: bool): seq<Entry> { if root then WithoutGit(es) else es }

  lemma {:induction false} LinesSnoc(h: Hash, es: seq<Entry>, e: Entry)
    ensures Lines(h, es + [e]) == Lines(h, es) + [LineOf(h, e)]
  {
    hide LineOf;
    if es == [] {
      assert [] + [e] == [e] && [e][1..] == [];
    } else {
      assert (es + [e])[1..] == es[1..] + [e];
      LinesSnoc(h, es[1..], e);
    }
  }

  lemma KeptSnoc(es: seq<Entry>, i: nat, root: bool)
    requires i < |es|
    ensures Kept(es[..i + 1], root) == Kept(es[..i], root) + (if root && es[i].name == DOT_GIT then [] else [es[i]])
  {
    assert es[..i + 1][..i] == es[..i];
  }

  lemma HashableSnoc(es: seq<Entry>, e: Entry)
    requires Hashable(es)
    ensures Hashable(es + [e]) <==> NameOk(e.name) && NodeHashable(e.node)
  {
    var all := es + [e];
    assert all[|es|] == e;
    forall i | 0 <= i < |es| ensures NameOk(all[i].name) && NodeHashable(all[i].node) { assert all[i] == es[i]; }
  }

  /** An entry that cannot be hashed spoils every longer listing. */
  lemma {:induction false} SpoiledStays(es: seq<Entry>, i: nat, root: bool)
    requires i <= |es| && !Hashable(Kept(es[..i], root))
    ensures !Hashable(Kept(es, root))
    decreases |es| - i
  {
    hide NameOk, NodeHashable;
    if i == |es| {
      assert es[..i] == es;
    } else {
      KeptSnoc(es, i, root);
      var now, next := Kept(es[..i], root), Kept(es[..i + 1], root);
      var bad :| 0 <= bad < |now| && !(NameOk(now[bad].name) && NodeHashable(now[bad].node));
      assert next[bad] == now[bad];
      SpoiledStays(es, i + 1, root);
    }
  }

  /** `_git_tree_id`: fill the entry list while recursing, sort it, hash it. */
  method GitTreeId(h: Hash, directory: seq<Entry>, root: bool) returns (r: Result<Bytes, TreeError>)
    ensures r.Ok? <==> Hashable(Kept(directory, root))
    ensures r.Ok? ==> r.value == TreeId(h, Kept(directory, root))
    decreases ListSize(directory)
  {
    hide ObjectInput, Sort, LineOf, Hashable, NodeHashable, NameOk;
    var lines: seq<Line>, i := [], 0;
    NothingKept(h, root);
    assert directory[..0] == [];
    while i < |directory|
      invariant i <= |directory|
      invariant lines == Lines(h, Kept(directory[..i], root)) && Hashable(Kept(directory[..i], root))
    {
      hide Kept, Lines;
      var e := directory[i];
      KeptSnoc(directory, i, root);
      ghost var kept := Kept(directory[..i], root);
      if root && e.name == DOT_GIT {
        assert kept + [] == kept;
        i := i + 1;
        continue;
      }
      HashableSnoc(kept, e);
      LinesSnoc(h, kept, e);
      if !NameOk(e.name) {
        SpoiledStays(directory, i + 1, root);
        return Err(NameInvalid);
      }
      EntryIsSmaller(directory, i);
      var line := EntryLine(h, e);
      if line.Err? {
        SpoiledStays(directory, i + 1, root);
        return Err(line.error);
      }
      lines, i := lines + [line.value], i + 1;
    }
    assert directory[..|directory|] == directory;
    return Ok(h(ObjectInput(TREE, Concat(Sort(lines, LineLe)))));
  }

  lemma NothingKept(h: Hash, root: bool)
    ensures Kept([], root) == [] && Lines(h, Kept([], root)) == [] && Hashable(Kept([], root))
  {
  }

  /** One entry's line, a directory's through its own tree id. */
  method EntryLine(h: Hash, e: Entry) returns (r: Result<Line, TreeError>)
    ensures r.Ok? <==> NodeHashable(e.node)
    ensures r.Ok? ==> r.value == LineOf(h, e)
    decreases NodeSize(e.node)
  {
    hide ObjectInput, Hashable;
    var oid;
    match e.node {
      case Special => return Err(UnsupportedEntry);
      case File(data, _) => oid := h(ObjectInput(BLOB, data));
      case Link(target) => oid := h(ObjectInput(BLOB, target));
      case Dir(es) =>
        var id := GitTreeId(h, es, false);
        if id.Err? { return Err(id.error); }
        oid := id.value;
    }
    return Ok(Line(e.name + (if e.node.Dir? then [SLASH] else []), Mode(e.node), e.name, oid));
  }
}
