/** quoteEnvValues and stripMissingImagePullSecrets (controllers/template_apply.go) as they run: the
    decoder's objects are maps on the heap, changed in place. ManifestTree says what the rewrites mean. */
module ManifestRewriter {
  import opened Common
  import opened ManifestTree

  /** The decoder's value: a scalar, a list of values, or a reference to an object. */
  datatype Node = Leaf(value: Json) | Items(items: seq<Node>) | Ref(fields: Fields)

  class Fields {
    var at: map<string, Node>

    constructor (at: map<string, Node>)
      ensures this.at == at
    {
      this.at := at;
    }
  }

  /** How a decoded tree lies on the heap: the same tree, with the object behind each node, and the
      objects that are its own. */
  datatype Layout =
    | Plain(value: Json)
    | Row(items: seq<Layout>, objects: set<Fields>)
    | Box(self: Fields, kids: map<string, Layout>, objects: set<Fields>)

  ghost function Own(l: Layout): set<Fields> { if l.Plain? then {} else l.objects }

  ghost function NodeOf(l: Layout): Node {
    match l
    case Plain(v) => Leaf(v)
    case Row(items, _) => Items(seq(|items|, i requires 0 <= i < |items| => NodeOf(items[i])))
    case Box(b, _, _) => Ref(b)
  }

  ghost function TreeOf(l: Layout): Json {
    match l
    case Plain(v) => v
    case Row(items, _) => List(seq(|items|, i requires 0 <= i < |items| => TreeOf(items[i])))
    case Box(_, kids, _) => Object(map k | k in kids :: TreeOf(kids[k]))
  }

  /** A tree, with no object in it twice: what decoding a document builds. */
  ghost predicate IsTree(l: Layout) {
    match l
    case Plain(v) => !v.List? && !v.Object?
    case Row(items, own) =>
      && (forall i :: 0 <= i < |items| ==> IsTree(items[i]) && Own(items[i]) <= own)
      && (forall i, j :: 0 <= i < j < |items| ==> Own(items[i]) !! Own(items[j]))
    case Box(b, kids, own) =>
      && b in own
      && (forall k :: k in kids ==> IsTree(kids[k]) && Own(kids[k]) <= own && b !in Own(kids[k]))
      && (forall k, m :: k in kids && m in kids && k != m ==> Own(kids[k]) !! Own(kids[m]))
  }

  /** The heap holds it. */
  ghost predicate Holds(l: Layout)
    requires IsTree(l)
    reads Own(l)
  {
    match l
    case Plain(_) => true
    case Row(items, _) => forall i :: 0 <= i < |items| ==> Holds(items[i])
    case Box(b, kids, _) =>
      && b.at == (map k | k in kids :: NodeOf(kids[k]))
      && forall k :: k in kids ==> Holds(kids[k])
  }

  ghost predicate Laid(l: Layout)
    reads Own(l)
  {
    IsTree(l) && Holds(l)
  }

  lemma RowIsLaid(was: seq<Layout>, now: seq<Layout>, own: set<Fields>)
    requires IsTree(Row(was, own)) && |now| == |was|
    requires forall i :: 0 <= i < |was| ==> Laid(now[i]) && Own(now[i]) == Own(was[i])
    ensures Laid(Row(now, own))
  {
  }

  lemma BoxIsLaid(b: Fields, was: map<string, Layout>, now: map<string, Layout>, own: set<Fields>)
    requires IsTree(Box(b, was, own)) && now.Keys == was.Keys && b.at == map k | k in was :: NodeOf(was[k])
    requires forall k :: k in was ==> Laid(now[k]) && Own(now[k]) == Own(was[k]) && NodeOf(now[k]) == NodeOf(was[k])
    ensures Laid(Box(b, now, own))
  {
  }

  // ----- quoteEnvValues -----

  ghost function QuotedEntry(h: Host, l: Layout): Layout {
    if l.Box? && Variable in l.kids && l.kids[Variable].Plain?
    then l.(kids := l.kids[Variable := Plain(QuoteScalar(h, l.kids[Variable].value))])
    else l
  }

  ghost function QuotedEnv(h: Host, l: Layout): Layout
    requires l.Row?
  {
    l.(items := seq(|l.items|, i requires 0 <= i < |l.items| => QuotedEntry(h, l.items[i])))
  }

  ghost function QuotedKid(h: Host, k: string, l: Layout): Layout
    decreases l, 1
  {
    if k == Env && l.Row? then QuotedEnv(h, l) else QuotedAll(h, l)
  }

  ghost function QuotedAll(h: Host, l: Layout): Layout
    decreases l, 0
  {
    match l
    case Plain(_) => l
    case Row(items, own) => Row(seq(|items|, i requires 0 <= i < |items| => QuotedAll(h, items[i])), own)
    case Box(b, kids, own) => Box(b, map k | k in kids :: QuotedKid(h, k, kids[k]), own)
  }

  lemma OwnQuoted(h: Host, l: Layout)
    ensures Own(QuotedAll(h, l)) == Own(l) && Own(QuotedEntry(h, l)) == Own(l)
    ensures l.Row? ==> Own(QuotedEnv(h, l)) == Own(l)
  {
  }

  method QuoteEnvValues(h: Host, node: Node, ghost l: Layout)
    requires node == NodeOf(l) && Laid(l)
    modifies Own(l)
    ensures Laid(QuotedAll(h, l))
    decreases l, 1
  {
    match node
    case Leaf(_) =>
    case Items(items) => QuoteItems(h, items, l);
    case Ref(b) => QuoteFields(h, b, l);
  }

  method QuoteItems(h: Host, items: seq<Node>, ghost l: Layout)
    requires l.Row? && Items(items) == NodeOf(l) && Laid(l)
    modifies Own(l)
    ensures Laid(QuotedAll(h, l))
    decreases l, 0
  {
    for i := 0 to |items|
      invariant forall j :: 0 <= j < |items| ==> Laid(if j < i then QuotedAll(h, l.items[j]) else l.items[j])
    {
      assert Laid(l.items[i]);
      QuoteEnvValues(h, items[i], l.items[i]);
    }
    RowIsLaid(l.items, QuotedAll(h, l).items, l.objects);
  }

  method QuoteFields(h: Host, b: Fields, ghost l: Layout)
    requires l.Box? && l.self == b && Laid(l)
    modifies Own(l)
    ensures Laid(QuotedAll(h, l))
    decreases l, 0
  {
    var left := b.at.Keys;
    QuotedKidsOwn(h, l);
    while left != {}
      invariant left <= l.kids.Keys
      invariant b.at == (map k | k in l.kids :: NodeOf(l.kids[k]))
      invariant forall k :: k in l.kids ==> Laid(if k in left then l.kids[k] else QuotedKid(h, k, l.kids[k]))
      decreases left
    {
      var k :| k in left;
      assert Laid(l.kids[k]);
      KidApart(l, k);
      QuoteChild(h, k, b.at[k], l.kids[k]);
      left := left - {k};
    }
    AllKidsQuoted(h, l);
  }

  lemma {:induction false} QuotedKidsOwn(h: Host, l: Layout)
    requires l.Box?
    ensures forall k :: k in l.kids ==> Own(QuotedKid(h, k, l.kids[k])) == Own(l.kids[k])
  {
    forall k | k in l.kids ensures Own(QuotedKid(h, k, l.kids[k])) == Own(l.kids[k]) { QuotedKidNode(h, k, l.kids[k]); }
  }

  lemma {:induction false} KidApart(l: Layout, k: string)
    requires l.Box? && IsTree(l) && k in l.kids
    ensures l.self !in Own(l.kids[k]) && forall j :: j in l.kids && j != k ==> Own(l.kids[j]) !! Own(l.kids[k])
  {
  }

  lemma AllKidsQuoted(h: Host, l: Layout)
    requires l.Box? && IsTree(l) && l.self.at == (map k | k in l.kids :: NodeOf(l.kids[k]))
    requires forall k :: k in l.kids ==> Laid(QuotedKid(h, k, l.kids[k]))
    ensures Laid(QuotedAll(h, l))
  {
    forall k | k in l.kids
      ensures NodeOf(QuotedKid(h, k, l.kids[k])) == NodeOf(l.kids[k])
      ensures Own(QuotedKid(h, k, l.kids[k])) == Own(l.kids[k])
    {
      QuotedKidNode(h, k, l.kids[k]);
      OwnQuoted(h, l.kids[k]);
    }
    BoxIsLaid(l.self, l.kids, QuotedAll(h, l).kids, l.objects);
  }

  method QuoteChild(h: Host, k: string, child: Node, ghost l: Layout)
    requires child == NodeOf(l) && Laid(l)
    modifies Own(l)
    ensures Laid(QuotedKid(h, k, l))
    decreases l, 2
  {
    if k == Env && child.Items? {
      QuoteEnv(h, child.items, l);
    } else {
      QuoteEnvValues(h, child, l);
    }
  }

  method QuoteEnv(h: Host, env: seq<Node>, ghost l: Layout)
    requires l.Row? && Items(env) == NodeOf(l) && Laid(l)
    modifies Own(l)
    ensures Laid(QuotedEnv(h, l))
  {
    for i := 0 to |env|
      invariant forall j :: 0 <= j < |env| ==> Laid(if j < i then QuotedEntry(h, l.items[j]) else l.items[j])
    {
      assert Laid(l.items[i]);
      QuoteVariable(h, env[i], l.items[i]);
    }
    EntriesOwn(h, l);
    RowIsLaid(l.items, QuotedEnv(h, l).items, l.objects);
  }

  lemma EntriesOwn(h: Host, l: Layout)
    requires l.Row?
    ensures forall i :: 0 <= i < |l.items| ==> Own(QuotedEnv(h, l).items[i]) == Own(l.items[i])
  {
  }

  method QuoteVariable(h: Host, entry: Node, ghost l: Layout)
    requires entry == NodeOf(l) && Laid(l)
    modifies Own(l)
    ensures Laid(QuotedEntry(h, l))
  {
    if entry.Ref? {
      var variable := entry.fields;
      if Variable in variable.at && variable.at[Variable].Leaf? {
        EntryStaysTree(h, l);
        variable.at := variable.at[Variable := Leaf(QuoteScalar(h, variable.at[Variable].value))];
      }
    }
  }

  lemma EntryStaysTree(h: Host, l: Layout)
    requires IsTree(l)
    ensures IsTree(QuotedEntry(h, l))
  {
    if l.Box? && Variable in l.kids && l.kids[Variable].Plain? {
      assert IsTree(l.kids[Variable]);
      assert IsTree(Plain(QuoteScalar(h, l.kids[Variable].value)));
    }
  }

  lemma {:induction false} QuotedNode(h: Host, l: Layout)
    ensures NodeOf(QuotedAll(h, l)) == NodeOf(l)
    decreases l, 0
  {
    if l.Row? {
      forall i | 0 <= i < |l.items|
        ensures NodeOf(QuotedAll(h, l.items[i])) == NodeOf(l.items[i])
      {
        QuotedNode(h, l.items[i]);
      }
    }
  }

  lemma QuotedKidNode(h: Host, k: string, l: Layout)
    ensures NodeOf(QuotedKid(h, k, l)) == NodeOf(l)
  {
    if k == Env && l.Row? {
      assert forall i :: 0 <= i < |l.items| ==> NodeOf(QuotedEntry(h, l.items[i])) == NodeOf(l.items[i]);
    } else {
      QuotedNode(h, l);
    }
  }

  /** What QuoteEnvValues leaves behind is the quoted tree, in the same objects. */
  lemma {:induction false} QuotedTree(h: Host, l: Layout)
    requires IsTree(l)
    ensures TreeOf(QuotedAll(h, l)) == Quote(h, TreeOf(l))
    decreases l, 0
  {
    match l
    case Plain(_) =>
    case Row(items, _) =>
      forall i | 0 <= i < |items|
        ensures TreeOf(QuotedAll(h, items[i])) == Quote(h, TreeOf(items[i]))
      {
        QuotedTree(h, items[i]);
      }
    case Box(_, kids, _) =>
      var (a, b) := (TreeOf(QuotedAll(h, l)).fields, Quote(h, TreeOf(l)).fields);
      forall k | k in kids ensures a[k] == b[k] { QuotedKidTree(h, k, kids[k]); }
      assert a == b;
  }

  lemma {:induction false} QuotedKidTree(h: Host, k: string, l: Layout)
    requires IsTree(l)
    ensures TreeOf(QuotedKid(h, k, l)) ==
              if k == Env && TreeOf(l).List? then List(QuoteEntries(h, TreeOf(l).items)) else Quote(h, TreeOf(l))
    decreases l, 1
  {
    if k == Env && l.Row? {
      forall i | 0 <= i < |l.items|
        ensures TreeOf(QuotedEntry(h, l.items[i])) == QuoteEntry(h, TreeOf(l.items[i]))
      {
        QuotedEntryTree(h, l.items[i]);
      }
    } else {
      QuotedTree(h, l);
    }
  }

  lemma KidsTree(o: Fields, kids: map<string, Layout>, own: set<Fields>, k: string, kid: Layout)
    ensures TreeOf(Box(o, kids[k := kid], own)) == Object(TreeOf(Box(o, kids, own)).fields[k := TreeOf(kid)])
  {
    var (a, b) := (TreeOf(Box(o, kids[k := kid], own)).fields, TreeOf(Box(o, kids, own)).fields[k := TreeOf(kid)]);
    assert a.Keys == b.Keys;
    assert a == b;
  }

  lemma QuotedVariableTree(h: Host, v: Layout)
    ensures v.Plain? ==> QuoteScalar(h, TreeOf(v)) == TreeOf(Plain(QuoteScalar(h, v.value)))
    ensures !v.Plain? ==> QuoteScalar(h, TreeOf(v)) == TreeOf(v)
  {
  }

  lemma QuotedEntryTree(h: Host, l: Layout)
    requires IsTree(l)
    ensures TreeOf(QuotedEntry(h, l)) == QuoteEntry(h, TreeOf(l))
  {
    if l.Box? && Variable in l.kids {
      var entry := TreeOf(l).fields;
      QuotedVariableTree(h, l.kids[Variable]);
      if l.kids[Variable].Plain? {
        KidsTree(l.self, l.kids, l.objects, Variable, QuotedEntry(h, l).kids[Variable]);
      } else {
        assert entry[Variable := entry[Variable]] == entry;
      }
    }
  }

  // ----- stripMissingImagePullSecrets -----

  ghost function KeptRefs(h: Host, refs: seq<Layout>): seq<Layout> {
    if refs == [] then []
    else KeptRefs(h, refs[..|refs| - 1]) + if Kept(h, TreeOf(refs[|refs| - 1])) then [refs[|refs| - 1]] else []
  }

  ghost function PullLeft(h: Host, kids: map<string, Layout>): map<string, Layout> {
    if Pull in kids && kids[Pull].Row? then
      var kept := KeptRefs(h, kids[Pull].items);
      if kept == [] then kids - {Pull} else kids[Pull := kids[Pull].(items := kept)]
    else kids
  }

  ghost function StrippedAll(h: Host, l: Layout): Layout {
    match l
    case Plain(_) => l
    case Row(items, own) => Row(seq(|items|, i requires 0 <= i < |items| => StrippedAll(h, items[i])), own)
    case Box(b, kids, own) =>
      var left := PullLeft(h, kids);
      Box(b, map k | k in kids && k in left :: if k == Pull then left[k] else StrippedAll(h, kids[k]), own)
  }

  method StripMissingImagePullSecrets(h: Host, node: Node, ghost l: Layout)
    requires node == NodeOf(l) && Laid(l)
    modifies Own(l)
    ensures Laid(StrippedAll(h, l))
    decreases l, 2
  {
    match node
    case Leaf(_) =>
    case Items(items) => StripItems(h, items, l);
    case Ref(b) => StripFields(h, b, l);
  }

  method StripItems(h: Host, items: seq<Node>, ghost l: Layout)
    requires l.Row? && Items(items) == NodeOf(l) && Laid(l)
    modifies Own(l)
    ensures Laid(StrippedAll(h, l))
    decreases l, 0
  {
    for i := 0 to |items|
      invariant forall j :: 0 <= j < |items| ==> Laid(if j < i then StrippedAll(h, l.items[j]) else l.items[j])
    {
      assert Laid(l.items[i]);
      StripMissingImagePullSecrets(h, items[i], l.items[i]);
    }
    RowIsLaid(l.items, StrippedAll(h, l).items, l.objects);
  }

  ghost function StrippedKid(h: Host, k: string, l: Layout): Layout { if k == Pull then l else StrippedAll(h, l) }

  method StripFields(h: Host, b: Fields, ghost l: Layout)
    requires l.Box? && l.self == b && Laid(l)
    modifies Own(l)
    ensures Laid(StrippedAll(h, l))
    decreases l, 1
  {
    StripPull(h, b, l);
    StripKids(h, b, l, PullLeft(h, l.kids));
    AllKidsStripped(h, l);
  }

  method StripKids(h: Host, b: Fields, ghost l: Layout, ghost kids: map<string, Layout>)
    requires l.Box? && l.self == b && Laid(l.(kids := kids)) && forall k :: k in kids && k != Pull ==>
          k in l.kids && kids[k] == l.kids[k]
    modifies Own(l)
    ensures b.at == (map k | k in kids :: NodeOf(kids[k]))
    ensures forall k :: k in kids ==> Laid(StrippedKid(h, k, kids[k]))
    decreases l, 0
  {
    var left := b.at.Keys;
    while left != {}
      invariant left <= kids.Keys
      invariant b.at == (map k | k in kids :: NodeOf(kids[k]))
      invariant forall k :: k in kids ==> Laid(if k in left then kids[k] else StrippedKid(h, k, kids[k]))
      decreases left
    {
      var k :| k in left;
      assert Laid(kids[k]);
      KidApart(l.(kids := kids), k);
      if k != Pull { StripMissingImagePullSecrets(h, b.at[k], l.kids[k]); }
      left := left - {k};
    }
  }

  /** The object's own pull secrets, before the walk goes on. */
  method StripPull(h: Host, b: Fields, ghost l: Layout)
    requires l.Box? && l.self == b && Laid(l)
    modifies b
    ensures Laid(l.(kids := PullLeft(h, l.kids)))
  {
    if Pull in b.at && b.at[Pull].Items? {
      assert Laid(l.kids[Pull]);
      var kept := KeepRefs(h, b.at[Pull].items, l.kids[Pull]);
      b.at := if kept == [] then b.at - {Pull} else b.at[Pull := Items(kept)];
      PullIsLaid(h, l, kept);
    }
  }

  lemma PullIsLaid(h: Host, l: Layout, kept: seq<Node>)
    requires l.Box? && IsTree(l) && Pull in l.kids && l.kids[Pull].Row?
    requires forall k :: k in l.kids ==> Laid(l.kids[k])
    requires Items(kept) == NodeOf(l.kids[Pull].(items := KeptRefs(h, l.kids[Pull].items)))
    requires var was := map k | k in l.kids :: NodeOf(l.kids[k]);
             l.self.at == if kept == [] then was - {Pull} else was[Pull := Items(kept)]
    ensures Laid(l.(kids := PullLeft(h, l.kids)))
  {
    var kids := PullLeft(h, l.kids);
    PullStaysTree(h, l);
    assert Laid(l.kids[Pull]);
    KeptIsLaid(h, l.kids[Pull]);
    forall k | k in kids ensures Laid(kids[k]) { if k != Pull { assert Laid(l.kids[k]); } }
    PullAt(h, l, kept);
  }

  lemma PullAt(h: Host, l: Layout, kept: seq<Node>)
    requires l.Box? && Pull in l.kids && l.kids[Pull].Row?
    requires Items(kept) == NodeOf(l.kids[Pull].(items := KeptRefs(h, l.kids[Pull].items)))
    requires var was := map k | k in l.kids :: NodeOf(l.kids[k]);
             l.self.at == if kept == [] then was - {Pull} else was[Pull := Items(kept)]
    ensures var kids := PullLeft(h, l.kids); l.self.at == map k | k in kids :: NodeOf(kids[k])
  {
    assert |kept| == |KeptRefs(h, l.kids[Pull].items)|;
  }

  method KeepRefs(h: Host, refs: seq<Node>, ghost l: Layout) returns (kept: seq<Node>)
    requires l.Row? && Items(refs) == NodeOf(l) && Laid(l)
    ensures Items(kept) == NodeOf(l.(items := KeptRefs(h, l.items)))
  {
    kept := [];
    for i := 0 to |refs|
      invariant NodesAre(kept, KeptRefs(h, l.items[..i]))
    {
      assert l.items[..i + 1][..i] == l.items[..i];
      assert Laid(l.items[i]);
      if RefIsKept(h, refs[i], l.items[i]) { kept := kept + [refs[i]]; }
    }
    assert l.items[..|refs|] == l.items;
  }

  ghost predicate NodesAre(nodes: seq<Node>, ls: seq<Layout>) {
    |nodes| == |ls| && forall i :: 0 <= i < |ls| ==> nodes[i] == NodeOf(ls[i])
  }

  /** A reference that is not an object is kept; one that is names a secret there is. */
  function RefIsKept(h: Host, ref: Node, ghost l: Layout): (kept: bool)
    requires ref == NodeOf(l) && Laid(l)
    reads Own(l)
    ensures kept == Kept(h, TreeOf(l))
  {
    if !ref.Ref? then true
    else
      var entry := ref.fields.at;
      && Name in entry && entry[Name].Leaf? && entry[Name].value.Str?
      && entry[Name].value.s != "" && h.known(entry[Name].value.s)
  }

  lemma {:induction false} KeptRefsAre(h: Host, refs: seq<Layout>)
    requires forall i, j :: 0 <= i < j < |refs| ==> Own(refs[i]) !! Own(refs[j])
    ensures forall ref :: ref in KeptRefs(h, refs) ==> ref in refs
    ensures forall i, j :: 0 <= i < j < |KeptRefs(h, refs)| ==> Own(KeptRefs(h, refs)[i]) !! Own(KeptRefs(h, refs)[j])
    decreases |refs|
  {
    if refs != [] {
      var (n, last) := (|refs| - 1, refs[|refs| - 1]);
      KeptRefsAre(h, refs[..n]);
      var kept := KeptRefs(h, refs[..n]);
      forall ref | ref in kept ensures ref in refs && Own(ref) !! Own(last) {
        assert ref in refs[..n];
      }
      forall i | 0 <= i < |kept| ensures Own(kept[i]) !! Own(last) {
        assert kept[i] in kept;
      }
    }
  }

  lemma KeptStaysTree(h: Host, l: Layout)
    requires l.Row? && IsTree(l)
    ensures IsTree(l.(items := KeptRefs(h, l.items)))
  {
    KeptRefsAre(h, l.items);
    forall i | 0 <= i < |KeptRefs(h, l.items)|
      ensures IsTree(KeptRefs(h, l.items)[i]) && Own(KeptRefs(h, l.items)[i]) <= l.objects
    {
      assert KeptRefs(h, l.items)[i] in l.items;
    }
  }

  lemma KeptIsLaid(h: Host, l: Layout)
    requires l.Row? && Laid(l)
    ensures Laid(l.(items := KeptRefs(h, l.items)))
  {
    KeptStaysTree(h, l);
    KeptRefsAre(h, l.items);
    forall i | 0 <= i < |KeptRefs(h, l.items)| ensures Holds(KeptRefs(h, l.items)[i]) {
      assert KeptRefs(h, l.items)[i] in l.items;
    }
  }

  lemma PullStaysTree(h: Host, l: Layout)
    requires l.Box? && IsTree(l)
    ensures IsTree(l.(kids := PullLeft(h, l.kids)))
  {
    if Pull in l.kids && l.kids[Pull].Row? {
      var pull := l.kids[Pull];
      assert IsTree(pull);
      KeptStaysTree(h, pull);
    }
  }

  lemma {:induction false} StrippedNodeOf(h: Host, l: Layout)
    ensures NodeOf(StrippedAll(h, l)) == NodeOf(l) && Own(StrippedAll(h, l)) == Own(l)
  {
    if l.Row? {
      forall i | 0 <= i < |l.items|
        ensures NodeOf(StrippedAll(h, l.items[i])) == NodeOf(l.items[i])
      {
        StrippedNodeOf(h, l.items[i]);
      }
    }
  }

  lemma AllKidsStripped(h: Host, l: Layout)
    requires l.Box? && IsTree(l) && IsTree(l.(kids := PullLeft(h, l.kids)))
    requires l.self.at == (map k | k in PullLeft(h, l.kids) :: NodeOf(PullLeft(h, l.kids)[k]))
    requires forall k :: k in PullLeft(h, l.kids) ==> Laid(StrippedKid(h, k, PullLeft(h, l.kids)[k]))
    ensures Laid(StrippedAll(h, l))
  {
    var kids := PullLeft(h, l.kids);
    forall k | k in kids
      ensures NodeOf(StrippedKid(h, k, kids[k])) == NodeOf(kids[k]) && Own(StrippedKid(h, k, kids[k])) == Own(kids[k])
    {
      StrippedNodeOf(h, kids[k]);
    }
    StrippedKidsAre(h, l);
    BoxIsLaid(l.self, kids, StrippedAll(h, l).kids, l.objects);
  }

  lemma StrippedKidsAre(h: Host, l: Layout)
    requires l.Box?
    ensures var (now, kids) := (StrippedAll(h, l).kids, PullLeft(h, l.kids));
            now.Keys == kids.Keys && forall k :: k in now ==> now[k] == StrippedKid(h, k, kids[k])
  {
  }

  lemma {:induction false} KeptRefsTrees(h: Host, refs: seq<Layout>)
    requires forall i :: 0 <= i < |refs| ==> IsTree(refs[i])
    ensures TreesOf(KeptRefs(h, refs)) == KeptOnly(h, TreesOf(refs))
    decreases |refs|
  {
    if refs != [] {
      var n := |refs| - 1;
      KeptRefsTrees(h, refs[..n]);
      assert TreesOf(refs)[..n] == TreesOf(refs[..n]);
    }
  }

  ghost function TreesOf(ls: seq<Layout>): seq<Json> { seq(|ls|, i requires 0 <= i < |ls| => TreeOf(ls[i])) }

  lemma PullTree(h: Host, l: Layout)
    requires l.Box? && Pull in l.kids && IsTree(l.kids[Pull])
    ensures var (fields, left) := (TreeOf(l).fields, PullLeft(h, l.kids));
            && (Pull in left <==> !LosesPull(h, fields))
            && (Pull in left ==> TreeOf(left[Pull]) == PullOf(h, fields[Pull]))
  {
    if l.kids[Pull].Row? {
      var refs := l.kids[Pull].items;
      KeptRefsTrees(h, refs);
      assert TreeOf(l).fields[Pull] == List(TreesOf(refs));
      assert |TreesOf(KeptRefs(h, refs))| == |KeptRefs(h, refs)|;
    }
  }

  /** What StripMissingImagePullSecrets leaves behind is the stripped tree, in the same objects. */
  lemma {:induction false} StrippedTree(h: Host, l: Layout)
    requires IsTree(l)
    ensures TreeOf(StrippedAll(h, l)) == Strip(h, TreeOf(l))
  {
    match l
    case Plain(_) =>
    case Row(items, _) =>
      forall i | 0 <= i < |items|
        ensures TreeOf(StrippedAll(h, items[i])) == Strip(h, TreeOf(items[i]))
      {
        StrippedTree(h, items[i]);
      }
    case Box(_, kids, _) =>
      forall k | k in kids && k != Pull
        ensures TreeOf(StrippedAll(h, kids[k])) == Strip(h, TreeOf(kids[k]))
      {
        StrippedTree(h, kids[k]);
      }
      StrippedKidsTree(h, l);
  }

  lemma {:induction false} StrippedKidsTree(h: Host, l: Layout)
    requires l.Box? && IsTree(l)
    requires forall k :: k in l.kids && k != Pull ==> TreeOf(StrippedAll(h, l.kids[k])) == Strip(h, TreeOf(l.kids[k]))
    ensures TreeOf(StrippedAll(h, l)) == Strip(h, TreeOf(l))
  {
    var (s, t) := (TreeOf(StrippedAll(h, l)), Strip(h, TreeOf(l)));
    assert s.Object? && t.Object?;
    var (a, b) := (s.fields, t.fields);
    forall k ensures (k in a <==> k in b) && (k in b ==> a[k] == b[k]) {
      SameKeyLeft(h, l, a, b, k);
      if k in b { StrippedKidTree(h, l, a, b, k); }
    }
    SameFields(a, b);
  }

  lemma SameFields(a: map<string, Json>, b: map<string, Json>)
    requires forall k :: (k in a <==> k in b) && (k in b ==> a[k] == b[k])
    ensures a == b
  {
  }

  lemma {:induction false} StrippedKidTree(h: Host, l: Layout, a: map<string, Json>, b: map<string, Json>, k: string)
    requires l.Box? && IsTree(l) && a == TreeOf(StrippedAll(h, l)).fields && b == Strip(h, TreeOf(l)).fields
    requires k in a && k in b
    requires k in l.kids && k != Pull ==> TreeOf(StrippedAll(h, l.kids[k])) == Strip(h, TreeOf(l.kids[k]))
    ensures a[k] == b[k]
  {
    StripField(h, TreeOf(l).fields, k);
    if k == Pull { PullTree(h, l); }
  }

  lemma {:induction false} SameKeyLeft(h: Host, l: Layout, a: map<string, Json>, b: map<string, Json>, k: string)
    requires l.Box? && IsTree(l) && a == TreeOf(StrippedAll(h, l)).fields && b == Strip(h, TreeOf(l)).fields
    ensures k in a <==> k in b
  {
    if k == Pull && Pull in l.kids { PullTree(h, l); }
    assert k in TreeOf(l).fields <==> k in l.kids;
    assert k in a <==> k in l.kids && k in PullLeft(h, l.kids);
  }

  // ----- which secrets there are -----

  /** secretExists lists the namespace's secrets once; when that fails every secret is taken to exist. */
  class SecretCache {
    var secrets: Option<set<string>>
    var unknown: bool

    constructor ()
      ensures !Decided()
    {
      secrets, unknown := None, false;
    }

    ghost predicate Decided()
      reads this
    {
      unknown || secrets.Some?
    }

    ghost function Answer(name: string): bool
      reads this
    {
      unknown || (secrets.Some? && name in secrets.value)
    }

    /** From the first question on every question has one answer, whatever a later listing would
        say; so a walk asks a fixed function of the name. */
    method SecretExists(name: string, listing: Option<set<string>>) returns (yes: bool)
      modifies this
      ensures Decided() && yes == Answer(name)
      ensures old(Decided()) ==> unchanged(this)
      ensures !old(Decided()) ==> forall n :: Answer(n) <==> listing.None? || n in listing.value
    {
      if unknown { return true; }
      if secrets.None? {
        if listing.None? {
          unknown := true;
          return true;
        }
        secrets := listing;
      }
      return name in secrets.value;
    }
  }

  // ----- one document -----

  /** What applying a template does to each document before anything else: the objects stay the
      document's own, the tree they hold becomes the rewritten one, no other object is touched. */
  method PrepareDocument(h: Host, content: Node, ghost l: Layout) returns (ghost now: Layout)
    requires content == NodeOf(l) && Laid(l)
    modifies Own(l)
    ensures Laid(now) && NodeOf(now) == content && Own(now) == Own(l)
    ensures TreeOf(now) == Strip(h, Quote(h, TreeOf(l)))
    ensures Quoted(TreeOf(now)) && Stripped(h, TreeOf(now))
  {
    QuoteEnvValues(h, content, l);
    ghost var quoted := QuotedAll(h, l);
    QuotedNode(h, l);
    OwnQuoted(h, l);
    QuotedTree(h, l);
    StripMissingImagePullSecrets(h, content, quoted);
    now := StrippedAll(h, quoted);
    StrippedNodeOf(h, quoted);
    StrippedTree(h, quoted);
    Prepared(h, TreeOf(l));
  }

  lemma Prepared(h: Host, t: Json)
    ensures Quoted(Strip(h, Quote(h, t))) && Stripped(h, Strip(h, Quote(h, t)))
  {
    RewritesCommute(h, t);
    QuoteQuotes(h, Strip(h, t));
    StripStrips(h, Quote(h, t));
  }
}
