/** The limits of DocumentStructure node by node: the document as the list of its
    nodes, each with its depth, and strings as the bytes of their UTF-8 form. */
module DocumentNodes {
  import opened DocumentStructure

  // ---------------------------------------------------------------- UTF-8

  /** Section 3 of RFC 3629. */
  function CharBytes(c: nat): seq<nat> {
    if c < 0x80 then [c]
    else if c < 0x800 then [0xc0 + c / 0x40, 0x80 + c % 0x40]
    else if c < 0x10000 then [0xe0 + c / 0x1000, 0x80 + c / 0x40 % 0x40, 0x80 + c % 0x40]
    else [0xf0 + c / 0x40000, 0x80 + c / 0x1000 % 0x40, 0x80 + c / 0x40 % 0x40, 0x80 + c % 0x40]
  }

  function Utf8(t: Text): seq<nat> {
    if t == [] then [] else CharBytes(t[0]) + Utf8(t[1..])
  }

  /** The bytes of one character at the front, and its code point. */
  function Lead(b: seq<nat>): nat {
    if b == [] || b[0] < 0x80 then 1 else if b[0] < 0xe0 then 2 else if b[0] < 0xf0 then 3 else 4
  }

  function Trail(b: seq<nat>, i: nat): int { if i < |b| then (b[i] as int) - 0x80 else 0 }

  function First(b: seq<nat>): int
    requires b != []
  {
    match Lead(b)
    case 1 => b[0]
    case 2 => (b[0] as int - 0xc0) * 0x40 + Trail(b, 1)
    case 3 => (b[0] as int - 0xe0) * 0x1000 + Trail(b, 1) * 0x40 + Trail(b, 2)
    case _ => (b[0] as int - 0xf0) * 0x40000 + Trail(b, 1) * 0x1000 + Trail(b, 2) * 0x40 + Trail(b, 3)
  }

  lemma Sextets(c: nat)
    ensures c == 0x40 * (c / 0x40) + c % 0x40
    ensures c == 0x1000 * (c / 0x1000) + 0x40 * (c / 0x40 % 0x40) + c % 0x40
    ensures c == 0x40000 * (c / 0x40000) + 0x1000 * (c / 0x1000 % 0x40) + 0x40 * (c / 0x40 % 0x40) + c % 0x40
  {
    assert c / 0x40 / 0x40 == c / 0x1000 && c / 0x1000 / 0x40 == c / 0x40000;
  }

  lemma CharReads(c: nat, x: seq<nat>)
    requires c < 0x110000
    ensures var b := CharBytes(c) + x; Lead(b) == |CharBytes(c)| <= |b| && First(b) == c
  {
    Sextets(c);
  }

  /** The measure of a text is the number of its bytes, and the bytes determine it. */
  lemma {:induction false} LengthIsBytes(t: Text)
    ensures Utf8Length(t) == |Utf8(t)|
  {
    if t != [] {
      LengthIsBytes(t[1..]);
      LengthFromFront(t);
    }
  }

  lemma {:induction false} LengthFromFront(t: Text)
    requires t != []
    ensures Utf8Length(t) == |CharBytes(t[0])| + Utf8Length(t[1..])
  {
    var n := |t| - 1;
    if n > 0 {
      LengthFromFront(t[..n]);
      assert t[1..][..n - 1] == t[..n][1..];
    }
  }

  lemma {:induction false} BytesDetermine(t: Text, u: Text)
    requires (forall i | 0 <= i < |t| :: t[i] < 0x110000) && (forall i | 0 <= i < |u| :: u[i] < 0x110000)
    requires Utf8(t) == Utf8(u)
    ensures t == u
  {
    hide CharBytes, First, Lead;
    if t != [] { CharReads(t[0], Utf8(t[1..])); }
    if u != [] { CharReads(u[0], Utf8(u[1..])); }
    if t != [] && u != [] {
      assert Utf8(t)[|CharBytes(t[0])|..] == Utf8(t[1..]) && Utf8(u)[|CharBytes(u[0])|..] == Utf8(u[1..]);
      BytesDetermine(t[1..], u[1..]);
      assert t == [t[0]] + t[1..] && u == [u[0]] + u[1..];
    } else {
      SomeByte(t);
      SomeByte(u);
    }
  }

  lemma SomeByte(t: Text)
    ensures Utf8(t) == [] <==> t == []
  {}

  // ---------------------------------------------------------------- nodes

  /** The nodes of a document in its own order. */
  function Nodes(v: Json, depth: nat): seq<Entry> {
    [Entry(v, depth)]
    + (match v
       case Object(members) => MemberNodes(members, depth + 1)
       case List(items) => ItemNodes(items, depth + 1)
       case _ => [])
  }

  function MemberNodes(members: seq<Member>, depth: nat): seq<Entry> {
    if members == [] then []
    else MemberNodes(members[..|members| - 1], depth) + MemberNode(members[|members| - 1], depth)
  }

  function MemberNode(m: Member, depth: nat): seq<Entry> { Nodes(m.value, depth) }

  function ItemNodes(items: seq<Json>, depth: nat): seq<Entry> {
    if items == [] then []
    else ItemNodes(items[..|items| - 1], depth) + Nodes(items[|items| - 1], depth)
  }

  /** Unicode's control characters (C0, DEL and C1) and surrogates. */
  predicate Forbidden(c: nat) { c / 0x20 == 0 || c == 0x7f || c / 0x20 == 4 || c / 0x800 == 27 }

  predicate Permitted(t: Text) { forall i | 0 <= i < |t| :: !Forbidden(t[i]) }

  /** What is asked of a node on its own. */
  predicate Allowed(v: Json) {
    match v
    case Object(members) =>
      forall i | 0 <= i < |members| ::
        (match members[i].key
         case Name(text) => text != [] && |text| < 256 && Permitted(text)
         case OtherKey => false)
    case Str(text) => |text| <= 2097152 && Permitted(text)
    case Alien => false
    case _ => true
  }

  /** One for the node, and its own strings in UTF-8 with two quotes; a key takes a colon
      and a comma more. */
  function Weight(v: Json): nat {
    match v
    case Object(members) => 1 + KeyWeight(members)
    case Str(text) => 1 + |Utf8(text)| + 2
    case _ => 1
  }

  function KeyWeight(members: seq<Member>): nat {
    if members == [] then 0
    else KeyWeight(members[..|members| - 1])
         + (match members[|members| - 1].key case Name(text) => |Utf8(text)| + 4 case OtherKey => 0)
  }

  function Total(nodes: seq<Entry>): nat {
    if nodes == [] then 0 else Weight(nodes[0].value) + Total(nodes[1..])
  }

  predicate AllAllowed(nodes: seq<Entry>) { forall e | e in nodes :: Allowed(e.value) }

  predicate NoDeeper(nodes: seq<Entry>, depth: int) { forall e | e in nodes :: e.depth <= depth }

  lemma {:induction false} TotalSplits(a: seq<Entry>, b: seq<Entry>)
    ensures Total(a + b) == Total(a) + Total(b)
  {
    if a == [] {
      assert a + b == b;
    } else {
      assert (a + b)[0] == a[0] && (a + b)[1..] == a[1..] + b;
      TotalSplits(a[1..], b);
    }
  }

  // ---------------------------------------------------------------- measures count nodes

  /** A measure that says what the nodes say. */
  ghost predicate Counts(m: Extent, nodes: seq<Entry>, depth: nat) {
    && m.nodes == |nodes|
    && (m.clean <==> AllAllowed(nodes))
    && (m.clean ==> m.size == Total(nodes))
    && forall d: int {:trigger NoDeeper(nodes, d)} :: NoDeeper(nodes, d) <==> nodes == [] || m.levels + depth <= d + 1
  }

  lemma CleanIs(t: Text)
    ensures Clean(t) <==> Permitted(t)
  {
    forall i | 0 <= i < |t| ensures Control(t[i]) <==> Forbidden(t[i]) {}
  }

  lemma {:induction false} KeysAre(members: seq<Member>)
    ensures KeysOk(members) <==> Allowed(Object(members))
    ensures KeysOk(members) ==> KeyBytes(members) == KeyWeight(members)
  {
    hide Clean, Permitted, Utf8, Utf8Length;
    forall i | 0 <= i < |members| && members[i].key.Name?
      ensures Clean(members[i].key.text) <==> Permitted(members[i].key.text)
    {
      CleanIs(members[i].key.text);
    }
    if members != [] {
      var n := |members| - 1;
      KeysAre(members[..n]);
      if members[n].key.Name? { LengthIsBytes(members[n].key.text); }
    }
  }

  lemma JoinCounts(a: Extent, b: Extent, m: seq<Entry>, n: seq<Entry>, depth: nat)
    requires Counts(a, m, depth) && Counts(b, n, depth)
    requires m == [] ==> a.levels == 0
    requires n != []
    ensures Counts(Join(a, b), m + n, depth)
  {
    TotalSplits(m, n);
    forall d: int ensures NoDeeper(m + n, d) <==> NoDeeper(m, d) && NoDeeper(n, d) {
      assert (forall e | e in m :: e in m + n) && (forall e | e in n :: e in m + n);
    }
    assert (forall e | e in m :: e in m + n) && (forall e | e in n :: e in m + n);
    hide NoDeeper, Total, AllAllowed;
  }

  lemma AboveCounts(v: Json, children: Extent, below: seq<Entry>, depth: nat, bytes: nat, clean: bool)
    requires Counts(children, below, depth + 1) && (below == [] ==> children.levels == 0)
    requires clean <==> Allowed(v)
    requires clean ==> bytes + 1 == Weight(v)
    ensures Counts(Above(children, bytes, clean), [Entry(v, depth)] + below, depth)
  {
    var nodes := [Entry(v, depth)] + below;
    assert nodes[0] == Entry(v, depth) && nodes[1..] == below;
    assert forall e :: e in nodes <==> e == nodes[0] || e in below;
    forall d: int ensures NoDeeper(nodes, d) <==> depth <= d && NoDeeper(below, d) {}
    hide NoDeeper, Allowed, Weight;
  }

  lemma {:induction false} MeasureCounts(v: Json, depth: nat)
    ensures Counts(Measure(v), Nodes(v, depth), depth)
  {
    hide Counts, KeysOk, KeyBytes;
    match v
    case Object(members) =>
      MembersCount(members, depth + 1);
      KeysAre(members);
      AboveCounts(v, MeasureMembers(members), MemberNodes(members, depth + 1), depth, KeyBytes(members),
                  KeysOk(members));
    case List(items) =>
      ItemsCount(items, depth + 1);
      AboveCounts(v, MeasureItems(items), ItemNodes(items, depth + 1), depth, 0, true);
    case Str(text) =>
      CleanIs(text);
      LengthIsBytes(text);
      NothingCounts(depth + 1);
      AboveCounts(v, NOTHING, [], depth, Utf8Length(text) + 2, StringOk(text));
    case Scalar =>
      NothingCounts(depth + 1);
      AboveCounts(v, NOTHING, [], depth, 0, true);
    case Alien =>
      NothingCounts(depth + 1);
      AboveCounts(v, NOTHING, [], depth, 0, false);
  }

  lemma NothingCounts(depth: nat)
    ensures Counts(NOTHING, [], depth)
  {}

  lemma {:induction false} MembersCount(members: seq<Member>, depth: nat)
    ensures Counts(MeasureMembers(members), MemberNodes(members, depth), depth)
    ensures MemberNodes(members, depth) == [] ==> MeasureMembers(members).levels == 0
  {
    hide Counts, Measure, Nodes;
    if members == [] {
      NothingCounts(depth);
    } else {
      var n := |members| - 1;
      MembersCount(members[..n], depth);
      MemberCounts(members[n], depth);
      JoinCounts(MeasureMembers(members[..n]), MeasureMember(members[n]), MemberNodes(members[..n], depth),
                 MemberNode(members[n], depth), depth);
    }
  }

  lemma {:induction false} MemberCounts(m: Member, depth: nat)
    ensures Counts(MeasureMember(m), MemberNode(m, depth), depth) && MemberNode(m, depth) != []
  {
    MeasureCounts(m.value, depth);
    hide Counts, Measure;
  }

  lemma {:induction false} ItemsCount(items: seq<Json>, depth: nat)
    ensures Counts(MeasureItems(items), ItemNodes(items, depth), depth)
    ensures ItemNodes(items, depth) == [] ==> MeasureItems(items).levels == 0
  {
    hide Counts, Measure;
    if items == [] {
      NothingCounts(depth);
    } else {
      var n := |items| - 1;
      ItemsCount(items[..n], depth);
      MeasureCounts(items[n], depth);
      assert Nodes(items[n], depth) != [];
      JoinCounts(MeasureItems(items[..n]), Measure(items[n]), ItemNodes(items[..n], depth), Nodes(items[n], depth),
                 depth);
    }
  }

  /** A document is accepted if and only if it has at most 50000 nodes, none deeper than
      16, together at most two mebibytes, and each in order on its own. */
  lemma WithinLimitsIff(v: Json)
    ensures var nodes := Nodes(v, 0);
            WithinLimits(v) <==>
              && |nodes| <= 50000 && Total(nodes) <= 2097152
              && forall e | e in nodes :: e.depth <= 16 && Allowed(e.value)
  {
    MeasureCounts(v, 0);
    assert NoDeeper(Nodes(v, 0), 16) <==> Measure(v).levels <= 17;
    hide Measure, Nodes, Total;
  }
}
