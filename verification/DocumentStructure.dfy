/** The structural bounds on an imported document: an explicit stack of nodes still
    to be visited, against measures defined by recursion on the document. */
module DocumentStructure {
  import opened Prelude

  const MAX_DOCUMENT_BYTES: nat := 2 * 1024 * 1024
  const MAX_NODES: nat := 50000
  const MAX_DEPTH: nat := 16

  /** A string as code points. */
  type Text = seq<nat>

  /** Decoded JSON, and whatever else a caller may pass: keys that are not strings
      and values that are not JSON (or not finite). */
  datatype Key = Name(text: Text) | OtherKey
  datatype Member = Member(key: Key, value: Json)
  datatype Json = Object(members: seq<Member>) | List(items: seq<Json>) | Str(text: Text) | Scalar | Alien

  // ---------------------------------------------------------------- strings

  /** C0 and C1 controls, DEL and surrogates. */
  predicate Control(c: nat) { c <= 0x1f || 0x7f <= c <= 0x9f || 0xd800 <= c <= 0xdfff }

  predicate Clean(t: Text) { forall i | 0 <= i < |t| :: !Control(t[i]) }

  function Utf8Width(c: nat): (w: nat)
    ensures 1 <= w <= 4
  {
    if c < 0x80 then 1 else if c < 0x800 then 2 else if c < 0x10000 then 3 else 4
  }

  function Utf8Length(t: Text): nat {
    if t == [] then 0 else Utf8Length(t[..|t| - 1]) + Utf8Width(t[|t| - 1])
  }

  predicate KeyOk(key: Key) { key.Name? && 1 <= |key.text| <= 255 && Clean(key.text) }

  predicate StringOk(t: Text) { |t| <= MAX_DOCUMENT_BYTES && Clean(t) }

  // ---------------------------------------------------------------- recursive measures

  /** Nodes, bytes, levels of nesting, and whether every key, string and value is in
      order. */
  datatype Extent = Extent(nodes: nat, size: nat, levels: nat, clean: bool)

  const NOTHING: Extent := Extent(0, 0, 0, true)

  function Join(a: Extent, b: Extent): Extent {
    Extent(a.nodes + b.nodes, a.size + b.size, Max(a.levels, b.levels), a.clean && b.clean)
  }

  /** One node above its children. */
  function Above(children: Extent, bytes: nat, clean: bool): Extent {
    Extent(children.nodes + 1, children.size + bytes + 1, children.levels + 1, children.clean && clean)
  }

  function Measure(v: Json): Extent {
    match v
    case Object(members) => Above(MeasureMembers(members), KeyBytes(members), KeysOk(members))
    case List(items) => Above(MeasureItems(items), 0, true)
    case Str(text) => Above(NOTHING, Utf8Length(text) + 2, StringOk(text))
    case Scalar => Above(NOTHING, 0, true)
    case Alien => Above(NOTHING, 0, false)
  }

  function MeasureMembers(members: seq<Member>): Extent {
    if members == [] then NOTHING
    else Join(MeasureMembers(members[..|members| - 1]), MeasureMember(members[|members| - 1]))
  }

  function MeasureMember(m: Member): Extent { Measure(m.value) }

  function MeasureItems(items: seq<Json>): Extent {
    if items == [] then NOTHING
    else Join(MeasureItems(items[..|items| - 1]), Measure(items[|items| - 1]))
  }

  function KeyBytes(members: seq<Member>): nat {
    if members == [] then 0
    else KeyBytes(members[..|members| - 1])
         + (if KeyOk(members[|members| - 1].key) then Utf8Length(members[|members| - 1].key.text) + 4 else 0)
  }

  predicate KeysOk(members: seq<Member>) { forall i | 0 <= i < |members| :: KeyOk(members[i].key) }

  /** The document is within every limit: at most MAX_NODES nodes, none deeper than
      MAX_DEPTH, at most MAX_DOCUMENT_BYTES bytes, and only JSON with clean strings. */
  predicate WithinLimits(v: Json) {
    var m := Measure(v);
    m.nodes <= MAX_NODES && m.levels <= MAX_DEPTH + 1 && m.size <= MAX_DOCUMENT_BYTES && m.clean
  }

  // ---------------------------------------------------------------- the stack

  datatype Entry = Entry(value: Json, depth: nat)

  function Shifted(m: Extent, depth: nat): Extent { m.(levels := m.levels + depth) }

  /** What is still on the stack. */
  function Pending(stack: seq<Entry>): Extent {
    if stack == [] then NOTHING
    else Join(Pending(stack[..|stack| - 1]), Shifted(Measure(stack[|stack| - 1].value), stack[|stack| - 1].depth))
  }

  lemma NodesPositive(v: Json)
    ensures 1 <= Measure(v).nodes && 1 <= Measure(v).levels && 1 <= Measure(v).size
  {}

  lemma PendingPush(stack: seq<Entry>, e: Entry)
    ensures Pending(stack + [e]) == Join(Pending(stack), Shifted(Measure(e.value), e.depth))
  {
    assert (stack + [e])[..|stack|] == stack;
  }

  lemma PendingPop(stack: seq<Entry>)
    requires stack != []
    ensures var last := stack[|stack| - 1];
            && Pending(stack) == Join(Pending(stack[..|stack| - 1]), Shifted(Measure(last.value), last.depth))
            && Pending(stack).nodes == Pending(stack[..|stack| - 1]).nodes + Measure(last.value).nodes
  {
    hide Measure;
  }

  lemma {:induction false} ManyMembers(members: seq<Member>)
    ensures |members| <= MeasureMembers(members).nodes
  {
    if members != [] {
      ManyMembers(members[..|members| - 1]);
      NodesPositive(members[|members| - 1].value);
    }
  }

  lemma {:induction false} ManyItems(items: seq<Json>)
    ensures |items| <= MeasureItems(items).nodes
  {
    if items != [] {
      ManyItems(items[..|items| - 1]);
      NodesPositive(items[|items| - 1]);
    }
  }

  /** The rest of the document is within the limits, given what was counted. */
  predicate RestFits(nodes: nat, size: nat, rest: Extent) {
    && nodes + rest.nodes <= MAX_NODES && size + rest.size <= MAX_DOCUMENT_BYTES
    && rest.levels <= MAX_DEPTH + 1 && rest.clean
  }

  /** Children pushed one level below depth `d` weigh what their parent's measure says. */
  predicate Pushed(base: Extent, children: Extent, d: nat, now: Extent) {
    && now.nodes == base.nodes + children.nodes && now.size == base.size + children.size
    && now.clean == (base.clean && children.clean)
    && (children == NOTHING ==> now == base)
    && (children.nodes > 0 ==> now.levels == Max(base.levels, children.levels + d + 1))
  }

  lemma PushOne(base: Extent, children: Extent, d: nat, now: Extent, v: Json)
    requires Pushed(base, children, d, now) && (children.nodes == 0 ==> children == NOTHING)
    ensures Pushed(base, Join(children, Measure(v)), d, Join(now, Shifted(Measure(v), d + 1)))
  {
    NodesPositive(v);
  }

  lemma NextMember(members: seq<Member>, i: nat)
    requires i < |members|
    ensures MeasureMembers(members[..i + 1]) == Join(MeasureMembers(members[..i]), Measure(members[i].value))
    ensures KeysOk(members[..i + 1]) <==> KeysOk(members[..i]) && KeyOk(members[i].key)
    ensures KeyBytes(members[..i + 1]) == KeyBytes(members[..i])
              + (if KeyOk(members[i].key) then Utf8Length(members[i].key.text) + 4 else 0)
  {
    hide KeyOk, Utf8Length, Measure;
    assert members[..i + 1][..i] == members[..i];
  }

  /** Pushing the values of an object; a bad key stops the walk. */
  method PushMembers(stack: seq<Entry>, members: seq<Member>, depth: nat, size: nat)
    returns (ok: bool, after: seq<Entry>, bytes: nat)
    ensures ok <==> KeysOk(members)
    ensures ok ==> bytes == size + KeyBytes(members)
    ensures ok ==> Pushed(Pending(stack), MeasureMembers(members), depth, Pending(after))
  {
    hide Clean, Utf8Length, Measure, Pending;
    after, bytes := stack, size;
    var i := 0;
    assert members[..0] == [];
    while i < |members|
      invariant i <= |members| && KeysOk(members[..i]) && bytes == size + KeyBytes(members[..i])
      invariant Pushed(Pending(stack), MeasureMembers(members[..i]), depth, Pending(after))
      invariant MeasureMembers(members[..i]).nodes == 0 ==> i == 0
    {
      if !KeyOk(members[i].key) {
        return false, after, bytes;
      }
      ghost var before := Pending(after);
      bytes := bytes + Utf8Length(members[i].key.text) + 4;
      PendingPush(after, Entry(members[i].value, depth + 1));
      after := after + [Entry(members[i].value, depth + 1)];
      NextMember(members, i);
      PushOne(Pending(stack), MeasureMembers(members[..i]), depth, before, members[i].value);
      NodesPositive(members[i].value);
      i := i + 1;
    }
    assert members[..i] == members;
    ok := true;
  }

  method PushItems(stack: seq<Entry>, items: seq<Json>, depth: nat) returns (after: seq<Entry>)
    ensures Pushed(Pending(stack), MeasureItems(items), depth, Pending(after))
  {
    after := stack;
    var i := 0;
    assert items[..0] == [];
    while i < |items|
      invariant i <= |items| && Pushed(Pending(stack), MeasureItems(items[..i]), depth, Pending(after))
      invariant MeasureItems(items[..i]).nodes == 0 ==> i == 0
    {
      ghost var before := Pending(after);
      PendingPush(after, Entry(items[i], depth + 1));
      after := after + [Entry(items[i], depth + 1)];
      assert items[..i + 1][..i] == items[..i];
      PushOne(Pending(stack), MeasureItems(items[..i]), depth, before, items[i]);
      NodesPositive(items[i]);
      i := i + 1;
    }
    assert items[..i] == items;
  }

  /** After one node was counted and its children pushed, what is left fits exactly
      if the node and everything above and below it did. */
  lemma NodeCounted(nodes: nat, size: nat, base: Extent, m: Extent, children: Extent, bytes: nat, d: nat, now: Extent)
    requires m == Above(children, bytes, true) && Pushed(base, children, d, now)
    requires children.nodes == 0 ==> children == NOTHING
    ensures RestFits(nodes, size, Join(base, Shifted(m, d)))
            <==> d <= MAX_DEPTH && RestFits(nodes + 1, size + bytes + 1, now)
  {}

  lemma EmptyIsNothing(members: seq<Member>, items: seq<Json>)
    ensures MeasureMembers(members).nodes == 0 ==> MeasureMembers(members) == NOTHING
    ensures MeasureItems(items).nodes == 0 ==> MeasureItems(items) == NOTHING
  {
    ManyMembers(members);
    ManyItems(items);
  }

  /** One visit: the node's own checks, its bytes, and its children on the stack. */
  method Visit(stack: seq<Entry>, v: Json, depth: nat, ghost nodes: nat, size: nat)
    returns (ok: bool, after: seq<Entry>, bytes: nat)
    requires depth <= MAX_DEPTH
    ensures !ok ==> !RestFits(nodes, size, Join(Pending(stack), Shifted(Measure(v), depth)))
    ensures ok ==> (RestFits(nodes, size, Join(Pending(stack), Shifted(Measure(v), depth)))
                    <==> RestFits(nodes + 1, bytes + 1, Pending(after)))
    ensures ok ==> Pending(after).nodes + 1 == Pending(stack).nodes + Measure(v).nodes
  {
    ok, after, bytes := true, stack, size;
    match v
    case Object(members) =>
      ManyMembers(members);
      if |members| > MAX_NODES {
        ok := false;
        return;
      }
      ok, after, bytes := PushMembers(stack, members, depth, size);
      EmptyIsNothing(members, []);
      if ok {
        NodeCounted(nodes, size, Pending(stack), Measure(v), MeasureMembers(members), KeyBytes(members), depth,
                    Pending(after));
      }
    case List(items) =>
      ManyItems(items);
      if |items| > MAX_NODES {
        ok := false;
        return;
      }
      after := PushItems(stack, items, depth);
      EmptyIsNothing([], items);
      NodeCounted(nodes, size, Pending(stack), Measure(v), MeasureItems(items), 0, depth, Pending(after));
    case Str(text) =>
      ok := StringOk(text);
      bytes := size + Utf8Length(text) + 2;
    case Scalar =>
    case Alien => ok := false;
  }

  /** One turn of the loop: pop, count, visit, and check the size. */
  method Turn(stack: seq<Entry>, nodes: nat, size: nat) returns (ok: bool, after: seq<Entry>, bytes: nat)
    requires stack != []
    ensures !ok ==> !RestFits(nodes, size, Pending(stack))
    ensures ok ==> (RestFits(nodes, size, Pending(stack)) <==> RestFits(nodes + 1, bytes, Pending(after)))
    ensures ok ==> Pending(after).nodes < Pending(stack).nodes && nodes + 1 <= MAX_NODES && bytes <= MAX_DOCUMENT_BYTES
  {
    hide Measure, RestFits, Pending, Shifted, Join;
    var entry := stack[|stack| - 1];
    PendingPop(stack);
    after, bytes := stack[..|stack| - 1], size;
    NodesPositive(entry.value);
    RestBounds(nodes, size, Pending(after), Measure(entry.value), entry.depth);
    if nodes + 1 > MAX_NODES || entry.depth > MAX_DEPTH {
      return false, after, bytes;
    }
    ok, after, bytes := Visit(after, entry.value, entry.depth, nodes, size);
    if ok {
      bytes := bytes + 1;
      SizeBound(nodes + 1, bytes, Pending(after));
      ok := bytes <= MAX_DOCUMENT_BYTES;
    }
  }

  /** `check_document_structure`: accepted exactly when the document is within every
      limit, after at most MAX_NODES + 1 pops. */
  method CheckDocumentStructure(document: Json) returns (ok: bool, pops: nat)
    ensures ok <==> WithinLimits(document)
    ensures pops <= MAX_NODES + 1
  {
    hide Measure, WithinLimits, RestFits, Pending;
    OnlyTheRoot(document);
    var stack := [Entry(document, 0)];
    var size: nat := 0;
    pops := 0;
    while stack != []
      invariant WithinLimits(document) <==> RestFits(pops, size, Pending(stack))
      invariant pops <= MAX_NODES && size <= MAX_DOCUMENT_BYTES
      decreases Pending(stack).nodes
    {
      ok, stack, size := Turn(stack, pops, size);
      pops := pops + 1;
      if !ok {
        return;
      }
    }
    NothingLeft(pops, size);
    ok := true;
  }

  lemma RestBounds(nodes: nat, size: nat, base: Extent, m: Extent, d: nat)
    requires 1 <= m.nodes && 1 <= m.levels
    ensures RestFits(nodes, size, Join(base, Shifted(m, d))) ==> nodes + 1 <= MAX_NODES && d <= MAX_DEPTH
  {}

  lemma SizeBound(nodes: nat, size: nat, rest: Extent)
    ensures RestFits(nodes, size, rest) ==> size <= MAX_DOCUMENT_BYTES
  {}

  lemma NothingLeft(nodes: nat, size: nat)
    ensures RestFits(nodes, size, Pending([])) <==> nodes <= MAX_NODES && size <= MAX_DOCUMENT_BYTES
  {}

  lemma OnlyTheRoot(document: Json)
    ensures WithinLimits(document) <==> RestFits(0, 0, Pending([Entry(document, 0)]))
  {
    var e := Entry(document, 0);
    assert [e][..0] == [] && [e][0] == e;
    hide Measure;
    assert Pending([e]) == Join(Pending([]), Shifted(Measure(document), 0));
    assert Pending([]) == NOTHING;
  }
}
