/** The persisted executions of flows: how the reset flow is provisioned, listed and
    copied. */
module FlowCatalog {
  import opened Prelude
  import FlowEngine
  import opened ResetCredentials

  datatype Row = Row(flow: Id, authenticator: string, required: bool, priority: int)

  // ---------------------------------------------------------------- listing

  /** `ORDER BY priority, id`. */
  predicate Before(rows: map<Id, Row>, x: Id, y: Id)
    requires x in rows && y in rows
  {
    rows[x].priority < rows[y].priority || (rows[x].priority == rows[y].priority && x < y)
  }

  /** The executions of a flow, each once, in order. */
  ghost predicate IsListing(rows: map<Id, Row>, flow: Id, list: seq<Id>) {
    && (forall x :: x in list <==> x in rows && rows[x].flow == flow)
    && (forall i, j | 0 <= i < j < |list| :: list[i] in rows && list[j] in rows && Before(rows, list[i], list[j]))
  }

  lemma {:induction false} ListingUnique(rows: map<Id, Row>, flow: Id, a: seq<Id>, b: seq<Id>)
    requires IsListing(rows, flow, a) && IsListing(rows, flow, b)
    ensures a == b
  {
    PrefixesAgree(rows, flow, a, b, |a|);
    PrefixesAgree(rows, flow, b, a, |b|);
    assert a == a[..|a|] && b == b[..|b|];
  }

  /** Neither listing can have an earlier element that the other lacks. */
  lemma {:induction false} PrefixesAgree(rows: map<Id, Row>, flow: Id, a: seq<Id>, b: seq<Id>, n: nat)
    requires IsListing(rows, flow, a) && IsListing(rows, flow, b) && n <= |a|
    ensures n <= |b| && a[..n] == b[..n]
  {
    if n > 0 {
      var k := n - 1;
      PrefixesAgree(rows, flow, a, b, k);
      assert a[k] in a && a[k] in b;
      var i :| 0 <= i < |b| && b[i] == a[k];
      NotEarlier(rows, a, b, k, i);
      assert b[k] in b && b[k] in a;
      var j :| 0 <= j < |a| && a[j] == b[k];
      NotEarlier(rows, b, a, k, j);
      assert a[..n] == a[..k] + [a[k]] && b[..n] == b[..k] + [b[k]];
    }
  }

  lemma NotEarlier(rows: map<Id, Row>, a: seq<Id>, b: seq<Id>, k: nat, i: nat)
    requires k < |a| && k <= |b| && i < |b| && b[i] == a[k] && a[..k] == b[..k]
    requires forall i, j | 0 <= i < j < |a| :: a[i] in rows && a[j] in rows && Before(rows, a[i], a[j])
    ensures k <= i
  {
    assert forall x | 0 <= x < k :: a[x] == a[..k][x] == b[..k][x] == b[x];
  }

  /** `AuthenticationRepository.executions`. */
  method Executions(rows: map<Id, Row>, flow: Id) returns (list: seq<Id>)
    ensures IsListing(rows, flow, list)
  {
    var left := set x | x in rows && rows[x].flow == flow;
    list := [];
    while left != {}
      invariant forall x | x in left :: x in rows && rows[x].flow == flow && x !in list
      invariant forall x | x in list :: x in rows && rows[x].flow == flow
      invariant forall x | x in rows && rows[x].flow == flow :: x in left || x in list
      invariant forall i, j | 0 <= i < j < |list| :: Before(rows, list[i], list[j])
      invariant forall i, x | 0 <= i < |list| && x in left :: Before(rows, list[i], x)
      decreases left
    {
      var first := Least(rows, left);
      list := list + [first];
      left := left - {first};
    }
  }

  method Least(rows: map<Id, Row>, candidates: set<Id>) returns (least: Id)
    requires candidates != {} && forall x | x in candidates :: x in rows
    ensures least in candidates && forall x | x in candidates && x != least :: Before(rows, least, x)
  {
    least :| least in candidates;
    var left := candidates - {least};
    while left != {}
      invariant left <= candidates && least in candidates && least !in left
      invariant forall x | x in candidates && x !in left && x != least :: Before(rows, least, x)
      decreases left
    {
      var x :| x in left;
      left := left - {x};
      if rows[x].priority < rows[least].priority || (rows[x].priority == rows[least].priority && x < least) {
        least := x;
      }
    }
  }

  // ---------------------------------------------------------------- provisioning and copying

  const PROVIDERS: seq<string> := [CHOOSE_USER, RESET_EMAIL, RESET_PASSWORD]

  /** The flow that a listing stands for. */
  function FlowOf(rows: map<Id, Row>, list: seq<Id>): seq<FlowEngine.Execution>
    requires forall x | x in list :: x in rows
  {
    seq(|list|, i requires 0 <= i < |list| =>
      assert list[i] in list; FlowEngine.Execution(list[i], rows[list[i]].authenticator, rows[list[i]].required))
  }

  predicate FreshIds(rows: map<Id, Row>, ids: seq<Id>) {
    (forall i | 0 <= i < |ids| :: ids[i] !in rows) && (forall i, j | 0 <= i < j < |ids| :: ids[i] != ids[j])
  }

  ghost predicate DistinctPriorities(rows: map<Id, Row>, list: seq<Id>) {
    forall i, j | 0 <= i < j < |list| ::
      list[i] in rows && list[j] in rows && rows[list[i]].priority != rows[list[j]].priority
  }

  /** `ensure_reset_flow` for a realm without one: three executions with priorities
      10, 20 and 30, whatever identifiers they are given. */
  method EnsureResetFlow(rows: map<Id, Row>, flow: Id, ids: seq<Id>) returns (after: map<Id, Row>)
    requires FreshIds(rows, ids) && |ids| == 3 && forall x | x in rows :: rows[x].flow != flow
    ensures forall x | x in rows :: x in after && after[x] == rows[x]
    ensures IsListing(after, flow, ids) && DistinctPriorities(after, ids)
    ensures IsResetFlow(FlowOf(after, ids))
  {
    hide IsListing, DistinctPriorities, IsResetFlow, FlowOf;
    after := rows;
    var i := 0;
    while i < |PROVIDERS|
      invariant i <= |PROVIDERS|
      invariant forall x | x in rows :: x in after && after[x] == rows[x]
      invariant forall x :: x in after <==> x in rows || x in ids[..i]
      invariant forall k | 0 <= k < i :: ids[k] in after && after[ids[k]] == Row(flow, PROVIDERS[k], true, 10 * (k + 1))
    {
      assert ids[..i + 1] == ids[..i] + [ids[i]];
      after := after[ids[i] := Row(flow, PROVIDERS[i], true, 10 * (i + 1))];
      i := i + 1;
    }
    assert ids[..3] == ids;
    ProvisionedFlow(rows, after, flow, ids);
  }

  lemma ProvisionedFlow(rows: map<Id, Row>, after: map<Id, Row>, flow: Id, ids: seq<Id>)
    requires FreshIds(rows, ids) && |ids| == 3 && forall x | x in rows :: rows[x].flow != flow
    requires forall x | x in rows :: x in after && after[x] == rows[x]
    requires forall x :: x in after <==> x in rows || x in ids
    requires forall k | 0 <= k < 3 :: ids[k] in after && after[ids[k]] == Row(flow, PROVIDERS[k], true, 10 * (k + 1))
    ensures IsListing(after, flow, ids) && DistinctPriorities(after, ids)
    ensures IsResetFlow(FlowOf(after, ids))
  {}

  /** `copy_flow`: one new execution for each listed one, in order of the listing. */
  method CopyFlow(rows: map<Id, Row>, list: seq<Id>, copy: Id, ids: seq<Id>) returns (after: map<Id, Row>)
    requires FreshIds(rows, ids) && |ids| == |list| && forall x | x in list :: x in rows
    ensures after == Copied(rows, list, copy, ids)
  {
    after := rows;
    var i := 0;
    while i < |list|
      invariant i <= |list|
      invariant forall x :: x in after <==> x in rows || x in ids[..i]
      invariant forall x | x in rows :: after[x] == rows[x]
      invariant forall k | 0 <= k < i :: ids[k] in after && after[ids[k]] == rows[list[k]].(flow := copy)
    {
      assert ids[..i + 1] == ids[..i] + [ids[i]];
      assert list[i] in list;
      after := after[ids[i] := rows[list[i]].(flow := copy)];
      i := i + 1;
    }
    assert ids[..|list|] == ids;
    CopiedIs(rows, list, copy, ids, after);
  }

  function Place(ids: seq<Id>, x: Id): (i: nat)
    requires x in ids
    ensures i < |ids| && ids[i] == x
  {
    if ids[0] == x then 0 else 1 + Place(ids[1..], x)
  }

  function Copied(rows: map<Id, Row>, list: seq<Id>, copy: Id, ids: seq<Id>): map<Id, Row>
    requires |ids| == |list| && forall x | x in list :: x in rows
  {
    map x | x in rows.Keys + (set i | i in ids) ::
      if x in ids then assert list[Place(ids, x)] in list; rows[list[Place(ids, x)]].(flow := copy) else rows[x]
  }

  lemma CopiedIs(rows: map<Id, Row>, list: seq<Id>, copy: Id, ids: seq<Id>, after: map<Id, Row>)
    requires FreshIds(rows, ids) && |ids| == |list| && forall x | x in list :: x in rows
    requires forall x :: x in after <==> x in rows || x in ids
    requires forall x | x in rows :: after[x] == rows[x]
    requires forall k | 0 <= k < |ids| :: list[k] in list && after[ids[k]] == rows[list[k]].(flow := copy)
    ensures after == Copied(rows, list, copy, ids)
  {}

  lemma CopiedAt(rows: map<Id, Row>, list: seq<Id>, copy: Id, ids: seq<Id>, k: nat)
    requires FreshIds(rows, ids) && |ids| == |list| && k < |ids| && forall x | x in list :: x in rows
    ensures ids[k] in Copied(rows, list, copy, ids) && list[k] in rows
    ensures Copied(rows, list, copy, ids)[ids[k]] == rows[list[k]].(flow := copy)
  {
    assert ids[k] in ids && list[k] in list;
    assert Place(ids, ids[k]) == k;
  }

  /** With distinct priorities a copy is listed in the order of its source, whatever
      identifiers it is given; it has the same authenticators and can be copied again. */
  lemma CopyKeepsOrder(rows: map<Id, Row>, source: Id, list: seq<Id>, copy: Id, ids: seq<Id>)
    requires IsListing(rows, source, list) && DistinctPriorities(rows, list)
    requires FreshIds(rows, ids) && |ids| == |list| && forall x | x in rows :: rows[x].flow != copy
    ensures IsListing(Copied(rows, list, copy, ids), copy, ids)
    ensures DistinctPriorities(Copied(rows, list, copy, ids), ids)
    ensures IsResetFlow(FlowOf(rows, list)) ==> IsResetFlow(FlowOf(Copied(rows, list, copy, ids), ids))
  {
    var after := Copied(rows, list, copy, ids);
    forall k | 0 <= k < |ids|
      ensures ids[k] in after && list[k] in rows && after[ids[k]] == rows[list[k]].(flow := copy)
    {
      CopiedAt(rows, list, copy, ids, k);
    }
    forall i, j | 0 <= i < j < |ids|
      ensures Before(after, ids[i], ids[j]) && after[ids[i]].priority != after[ids[j]].priority
    {
      assert Before(rows, list[i], list[j]);
    }
  }

  /** Copies are listed in order for every choice of identifiers exactly when the
      priorities are distinct. */
  lemma CopyKeepsOrderIff(rows: map<Id, Row>, source: Id, list: seq<Id>, copy: Id, from: Id)
    requires IsListing(rows, source, list) && forall x | x in rows :: rows[x].flow != copy && x < from
    ensures (forall ids | FreshIds(rows, ids) && |ids| == |list| ::
               IsListing(Copied(rows, list, copy, ids), copy, ids))
            <==> DistinctPriorities(rows, list)
  {
    if DistinctPriorities(rows, list) {
      forall ids | FreshIds(rows, ids) && |ids| == |list|
        ensures IsListing(Copied(rows, list, copy, ids), copy, ids)
      {
        CopyKeepsOrder(rows, source, list, copy, ids);
      }
    } else {
      assert forall k | 0 <= k < |list| :: list[k] in list;
      var i, j :| 0 <= i < j < |list| && rows[list[i]].priority == rows[list[j]].priority;
      var ids := seq(|list|, k requires 0 <= k < |list| => from + (|list| - k));
      assert FreshIds(rows, ids);
      var after := Copied(rows, list, copy, ids);
      CopiedAt(rows, list, copy, ids, i);
      CopiedAt(rows, list, copy, ids, j);
      assert !Before(after, ids[i], ids[j]);
    }
  }
}
