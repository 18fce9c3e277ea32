/** The claim query always has an answer. */
module Claims {
  import opened Prelude
  import opened Outbox

  predicate Before(rows: seq<Row>, a: RowId, b: RowId)
    requires a < |rows| && b < |rows|
  {
    rows[a].createdAt < rows[b].createdAt || (rows[a].createdAt == rows[b].createdAt && a <= b)
  }

  ghost predicate IsOldest(rows: seq<Row>, ids: set<RowId>, id: RowId)
    requires forall r :: r in ids ==> r < |rows|
  {
    id in ids && forall r :: r in ids ==> Before(rows, id, r)
  }

  lemma {:induction false} OldestExists(rows: seq<Row>, ids: set<RowId>) returns (id: RowId)
    requires ids != {}
    requires forall r :: r in ids ==> r < |rows|
    ensures IsOldest(rows, ids, id)
  {
    var x :| x in ids;
    if ids == {x} {
      id := x;
    } else {
      var y := OldestExists(rows, ids - {x});
      id := if Before(rows, x, y) then x else y;
      forall r | r in ids ensures Before(rows, id, r) {
        if r != x { assert r in ids - {x}; }
      }
    }
  }

  /** The oldest of some rows. */
  ghost function OldestOf(rows: seq<Row>, ids: set<RowId>): (id: RowId)
    requires ids != {}
    requires forall r :: r in ids ==> r < |rows|
    ensures IsOldest(rows, ids, id)
  {
    assert exists id :: IsOldest(rows, ids, id) by { var id := OldestExists(rows, ids); }
    var id :| IsOldest(rows, ids, id);
    id
  }

  /** One answer to the claim query, ties broken by insertion order. */
  ghost function OldestFirst(rows: seq<Row>, open: set<RowId>, limit: nat): (ids: seq<RowId>)
    requires forall r :: r in open ==> r < |rows|
    ensures forall i :: 0 <= i < |ids| ==> ids[i] in open
    ensures |ids| == Min(limit, |open|)
    decreases limit
  {
    if limit == 0 || open == {} then []
    else
      var first := OldestOf(rows, open);
      assert |open - {first}| == |open| - 1;
      [first] + OldestFirst(rows, open - {first}, limit - 1)
  }

  ghost predicate Leads(rows: seq<Row>, open: set<RowId>, ids: seq<RowId>)
    requires forall r :: r in open ==> r < |rows|
  {
    && (forall i :: 0 <= i < |ids| ==> ids[i] in open)
    && NoDup(ids)
    && Oldest(rows, ids)
    && (forall i, r :: 0 <= i < |ids| && r in open && r !in ids ==> rows[ids[i]].createdAt <= rows[r].createdAt)
  }

  lemma LeadsCons(rows: seq<Row>, open: set<RowId>, first: RowId, rest: seq<RowId>)
    requires forall r :: r in open ==> r < |rows|
    requires first in open && (forall r :: r in open ==> rows[first].createdAt <= rows[r].createdAt)
    requires Leads(rows, open - {first}, rest)
    ensures Leads(rows, open, [first] + rest)
  {
    var ids := [first] + rest;
    assert forall i :: 0 < i < |ids| ==> ids[i] == rest[i - 1];
    forall i, r | 0 <= i < |ids| && r in open && r !in ids ensures rows[ids[i]].createdAt <= rows[r].createdAt {
      assert r != ids[0];
      if i > 0 {
        assert forall k :: 0 <= k < |rest| ==> rest[k] == ids[k + 1];
        assert r !in rest;
      }
    }
  }

  lemma {:induction false} OldestFirstLeads(rows: seq<Row>, open: set<RowId>, limit: nat)
    requires forall r :: r in open ==> r < |rows|
    ensures Leads(rows, open, OldestFirst(rows, open, limit))
    decreases limit
  {
    if limit != 0 && open != {} {
      var first := OldestOf(rows, open);
      OldestFirstLeads(rows, open - {first}, limit - 1);
      assert forall r :: r in open ==> Before(rows, first, r);
      LeadsCons(rows, open, first, OldestFirst(rows, open - {first}, limit - 1));
    }
  }

  ghost function ClaimBatch(rows: seq<Row>, locked: set<RowId>, now: Time, limit: nat): (ids: seq<RowId>)
    ensures IsClaim(rows, locked, now, limit, ids)
  {
    OldestFirstLeads(rows, Open(rows, locked, now), limit);
    OldestFirst(rows, Open(rows, locked, now), limit)
  }

  lemma ClaimFacts(rows: seq<Row>, now: Time, limit: nat, ids: seq<RowId>)
    requires IsClaim(rows, {}, now, limit, ids)
    ensures NoDup(ids) && Elements(ids) <= Open(rows, {}, now)
    ensures forall i :: 0 <= i < |ids| ==> ids[i] < |rows| && ids[i] in Elements(ids)
    ensures Oldest(rows, ids)
    ensures |Elements(ids)| == |ids| == Min(limit, |Open(rows, {}, now)|)
    ensures forall i, r :: 0 <= i < |ids| && r in Open(rows, {}, now) - Elements(ids) ==> rows[ids[i]].createdAt <= rows[r].createdAt
  {
    NoDupSize(ids);
  }

  /** The oldest of a part no row outside is older than are an answer, if they are enough. */
  lemma ClaimFromPart(rows: seq<Row>, now: Time, limit: nat, part: set<RowId>) returns (ids: seq<RowId>)
    requires part <= Open(rows, {}, now)
    requires forall p, r :: p in part && r in Open(rows, {}, now) - part ==> rows[p].createdAt <= rows[r].createdAt
    requires limit <= |part| || part == Open(rows, {}, now)
    ensures IsClaim(rows, {}, now, limit, ids)
    ensures forall i :: 0 <= i < |ids| ==> ids[i] in part
  {
    var open := Open(rows, {}, now);
    ids := OldestFirst(rows, part, limit);
    OldestFirstLeads(rows, part, limit);
    SubsetSize(part, open);
    LeadsAll(rows, open, part, ids);
    hide OldestFirst, Oldest, Leads, Open;
  }

  lemma LeadsAll(rows: seq<Row>, open: set<RowId>, part: set<RowId>, ids: seq<RowId>)
    requires forall r :: r in open ==> r < |rows|
    requires part <= open && Leads(rows, part, ids)
    requires forall p, r :: p in part && r in open - part ==> rows[p].createdAt <= rows[r].createdAt
    ensures forall i :: 0 <= i < |ids| ==> ids[i] in open
    ensures NoDup(ids) && Oldest(rows, ids)
    ensures forall i, r :: 0 <= i < |ids| && r in open && r !in ids ==> rows[ids[i]].createdAt <= rows[r].createdAt
  {
    hide Oldest;
    forall i, r | 0 <= i < |ids| && r in open && r !in ids ensures rows[ids[i]].createdAt <= rows[r].createdAt {
      assert ids[i] in part;
      if r !in part { assert r in open - part; }
    }
  }
}
