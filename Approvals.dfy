/**
 * The `approvals` table (main.rs:43-56) as a one-way state machine: rows are
 * created pending (main.rs:57-74), listed while pending, newest first
 * (main.rs:638-672), and approved once (main.rs:674-720). Approval is
 * recorded before the action runs, and no operation returns a row to
 * pending or rejects it.
 */
module Approvals {
  import opened Wrappers
  import opened Text
  import opened NodeScript

  datatype Status = Pending | Approved

  /** One row; `decidedAt` is NULL until the row is approved. */
  datatype Approval = Approval(
    id: string,
    agentId: string,
    kind: string,
    draftText: string,
    status: Status,
    createdAt: nat,
    decidedAt: Option<nat>)

  predicate HasId(rows: seq<Approval>, id: string) {
    exists i :: 0 <= i < |rows| && rows[i].id == id
  }

  /** The PRIMARY KEY constraint on `id`. */
  predicate DistinctIds(rows: seq<Approval>) {
    forall i, j :: 0 <= i < j < |rows| ==> rows[i].id != rows[j].id
  }

  /** A pending row has no decision time; an approved one has. */
  predicate WellStamped(rows: seq<Approval>) {
    forall i :: 0 <= i < |rows| ==> (rows[i].status == Pending <==> rows[i].decidedAt.None?)
  }

  predicate Chronological(rows: seq<Approval>) {
    forall i, j :: 0 <= i <= j < |rows| ==> rows[i].createdAt <= rows[j].createdAt
  }

  /**
   * How the table may evolve: rows are only ever added at the end, and an
   * approved row never changes again.
   */
  predicate Successor(before: seq<Approval>, after: seq<Approval>) {
    |before| <= |after|
    && forall i :: 0 <= i < |before| ==>
      (before[i].status == Approved ==> after[i] == before[i])
      && after[i].id == before[i].id && after[i].kind == before[i].kind
      && after[i].draftText == before[i].draftText
  }

  lemma SuccessorTransitive(a: seq<Approval>, b: seq<Approval>, c: seq<Approval>)
    requires Successor(a, b) && Successor(b, c)
    ensures Successor(a, c)
  {
  }

  // ---------------------------------------------------------------------
  // Finding and approving
  // ---------------------------------------------------------------------

  /** `SELECT ... WHERE id=?1 AND status='pending'`: the position of that row, if any. */
  function FindPending(rows: seq<Approval>, id: string): (r: Option<nat>)
    ensures r.None? <==> forall i :: 0 <= i < |rows| ==> !(rows[i].id == id && rows[i].status == Pending)
    ensures r.Some? ==> r.value < |rows| && rows[r.value].id == id && rows[r.value].status == Pending
  {
    if rows == [] then None
    else if rows[0].id == id && rows[0].status == Pending then Some(0)
    else
      match FindPending(rows[1..], id)
      case None => None
      case Some(i) => Some(i + 1)
  }

  /** `UPDATE approvals SET status='approved', decided_at=now WHERE id=?1` on the row at `i`. */
  function MarkApproved(rows: seq<Approval>, i: nat, now: nat): (r: seq<Approval>)
    requires i < |rows|
    ensures |r| == |rows|
    ensures r[i].status == Approved && r[i].decidedAt == Some(now)
    ensures forall j :: 0 <= j < |rows| && j != i ==> r[j] == rows[j]
  {
    rows[i := rows[i].(status := Approved, decidedAt := Some(now))]
  }

  /** Approving a pending row is a legal step: nothing decided changes, nothing returns to pending. */
  lemma ApproveIsSuccessor(rows: seq<Approval>, i: nat, now: nat)
    requires i < |rows| && rows[i].status == Pending
    ensures Successor(rows, MarkApproved(rows, i, now))
    ensures WellStamped(rows) ==> WellStamped(MarkApproved(rows, i, now))
  {
  }

  /** Once approved, an id cannot be found pending again: a second approval fails. */
  lemma ApprovedIsNotPending(rows: seq<Approval>, i: nat, now: nat)
    requires DistinctIds(rows) && i < |rows|
    ensures FindPending(MarkApproved(rows, i, now), rows[i].id).None?
  {
    var r := MarkApproved(rows, i, now);
    forall j | 0 <= j < |r|
      ensures !(r[j].id == rows[i].id && r[j].status == Pending)
    {
      if j != i {
        assert r[j] == rows[j];
      }
    }
  }

  /** The error SQLite reports for an INSERT whose id is already in the table. */
  const DuplicateId := "DB insert failed: UNIQUE constraint failed: approvals.id"
  const NotFound := "❌ Approval not found or already decided."
  const PostScript := "linkedin_post.js"
  const CommentScript := "linkedin_comment.js"

  /**
   * The action run after an approval is recorded: posts go to
   * `linkedin_post.js`, comments to `linkedin_comment.js`, each with the
   * draft as its one argument; any other kind is an error.
   */
  function Dispatch(kind: string, draft: string, exec: Executor): (r: Result<string, string>)
    ensures kind != "linkedin_post" && kind != "linkedin_comment" ==>
      r == Err("❌ Unknown approval kind '" + kind + "'")
    ensures kind == "linkedin_post" ==>
      (r.Ok? <==> RunScript(exec, PostScript, [draft]).Ok?)
      && (r.Ok? ==> r.value == "✅ Approved & Posted.\n\n" + RunScript(exec, PostScript, [draft]).value)
    ensures kind == "linkedin_comment" ==>
      (r.Ok? <==> RunScript(exec, CommentScript, [draft]).Ok?)
      && (r.Ok? ==> r.value == "✅ Approved & Commented.\n\n" + RunScript(exec, CommentScript, [draft]).value)
  {
    if kind == "linkedin_post" then
      match RunScript(exec, PostScript, [draft])
      case Ok(out) => Ok("✅ Approved & Posted.\n\n" + out)
      case Err(e) => Err(e)
    else if kind == "linkedin_comment" then
      match RunScript(exec, CommentScript, [draft])
      case Ok(out) => Ok("✅ Approved & Commented.\n\n" + out)
      case Err(e) => Err(e)
    else Err("❌ Unknown approval kind '" + kind + "'")
  }

  /** An unknown kind never reaches the executor: the outcome is the same whatever it would do. */
  lemma UnknownKindRunsNothing(kind: string, draft: string, e1: Executor, e2: Executor)
    requires kind != "linkedin_post" && kind != "linkedin_comment"
    ensures Dispatch(kind, draft, e1) == Dispatch(kind, draft, e2)
  {
  }

  // ---------------------------------------------------------------------
  // Listing
  // ---------------------------------------------------------------------

  /** `WHERE status='pending' ORDER BY created_at DESC` over rows kept in insertion order. */
  function PendingNewestFirst(rows: seq<Approval>): seq<Approval> {
    if rows == [] then []
    else PendingNewestFirst(rows[1..]) + (if rows[0].status == Pending then [rows[0]] else [])
  }

  /** A row is listed exactly when it is in the table and pending. */
  lemma {:induction false} ListedIffPending(rows: seq<Approval>, a: Approval)
    ensures a in PendingNewestFirst(rows) <==> a in rows && a.status == Pending
  {
    if rows != [] {
      ListedIffPending(rows[1..], a);
      assert rows == [rows[0]] + rows[1..];
    }
  }

  /** The pending rows are listed in the reverse of their insertion order. */
  lemma {:induction false} PendingOrder(rows: seq<Approval>, x: Approval)
    ensures x.status == Pending ==> PendingNewestFirst(rows + [x]) == [x] + PendingNewestFirst(rows)
    ensures x.status == Approved ==> PendingNewestFirst(rows + [x]) == PendingNewestFirst(rows)
  {
    if rows == [] {
      assert rows + [x] == [x];
      assert ([x])[1..] == [];
    } else {
      assert (rows + [x])[1..] == rows[1..] + [x];
      PendingOrder(rows[1..], x);
    }
  }

  /** Creation times never increase along `xs`. */
  predicate NewestFirstOrder(xs: seq<Approval>) {
    forall i, j :: 0 <= i <= j < |xs| ==> xs[j].createdAt <= xs[i].createdAt
  }

  lemma AppendOlder(xs: seq<Approval>, y: Approval)
    requires NewestFirstOrder(xs)
    requires forall k :: 0 <= k < |xs| ==> y.createdAt <= xs[k].createdAt
    ensures NewestFirstOrder(xs + [y])
  {
  }

  /** On a chronological table the pending list runs from the newest row to the oldest. */
  lemma {:induction false} PendingNewestFirstSorted(rows: seq<Approval>)
    requires Chronological(rows)
    ensures NewestFirstOrder(PendingNewestFirst(rows))
  {
    if rows != [] {
      var rest := PendingNewestFirst(rows[1..]);
      assert Chronological(rows[1..]) by {
        forall i, j | 0 <= i <= j < |rows[1..]|
          ensures rows[1..][i].createdAt <= rows[1..][j].createdAt
        {
          assert rows[1..][i] == rows[i + 1] && rows[1..][j] == rows[j + 1];
        }
      }
      PendingNewestFirstSorted(rows[1..]);
      forall k | 0 <= k < |rest|
        ensures rows[0].createdAt <= rest[k].createdAt
      {
        ListedIffPending(rows[1..], rest[k]);
        var idx :| 0 <= idx < |rows[1..]| && rows[1..][idx] == rest[k];
        assert rows[idx + 1] == rest[k];
      }
      if rows[0].status == Pending {
        AppendOlder(rest, rows[0]);
      } else {
        assert PendingNewestFirst(rows) == rest;
      }
    }
  }

  function ApprovalEntry(n: nat, a: Approval): string {
    NatToString(n) + ". ID: " + a.id + "\n   Type: " + a.kind + "\n   Draft:\n" + a.draftText + "\n\n"
  }

  /** The entries of `xs`, numbered from 1. */
  function ApprovalEntries(xs: seq<Approval>): string {
    if xs == [] then [] else ApprovalEntries(xs[..|xs| - 1]) + ApprovalEntry(|xs|, xs[|xs| - 1])
  }

  lemma {:induction false} PendingStep(rows: seq<Approval>, i: nat)
    requires i < |rows|
    ensures PendingNewestFirst(rows[i..])
      == PendingNewestFirst(rows[i + 1..]) + (if rows[i].status == Pending then [rows[i]] else [])
  {
    assert rows[i..][1..] == rows[i + 1..];
  }

  lemma {:induction false} EntriesSnoc(xs: seq<Approval>, x: Approval)
    ensures ApprovalEntries(xs + [x]) == ApprovalEntries(xs) + ApprovalEntry(|xs| + 1, x)
  {
    assert (xs + [x])[..|xs|] == xs;
  }

  /** Appending an entry to a text that ends in the entries of `xs`. */
  lemma AppendEntry(head: string, xs: seq<Approval>, x: Approval)
    ensures head + ApprovalEntries(xs + [x]) == (head + ApprovalEntries(xs)) + ApprovalEntry(|xs| + 1, x)
  {
    EntriesSnoc(xs, x);
    AppendToTail(head, ApprovalEntries(xs), ApprovalEntry(|xs| + 1, x), ApprovalEntries(xs + [x]));
  }

  /** The first entry leads the list. */
  lemma {:induction false} FirstEntryLeads(x: Approval, ys: seq<Approval>)
    ensures StartsWith(ApprovalEntries([x] + ys), ApprovalEntry(1, x))
    decreases |ys|
  {
    var xs := [x] + ys;
    if ys == [] {
      assert xs[..0] == [];
    } else {
      assert xs[..|xs| - 1] == [x] + ys[..|ys| - 1];
      FirstEntryLeads(x, ys[..|ys| - 1]);
    }
  }

  const PendingHeader := "📝 Pending Approvals:\n\n"
  const NoPending := "ℹ️ No pending approvals."

  /** The text `list_pending_approvals` returns for the table `rows`. */
  function PendingListing(rows: seq<Approval>): string {
    var ps := PendingNewestFirst(rows);
    if ps == [] then NoPending else PendingHeader + ApprovalEntries(ps)
  }

  /** The row just created heads the pending list, as entry 1. */
  lemma CreatedIsListedFirst(rows: seq<Approval>, x: Approval)
    requires x.status == Pending
    ensures |PendingNewestFirst(rows + [x])| > 0 && PendingNewestFirst(rows + [x])[0] == x
    ensures StartsWith(PendingListing(rows + [x]), PendingHeader + ApprovalEntry(1, x))
  {
    PendingOrder(rows, x);
    FirstEntryLeads(x, PendingNewestFirst(rows));
    var e := ApprovalEntries([x] + PendingNewestFirst(rows));
    assert (PendingHeader + e)[..|PendingHeader + ApprovalEntry(1, x)|] == PendingHeader + e[..|ApprovalEntry(1, x)|];
  }

  // ---------------------------------------------------------------------
  // The table
  // ---------------------------------------------------------------------

  class ApprovalTable {
    var rows: seq<Approval>

    predicate Valid()
      reads this
    {
      DistinctIds(rows) && WellStamped(rows)
    }

    constructor()
      ensures rows == [] && Valid()
    {
      rows := [];
    }

    /**
     * `create_approval`: appends a pending, undecided row stamped `now` and
     * returns its id. An id already in the table violates the primary key, and
     * nothing is written.
     */
    method CreateApproval(agentId: string, kind: string, draftText: string, id: string, now: nat)
      returns (r: Result<string, string>)
      requires Valid()
      modifies this
      ensures Valid() && Successor(old(rows), rows)
      ensures HasId(old(rows), id) ==>
        r == Err(DuplicateId) && rows == old(rows)
      ensures !HasId(old(rows), id) ==>
        r == Ok(id) && rows == old(rows) + [Approval(id, agentId, kind, draftText, Pending, now, None)]
    {
      if exists i :: 0 <= i < |rows| && rows[i].id == id {
        return Err(DuplicateId);
      }
      rows := rows + [Approval(id, agentId, kind, draftText, Pending, now, None)];
      r := Ok(id);
    }

    /** `list_pending_approvals`: one numbered entry per pending row, newest first. */
    method ListPendingApprovals() returns (out: string)
      ensures out == PendingListing(rows)
    {
      out := PendingHeader;
      var count := 0;
      var i := |rows|;
      while i > 0
        invariant 0 <= i <= |rows|
        invariant count == |PendingNewestFirst(rows[i..])|
        invariant out == PendingHeader + ApprovalEntries(PendingNewestFirst(rows[i..]))
      {
        i := i - 1;
        PendingStep(rows, i);
        ghost var listed := PendingNewestFirst(rows[i + 1..]);
        if rows[i].status == Pending {
          AppendEntry(PendingHeader, listed, rows[i]);
          count := count + 1;
          out := out + ApprovalEntry(count, rows[i]);
        } else {
          assert PendingNewestFirst(rows[i..]) == listed;
        }
      }
      assert rows[0..] == rows;
      if count == 0 {
        out := NoPending;
      }
    }

    /**
     * `approve_action`: a missing or already decided id is an error and
     * changes nothing. Otherwise the row is marked approved, stamped `now`,
     * and only then is its action dispatched, so the row stays approved
     * whatever the action returns.
     */
    method ApproveAction(id: string, now: nat, exec: Executor) returns (r: Result<string, string>)
      requires Valid()
      modifies this
      ensures Valid() && Successor(old(rows), rows)
      ensures FindPending(old(rows), id).None? ==> r == Err(NotFound) && rows == old(rows)
      ensures FindPending(old(rows), id).Some? ==>
        var i := FindPending(old(rows), id).value;
        rows == MarkApproved(old(rows), i, now)
        && r == Dispatch(old(rows)[i].kind, old(rows)[i].draftText, exec)
      ensures FindPending(rows, id).None?
    {
      var found := FindPending(rows, id);
      if found.None? {
        return Err(NotFound);
      }
      var i := found.value;
      var row := rows[i];
      ApproveIsSuccessor(rows, i, now);
      ApprovedIsNotPending(rows, i, now);
      rows := MarkApproved(rows, i, now);
      r := Dispatch(row.kind, row.draftText, exec);
    }
  }
}
