/** What each transaction of the workflow leaves in the rows, stated on the rows. */
module Outcomes {
  import opened Text
  import opened Bytes
  import opened Crypto
  import opened Model
  import opened Fingerprint
  import opened Store
  import opened StoreProofs
  import opened StoreRuns

  /** Only request rows and the audit may differ, and only the rows of `ids`. */
  predicate OnlyRows(s: Db, t: Db, ids: set<Id>) {
    && t == s.(requests := t.requests, audit := t.audit)
    && OtherRows(s, t, ids)
  }

  predicate OtherRows(s: Db, t: Db, ids: set<Id>) {
    && t.requests.Keys == s.requests.Keys
    && forall id :: id in s.requests && id !in ids ==> t.requests[id] == s.requests[id]
  }

  predicate HasNext(n: Count) { n + 1 < TWO_63 }

  /** The audit grew by one event of the action for each request, in order. */
  predicate AuditedEach(s: Db, t: Db, action: string, ids: seq<Id>) {
    && |t.audit| == |s.audit| + |ids| && s.audit <= t.audit
    && forall k :: |s.audit| <= k < |t.audit| ==> t.audit[k].action == action && t.audit[k].request == Some(ids[k - |s.audit|])
  }

  // ----- rejecting and approving

  predicate Undecided(r: Request) { r.status == REQUESTED || r.status == NEEDS_INPUT || r.status == READY_TO_APPLY }

  /** A rejection commits exactly for an undecided request with a next revision, and then the request is REJECTED. */
  lemma RejectOutcome(s: Db, id: Id)
    requires Inv(s)
    ensures Reject(s, id).Ok? <==> id in s.requests && Undecided(s.requests[id]) && HasNext(s.requests[id].revision)
    ensures Reject(s, id).Ok? ==>
              var t := Reject(s, id).value;
              && OnlyRows(s, t, {id}) && AuditedEach(s, t, "REJECT_REQUEST", [id])
              && t.requests[id] ==
                 s.requests[id].(status := REJECTED, rejected := true, fingerprint := None, revision := s.requests[id].revision + 1)
  {
    hide IdsHold, KeysUnique, HistoryComplete, ItemsHold, Readable, Missing, HasItems, StatusOf, OnlyRows, AuditedEach, SaveRequest;
    if id in s.requests && HasNext(s.requests[id].revision) {
      var r := s.requests[id];
      SavedExactly(s, id, r.(status := REJECTED, rejected := true, revision := r.revision + 1, fingerprint := None), "REJECT_REQUEST");
    }
  }

  /** One request row is saved exactly when constraints and triggers allow it; then it is the only difference, with its event. */
  lemma SavedExactly(s: Db, id: Id, r: Request, action: string)
    requires id in s.requests
    ensures SaveRequest(s, id, r, action).Ok? <==> RequestAllowed(r) && TransitionAllowed(s, id, s.requests[id], r)
    ensures SaveRequest(s, id, r, action).Ok? ==>
              var t := SaveRequest(s, id, r, action).value;
              OnlyRows(s, t, {id}) && AuditedEach(s, t, action, [id]) && t.requests[id] == r
  {
    hide RequestAllowed, TransitionAllowed;
  }

  /**
   * An approval commits exactly for a waiting request that is not approved yet and has a next revision. Then it is
   * approved, and READY_TO_APPLY exactly when no ADD or UPDATE item lacks its value.
   */
  lemma ApproveOutcome(s: Db, id: Id)
    requires Inv(s)
    ensures Approve(s, id).Ok? <==>
              id in s.requests && (s.requests[id].status == REQUESTED || s.requests[id].status == NEEDS_INPUT)
              && !s.requests[id].approved && HasNext(s.requests[id].revision)
              && (Missing(s, id) || HasItems(s, id))
    ensures Approve(s, id).Ok? ==>
              var t := Approve(s, id).value;
              && OnlyRows(s, t, {id}) && AuditedEach(s, t, "APPROVE_REQUEST", [id])
              && t.requests[id] ==
                 s.requests[id].(status := if Missing(s, id) then NEEDS_INPUT else READY_TO_APPLY,
                                 approved := true, fingerprint := None, revision := s.requests[id].revision + 1)
  {
    hide IdsHold, KeysUnique, HistoryComplete, ItemsHold, Readable, Missing, HasItems, OnlyRows, AuditedEach, SaveRequest;
    if id in s.requests && HasNext(s.requests[id].revision) {
      var r := s.requests[id];
      var status := if Missing(s, id) then NEEDS_INPUT else READY_TO_APPLY;
      SavedExactly(s, id, r.(status := status, approved := true, revision := r.revision + 1, fingerprint := None), "APPROVE_REQUEST");
    }
  }

  // ----- previewing

  function Ids(seen: seq<Request>): (ids: seq<Id>)
    ensures |ids| == |seen| && forall i :: 0 <= i < |seen| ==> ids[i] == seen[i].id
  {
    seq(|seen|, i requires 0 <= i < |seen| => seen[i].id)
  }

  function IdSet(seen: seq<Request>): set<Id> { set i | 0 <= i < |seen| :: seen[i].id }

  lemma AuditedMore(s: Db, m: Db, t: Db, action: string, env: Id, seen: seq<Request>)
    requires seen != [] && m.audit == s.audit + [AuditEvent(action, env, Some(seen[0].id))]
    requires AuditedEach(m, t, action, Ids(seen[1..]))
    ensures AuditedEach(s, t, action, Ids(seen))
  {
    forall k | |s.audit| <= k < |t.audit|
      ensures t.audit[k].action == action && t.audit[k].request == Some(Ids(seen)[k - |s.audit|])
    {
      var i := k - |s.audit|;
      if i == 0 {
        assert t.audit[k] == m.audit[k];
      } else {
        assert Ids(seen[1..])[i - 1] == seen[1..][i - 1].id == seen[i].id;
      }
    }
  }

  /** Every request is still READY_TO_APPLY at the revision that was read. */
  predicate StillReady(s: Db, seen: seq<Request>) {
    forall i :: 0 <= i < |seen| ==> ReadyRow(s, seen[i])
  }

  predicate ReadyRow(s: Db, read: Request) {
    read.id in s.requests && s.requests[read.id].revision == read.revision && s.requests[read.id].status == READY_TO_APPLY
  }

  /** Each request holds the digest, with its other columns as they were. */
  predicate HoldDigest(s: Db, t: Db, seen: seq<Request>, digest: Digest) {
    forall i :: 0 <= i < |seen| ==>
      seen[i].id in s.requests && seen[i].id in t.requests
      && t.requests[seen[i].id] == s.requests[seen[i].id].(fingerprint := Some(digest))
  }

  function PreviewedFirst(s: Db, read: Request, digest: Digest): Db
    requires read.id in s.requests
  {
    var r := s.requests[read.id];
    Audited(s.(requests := s.requests[read.id := r.(fingerprint := Some(digest))]), "PREVIEW_REQUEST", r.env, Some(read.id))
  }

  lemma PreviewStep(s: Db, t: Db, seen: seq<Request>, digest: Digest)
    requires seen != [] && seen[0].id in s.requests
    requires var m := PreviewedFirst(s, seen[0], digest);
             OnlyRows(m, t, IdSet(seen[1..])) && HoldDigest(m, t, seen[1..], digest)
    ensures OnlyRows(s, t, IdSet(seen)) && HoldDigest(s, t, seen, digest)
  {
    var rest := seen[1..];
    assert forall i :: 0 <= i < |rest| ==> rest[i] == seen[i + 1];
    forall i | 0 <= i < |seen|
      ensures seen[i].id in s.requests && seen[i].id in t.requests
      ensures t.requests[seen[i].id] == s.requests[seen[i].id].(fingerprint := Some(digest))
    {
      if i > 0 { assert seen[i] == rest[i - 1]; }
    }
  }

  lemma ReadyStep(s: Db, seen: seq<Request>, digest: Digest)
    requires seen != [] && seen[0].id in s.requests
    ensures StillReady(s, seen) <==> ReadyRow(s, seen[0]) && StillReady(PreviewedFirst(s, seen[0], digest), seen[1..])
  {
    var m, rest := PreviewedFirst(s, seen[0], digest), seen[1..];
    assert forall r :: ReadyRow(s, r) == ReadyRow(m, r);
    assert forall i :: 0 <= i < |rest| ==> rest[i] == seen[i + 1];
    forall i | 1 <= i < |seen| ensures seen[i] == rest[i - 1] {}
  }

  /** A preview commits exactly when all its requests are still ready, and then each of them holds its fingerprint. */
  lemma {:induction false} PreviewOutcome(s: Db, seen: seq<Request>, digest: Digest)
    ensures StorePreview(s, seen, digest).Ok? <==> StillReady(s, seen)
    ensures StorePreview(s, seen, digest).Ok? ==>
              var t := StorePreview(s, seen, digest).value;
              && OnlyRows(s, t, IdSet(seen)) && AuditedEach(s, t, "PREVIEW_REQUEST", Ids(seen))
              && HoldDigest(s, t, seen, digest)
    decreases |seen|
  {
    hide AuditedEach, OnlyRows, HoldDigest, StillReady;
    if seen == [] {
      NothingAudited(s, "PREVIEW_REQUEST");
      NothingPreviewed(s, digest);
    } else if seen[0].id in s.requests {
      var m := PreviewedFirst(s, seen[0], digest);
      ReadyStep(s, seen, digest);
      PreviewOutcome(m, seen[1..], digest);
      if ReadyRow(s, seen[0]) && StillReady(m, seen[1..]) {
        var t := StorePreview(m, seen[1..], digest).value;
        PreviewStep(s, t, seen, digest);
        AuditedMore(s, m, t, "PREVIEW_REQUEST", s.requests[seen[0].id].env, seen);
      }
    } else {
      assert !StillReady(s, seen) by { assert !ReadyRow(s, seen[0]); NotReady(s, seen); }
    }
  }

  lemma NotReady(s: Db, seen: seq<Request>)
    requires seen != [] && !ReadyRow(s, seen[0])
    ensures !StillReady(s, seen)
  {
  }

  lemma NothingPreviewed(s: Db, digest: Digest)
    ensures OnlyRows(s, s, IdSet([])) && HoldDigest(s, s, [], digest) && StillReady(s, [])
  {
  }

  lemma NothingAudited(s: Db, action: string)
    ensures AuditedEach(s, s, action, [])
    ensures Ids([]) == []
  {
  }

  // ----- applying

  /** What an apply makes of a request row. */
  ghost predicate AppliedFrom(r: Request, after: Request) {
    HasNext(r.revision) && after == r.(status := APPLIED, applied := true, revision := r.revision + 1)
  }

  ghost predicate AllApplied(s: Db, t: Db, seen: seq<Request>) {
    && (forall i :: 0 <= i < |seen| ==>
          seen[i].id in s.requests && s.requests[seen[i].id].status == READY_TO_APPLY
          && seen[i].id in t.requests && AppliedFrom(s.requests[seen[i].id], t.requests[seen[i].id]))
    && (forall i, j :: 0 <= i < j < |seen| ==> seen[i].id != seen[j].id)
  }

  function MarkedFirst(s: Db, read: Request): Db
    requires read.id in s.requests && HasNext(s.requests[read.id].revision)
  {
    var r := s.requests[read.id];
    Audited(s.(requests := s.requests[read.id := r.(status := APPLIED, applied := true, revision := r.revision + 1)]),
            "APPLY_REQUEST", r.env, Some(read.id))
  }

  lemma MarkStep(s: Db, t: Db, seen: seq<Request>)
    requires seen != [] && seen[0].id in s.requests && s.requests[seen[0].id].status == READY_TO_APPLY
    requires HasNext(s.requests[seen[0].id].revision)
    requires OnlyRows(MarkedFirst(s, seen[0]), t, IdSet(seen[1..])) && AllApplied(MarkedFirst(s, seen[0]), t, seen[1..])
    ensures OnlyRows(s, t, IdSet(seen)) && AllApplied(s, t, seen)
  {
    var m, rest := MarkedFirst(s, seen[0]), seen[1..];
    assert forall i :: 0 <= i < |rest| ==> rest[i] == seen[i + 1] && rest[i].id != seen[0].id;
    forall i | 0 <= i < |seen|
      ensures seen[i].id in s.requests && s.requests[seen[i].id].status == READY_TO_APPLY
      ensures seen[i].id in t.requests && AppliedFrom(s.requests[seen[i].id], t.requests[seen[i].id])
    {
      if i > 0 { assert seen[i] == rest[i - 1]; }
    }
    forall i, j | 0 <= i < j < |seen| ensures seen[i].id != seen[j].id {
      assert seen[j] == rest[j - 1];
      if i > 0 { assert seen[i] == rest[i - 1]; }
    }
  }

  lemma {:induction false} MarkOutcome(s: Db, seen: seq<Request>, digest: Digest, t: Db)
    requires MarkRequests(s, seen, digest) == Ok(t)
    ensures OnlyRows(s, t, IdSet(seen)) && AuditedEach(s, t, "APPLY_REQUEST", Ids(seen)) && AllApplied(s, t, seen)
    decreases |seen|
  {
    hide AuditedEach, OnlyRows, AllApplied, RequestAllowed, TransitionAllowed;
    if seen == [] {
      NothingAudited(s, "APPLY_REQUEST");
      NothingApplied(s);
    } else {
      var m := MarkedFirst(s, seen[0]);
      assert MarkRequests(m, seen[1..], digest) == Ok(t);
      MarkOutcome(m, seen[1..], digest, t);
      MarkStep(s, t, seen);
      AuditedMore(s, m, t, "APPLY_REQUEST", s.requests[seen[0].id].env, seen);
    }
  }

  lemma NothingApplied(s: Db)
    ensures OnlyRows(s, s, IdSet([])) && AllApplied(s, s, [])
  {
  }

  lemma {:induction false} VersionsOnly(s: Db, writes: seq<VersionWrite>)
    requires WriteVersions(s, writes).Some?
    ensures var t := WriteVersions(s, writes).value; t == s.(vars := t.vars, history := t.history)
    decreases |writes|
  {
    hide KeyTaken, HistoryOf;
    if writes != [] { VersionsOnly(WriteVersion(s, writes[0]).value, writes[1..]); }
  }

  /**
   * An apply that commits marks exactly the requests of its selection, which are distinct: each has its row with
   * status APPLIED, `applied` true and the next revision; no other request, no item and no key differs.
   */
  lemma ApplyOutcome(s: Db, ids: seq<Id>, env: Id, expected: Digest, writes: seq<VersionWrite>, t: Db)
    requires IdsHold(s) && ApplyTransaction(s, ids, env, expected, writes) == Ok(t)
    ensures ids != [] && forall i, j :: 0 <= i < j < |ids| ==> ids[i] != ids[j]
    ensures forall id :: id in ids ==> id in s.requests && id in t.requests && AppliedFrom(s.requests[id], t.requests[id])
    ensures OtherRows(s, t, set id | id in ids) && AuditedEach(s, t, "APPLY_REQUEST", ids)
    ensures t == s.(vars := t.vars, history := t.history, requests := t.requests, audit := t.audit)
  {
    hide IdsHold, SelectionDigest, LoadItems, CurrentRows, WriteVersions, MarkRequests, AppliedFrom, AuditedEach, OnlyRows, AllApplied, OtherRows;
    hide LoadRequests, DistinctComplete, Known;
    var seen := LoadRequests(s, ids).value;
    var m := WriteVersions(s, writes).value;
    VersionsOnly(s, writes);
    MarkOutcome(m, seen, expected, t);
    forall i | 0 <= i < |ids| ensures seen[i].id == ids[i] { RequestId(s, ids[i]); }
    assert Ids(seen) == ids;
    Selected(s, m, t, ids, seen);
    assert AuditedEach(s, t, "APPLY_REQUEST", ids) by { SameAudit(s, m, t, "APPLY_REQUEST", ids); }
  }

  lemma Selected(s: Db, m: Db, t: Db, ids: seq<Id>, seen: seq<Request>)
    requires m == s.(vars := m.vars, history := m.history) && OnlyRows(m, t, IdSet(seen)) && AllApplied(m, t, seen)
    requires |seen| == |ids| && forall i :: 0 <= i < |ids| ==> seen[i].id == ids[i]
    ensures forall i, j :: 0 <= i < j < |ids| ==> ids[i] != ids[j]
    ensures forall id :: id in ids ==> id in s.requests && id in t.requests && AppliedFrom(s.requests[id], t.requests[id])
    ensures OtherRows(s, t, set id | id in ids)
    ensures t == s.(vars := t.vars, history := t.history, requests := t.requests, audit := t.audit)
  {
    hide AppliedFrom;
    forall i, j | 0 <= i < j < |ids| ensures ids[i] != ids[j] { assert seen[i].id != seen[j].id; }
    forall id | id in ids ensures id in s.requests && id in t.requests && AppliedFrom(s.requests[id], t.requests[id]) {
      var i :| 0 <= i < |ids| && ids[i] == id;
      assert seen[i].id == id;
    }
    forall id | id in IdSet(seen) ensures id in ids {}
  }

  lemma RequestId(s: Db, id: Id)
    requires IdsHold(s) && id in s.requests
    ensures s.requests[id].id == id
  {
  }

  lemma SameAudit(s: Db, m: Db, t: Db, action: string, ids: seq<Id>)
    requires m.audit == s.audit && AuditedEach(m, t, action, ids)
    ensures AuditedEach(s, t, action, ids)
  {
  }

  // ----- decided requests

  /** A request that is rejected or applied keeps its row for ever, and nothing previews, applies, approves or rejects it again. */
  lemma DecidedForEver(s: Db, ops: seq<Op>, id: Id)
    requires Inv(s) && id in s.requests && (s.requests[id].status == REJECTED || s.requests[id].status == APPLIED)
    ensures var t := Run(s, ops);
      && id in t.requests && t.requests[id] == s.requests[id] && Approve(t, id).Err? && Reject(t, id).Err?
      && (forall ids, env, expected, writes :: id in ids ==> ApplyTransaction(t, ids, env, expected, writes).Err?)
      && (forall seen, digest :: id in Ids(seen) ==> StorePreview(t, seen, digest).Err?)
  {
    hide Run, SelectionValid, Missing, StatusOf;
    StatusOverRuns(s, ops, id);
    var t := Run(s, ops);
    forall ids, env, expected, writes | id in ids ensures ApplyTransaction(t, ids, env, expected, writes).Err? {
      NotApplied(t, ids, env, expected, writes, id);
    }
    forall seen: seq<Request>, digest | id in Ids(seen) ensures StorePreview(t, seen, digest).Err? {
      PreviewOutcome(t, seen, digest);
      var i :| 0 <= i < |seen| && seen[i].id == id;
      assert !ReadyRow(t, seen[i]);
    }
  }

  lemma NotApplied(t: Db, ids: seq<Id>, env: Id, expected: Digest, writes: seq<VersionWrite>, id: Id)
    requires id in ids && id in t.requests && t.requests[id].status != READY_TO_APPLY
    ensures ApplyTransaction(t, ids, env, expected, writes).Err?
  {
    hide SelectionDigest, LoadItems, CurrentRows, WriteVersions, MarkRequests;
    if LoadRequests(t, ids).Ok? {
      var i :| 0 <= i < |ids| && ids[i] == id;
      assert LoadRequests(t, ids).value[i].status != READY_TO_APPLY;
    }
  }
}
