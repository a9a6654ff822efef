/** When a review lets an import write a key, and what an import leaves in the audit. */
module ImportReview {
  import opened Text
  import opened Bytes
  import opened Crypto
  import Dotenv
  import opened Model
  import opened Fingerprint
  import opened Store
  import opened StoreProofs
  import opened StoreRuns
  import opened Outcomes
  import opened RowOutcomes
  import opened Import
  import opened ImportProofs

  /** A variable with the key that is in use. */
  predicate InUseAs(refs: seq<Reference>, key: Name, r: Reference) { r in refs && r.key == key && r.active && !r.pending }

  /** An open proposal for the key, in an environment that is not archived. */
  predicate ProposedAs(refs: seq<Reference>, key: Name, r: Reference) { r in refs && r.key == key && r.active && r.pending }

  predicate NoneInUse(refs: seq<Reference>, key: Name) { forall i :: 0 <= i < |refs| ==> !InUseAs(refs, key, refs[i]) }

  /** Every use of the key has the visibility; proposals stand elsewhere, with it, and are Restricted when nothing is in use. */
  predicate MayWrite(refs: seq<Reference>, env: Id, key: Name, visibility: Visibility) {
    && (forall i :: 0 <= i < |refs| && InUseAs(refs, key, refs[i]) ==> refs[i].visibility == visibility)
    && (forall i :: 0 <= i < |refs| && ProposedAs(refs, key, refs[i]) ==>
          refs[i].env != env && refs[i].visibility == visibility && (NoneInUse(refs, key) ==> refs[i].visibility == Restricted))
  }

  /** The same on the two lists that the review makes. */
  predicate ListsAllow(current: seq<Reference>, matches: seq<Reference>, env: Id, visibility: Visibility) {
    && (forall i :: 0 <= i < |current| ==> current[i].visibility == visibility)
    && (forall i :: 0 <= i < |matches| && matches[i].active && matches[i].pending ==>
          matches[i].env != env && matches[i].visibility == visibility && (current == [] ==> matches[i].visibility == Restricted))
  }

  lemma ReviewLists(refs: seq<Reference>, env: Id, w: VersionWrite)
    ensures var matches := Matching(refs, w.key);
            ReviewAllows(ReviewKey(refs, env, w.key), w) <==> ListsAllow(Current(matches), matches, env, w.meta.visibility)
  {
    hide Matching, Current;
    var matches := Matching(refs, w.key);
    var current := Current(matches);
    if current != [] && ReviewAllows(ReviewKey(refs, env, w.key), w) {
      assert forall i :: 0 <= i < |current| ==> current[i].visibility == current[0].visibility;
    }
  }

  lemma ListsMean(refs: seq<Reference>, current: seq<Reference>, matches: seq<Reference>, env: Id, key: Name, visibility: Visibility)
    requires forall r :: r in current <==> InUseAs(refs, key, r)
    requires forall r :: r in matches && r.active && r.pending <==> ProposedAs(refs, key, r)
    requires current == [] <==> NoneInUse(refs, key)
    ensures ListsAllow(current, matches, env, visibility) <==> MayWrite(refs, env, key, visibility)
  {
    hide InUseAs, ProposedAs, NoneInUse;
    if ListsAllow(current, matches, env, visibility) {
      forall i | 0 <= i < |refs| && InUseAs(refs, key, refs[i]) ensures refs[i].visibility == visibility {
        assert refs[i] in current;
      }
      forall i | 0 <= i < |refs| && ProposedAs(refs, key, refs[i])
        ensures refs[i].env != env && refs[i].visibility == visibility && (NoneInUse(refs, key) ==> refs[i].visibility == Restricted)
      {
        assert refs[i] in matches;
      }
    }
    if MayWrite(refs, env, key, visibility) {
      forall i | 0 <= i < |current| ensures current[i].visibility == visibility {
        assert current[i] in current && InUseAs(refs, key, current[i]);
        UsedIsListed(refs, key, current[i]);
      }
      forall i | 0 <= i < |matches| && matches[i].active && matches[i].pending
        ensures matches[i].env != env && matches[i].visibility == visibility && (current == [] ==> matches[i].visibility == Restricted)
      {
        assert matches[i] in matches && ProposedAs(refs, key, matches[i]);
        UsedIsListed(refs, key, matches[i]);
      }
    }
  }

  lemma UsedIsListed(refs: seq<Reference>, key: Name, r: Reference)
    requires InUseAs(refs, key, r) || ProposedAs(refs, key, r)
    ensures exists i :: 0 <= i < |refs| && refs[i] == r
  {
  }

  /** A review lets a key be written with a visibility exactly when the uses and the open proposals of the key allow it. */
  lemma AllowedExactly(refs: seq<Reference>, env: Id, w: VersionWrite)
    ensures ReviewAllows(ReviewKey(refs, env, w.key), w) <==> MayWrite(refs, env, w.key, w.meta.visibility)
  {
    hide ReviewKey, ReviewAllows, ListsAllow, MayWrite, NoneInUse;
    var matches := Matching(refs, w.key);
    var current := Current(matches);
    NothingCurrent(refs, w.key, current);
    ReviewLists(refs, env, w);
    ListsMean(refs, current, matches, env, w.key, w.meta.visibility);
  }

  lemma NothingCurrent(refs: seq<Reference>, key: Name, current: seq<Reference>)
    requires forall r :: r in current <==> InUseAs(refs, key, r)
    ensures current == [] <==> NoneInUse(refs, key)
  {
    if current != [] { assert current[0] in current; }
    if !NoneInUse(refs, key) {
      var i :| 0 <= i < |refs| && InUseAs(refs, key, refs[i]);
      assert refs[i] in current;
    }
  }

  /** An import adds an event for each variable it changed, and one of its own unless it changed none. */
  lemma {:induction false} DirectsAudited(s: Db, ds: seq<Direct>, t: Db)
    requires PersistDirects(s, ds) == Ok(t)
    ensures s.audit <= t.audit && |t.audit| == |s.audit| + |ds|
    ensures forall k :: |s.audit| <= k < |t.audit| ==> t.audit[k].request == Some(ds[k - |s.audit|].write.request)
    decreases |ds|
  {
    hide PersistDirect, OnlyKey, RowWritten;
    if ds != [] {
      var m := PersistDirect(s, ds[0]).value;
      DirectOutcome(s, ds[0], m);
      DirectsAudited(m, ds[1..], t);
      forall k | |s.audit| <= k < |t.audit| ensures t.audit[k].request == Some(ds[k - |s.audit|].write.request) {
        if k == |s.audit| { assert t.audit[k] == m.audit[k]; } else { assert ds[1..][k - |m.audit|] == ds[k - |s.audit|]; }
      }
    }
  }

  lemma ImportOutcome(s: Db, env: Id, lines: seq<Line>, refs: seq<Reference>, expected: Option<seq<Review>>, t: Db, changed: nat)
    requires ImportCommit(s, env, lines, refs, expected) == Ok((t, changed))
    ensures changed == |Changed(lines)| && (changed == 0 ==> t == s)
    ensures changed > 0 ==>
              && s.audit <= t.audit && |t.audit| == |s.audit| + changed + 1
              && t.audit[|t.audit| - 1] == AuditEvent("IMPORT_ENV", env, None)
  {
    hide PersistDirects, ReviewsAllow, LineCurrent, Reviews;
    var m := PersistDirects(s, Changed(lines)).value;
    DirectsAudited(s, Changed(lines), m);
    if changed == 0 { assert PersistDirects(s, []) == Ok(s) by { NothingPersisted(s); } }
  }

  lemma NothingPersisted(s: Db)
    ensures PersistDirects(s, []) == Ok(s)
  {
  }

  /** An import with a key that may not be written leaves the database as it was. */
  lemma RefusedByReview(s: Db, env: Id, lines: seq<Line>, refs: seq<Reference>, expected: Option<seq<Review>>, i: nat)
    requires i < |lines| && env in s.envs && !s.envs[env].archived && !s.envs[env].serviceArchived
    requires !ReviewAllows(ReviewKey(refs, env, lines[i].direct.write.key), lines[i].direct.write)
    ensures ImportCommit(s, env, lines, refs, expected) == Err(ImportReviewConflict)
  {
    hide PersistImport, LineCurrent, ReviewKey, ReviewAllows;
    assert !ReviewAllows(Reviews(refs, env, LineKeys(lines))[i], lines[i].direct.write);
  }
}
