/** What every transaction keeps, and what only grows, over every interleaving. */
module StoreProofs {
  import opened Text
  import opened Crypto
  import opened Model
  import opened Fingerprint
  import opened Store

  // ----- growth

  lemma GrowsReflexive(a: Db)
    requires IdsHold(a)
    ensures Grows(a, a)
  {
  }

  lemma GrowsTransitive(a: Db, b: Db, c: Db)
    requires Grows(a, b) && Grows(b, c)
    ensures Grows(a, c)
  {
    hide RequestGrows, ItemGrows, VariableGrows;
    forall id | id in a.vars ensures id in c.vars && VariableGrows(a.vars[id], c.vars[id]) {
      VariableGrowsTransitive(a.vars[id], b.vars[id], c.vars[id]);
    }
    forall id | id in a.requests ensures id in c.requests && RequestGrows(a.requests[id], c.requests[id]) {
      RequestGrowsTransitive(a.requests[id], b.requests[id], c.requests[id]);
    }
    forall id | id in a.items ensures id in c.items && ItemGrows(a.items[id], c.items[id]) {
      ItemGrowsTransitive(a.items[id], b.items[id], c.items[id]);
    }
    forall id | id in c.items && c.items[id].request in a.requests ensures id in a.items {
      assert id in b.items;
      assert ItemGrows(b.items[id], c.items[id]);
      SameRequest(b.items[id], c.items[id]);
    }
  }

  lemma SameRequest(a: Item, b: Item)
    requires ItemGrows(a, b)
    ensures a.request == b.request
  {
  }

  lemma VariableGrowsTransitive(a: Variable, b: Variable, c: Variable)
    requires VariableGrows(a, b) && VariableGrows(b, c)
    ensures VariableGrows(a, c)
  {
  }

  lemma RequestGrowsTransitive(a: Request, b: Request, c: Request)
    requires RequestGrows(a, b) && RequestGrows(b, c)
    ensures RequestGrows(a, c)
  {
  }

  lemma ItemGrowsTransitive(a: Item, b: Item, c: Item)
    requires ItemGrows(a, b) && ItemGrows(b, c)
    ensures ItemGrows(a, c)
  {
  }

  // ----- one version of a variable

  /** Only the two variable tables differ. */
  predicate SameButVersions(a: Db, b: Db) {
    b == a.(vars := b.vars, history := b.history)
  }

  lemma WriteTables(db: Db, w: VersionWrite)
    requires WriteVersion(db, w).Some? && WriteShaped(w)
    ensures var db' := WriteVersion(db, w).value;
      && SameButVersions(db, db')
      && w.variable in db'.vars
      && db'.vars == db.vars[w.variable := db'.vars[w.variable]]
      && db'.history == db.history[(w.variable, w.version) := HistoryOf(w)]
      && (w.variable, w.version) !in db.history
      && (w.variable in db.vars <==> w.expected.Some?)
      && var row := db'.vars[w.variable];
      && row.sealed == w.sealed && row.meta == w.meta && row.version == w.version && row.lifecycle == After(w.action)
      && row.env == w.env
      && (w.expected.None? ==> row.id == w.variable && row.key == w.key && !KeyTaken(db, w.env, w.key))
      && (w.expected.Some? ==>
            var before := db.vars[w.variable];
            before.id == row.id && before.key == row.key && before.env == row.env && before.version == w.expected.value
            && before.lifecycle == w.from)
  {
    hide KeyTaken;
  }

  lemma WriteKeepsIds(db: Db, w: VersionWrite)
    requires WriteVersion(db, w).Some? && WriteShaped(w) && w.env in db.envs
    requires IdsHold(db) && KeysUnique(db)
    ensures var db' := WriteVersion(db, w).value; IdsHold(db') && KeysUnique(db')
  {
    hide WriteVersion;
    WriteTables(db, w);
    var db' := WriteVersion(db, w).value;
    forall a, b | a in db'.vars && b in db'.vars && db'.vars[a].env == db'.vars[b].env && db'.vars[a].key == db'.vars[b].key
      ensures a == b
    {
      if a != w.variable { assert db'.vars[a] == db.vars[a]; }
      if b != w.variable { assert db'.vars[b] == db.vars[b]; }
    }
  }

  lemma WriteKeepsHistory(db: Db, w: VersionWrite)
    requires WriteVersion(db, w).Some? && WriteShaped(w)
    requires HistoryComplete(db)
    ensures HistoryComplete(WriteVersion(db, w).value)
  {
    hide WriteVersion, KeyTaken;
    WriteTables(db, w);
    var db' := WriteVersion(db, w).value;
    forall id, n: Count
      ensures (id, n) in db'.history <==> id in db'.vars && 1 <= n <= db'.vars[id].version
    {
      if id != w.variable { assert id in db'.vars <==> id in db.vars; }
      assert (id, n) in db.history <==> id in db.vars && 1 <= n <= db.vars[id].version;
    }
    forall id, n: Count | (id, n) in db'.history
      ensures var h := db'.history[(id, n)]; h.variable == id && h.version == n && id in db'.vars && h.env == db'.vars[id].env
    {
      if (id, n) != (w.variable, w.version) { assert (id, n) in db.history; }
    }
    forall id | id in db'.vars && (id, db'.vars[id].version) in db'.history
      ensures var h := db'.history[(id, db'.vars[id].version)];
              h.meta == db'.vars[id].meta && h.lifecycle == db'.vars[id].lifecycle && SamePlain(h.sealed, db'.vars[id].sealed)
    {
      if id != w.variable { assert (id, db.vars[id].version) in db.history; }
    }
  }

  lemma WriteKeepsReadable(db: Db, w: VersionWrite)
    requires WriteVersion(db, w).Some? && WriteShaped(w) && WriteSealed(db, w)
    requires IdsHold(db) && Readable(db)
    ensures Readable(WriteVersion(db, w).value)
  {
    hide WriteVersion, KeyTaken, Reveal, DekByVersion;
    WriteTables(db, w);
    var db' := WriteVersion(db, w).value;
    SameKeysReveal(db, db');
    assert RowReadable(db', db'.vars[w.variable]);
    forall id | id in db'.vars ensures RowReadable(db', db'.vars[id]) {
      if id != w.variable { assert RowReadable(db, db.vars[id]); }
    }
    forall k | k in db'.history ensures HistoryReadable(db', db'.history[k]) {
      if k != (w.variable, w.version) { assert HistoryReadable(db, db.history[k]); }
    }
    forall id | id in db'.items ensures ItemReadable(db', db'.items[id]) {
      assert ItemReadable(db, db.items[id]);
    }
  }

  lemma SameKeysReveal(a: Db, b: Db)
    requires a.keys == b.keys
    ensures forall env, sealed, context :: Reveal(a, env, sealed, context) == Reveal(b, env, sealed, context)
    ensures forall env, version :: DekByVersion(a, env, version) == DekByVersion(b, env, version)
  {
  }

  lemma SameRequestsStatuses(a: Db, b: Db)
    requires a.requests == b.requests && a.items == b.items && StatusesHold(a) && ItemsHold(a)
    ensures StatusesHold(b) && ItemsHold(b)
  {
    hide StatusOf, RequestAllowed, ItemAllowed;
    forall id | id in b.requests ensures Missing(a, id) == Missing(b, id) { }
  }

  lemma WriteGrows(db: Db, w: VersionWrite)
    requires WriteVersion(db, w).Some? && WriteShaped(w) && IdsHold(db)
    ensures Grows(db, WriteVersion(db, w).value)
  {
    hide WriteVersion, KeyTaken;
    WriteTables(db, w);
  }

  /** A written version keeps every invariant and only adds. */
  lemma WriteKeeps(db: Db, w: VersionWrite)
    requires WriteVersion(db, w).Some? && WriteShaped(w) && WriteSealed(db, w) && Inv(db)
    ensures Inv(WriteVersion(db, w).value) && Grows(db, WriteVersion(db, w).value)
    ensures SameButVersions(db, WriteVersion(db, w).value)
  {
    hide WriteVersion, IdsHold, KeysUnique, HistoryComplete, StatusesHold, ItemsHold, Readable, Grows, WriteShaped;
    WriteTables(db, w);
    WriteKeepsIds(db, w);
    WriteKeepsHistory(db, w);
    WriteKeepsReadable(db, w);
    SameRequestsStatuses(db, WriteVersion(db, w).value);
    WriteGrows(db, w);
  }

  lemma StillSealed(a: Db, b: Db, w: VersionWrite)
    requires WriteSealed(a, w) && a.keys == b.keys && a.envs == b.envs
    ensures WriteSealed(b, w)
  {
  }

  lemma {:induction false} WritesKeep(db: Db, env: Id, writes: seq<VersionWrite>)
    requires Inv(db) && WritesShaped(db, env, writes) && WriteVersions(db, writes).Some?
    ensures Inv(WriteVersions(db, writes).value) && Grows(db, WriteVersions(db, writes).value)
    ensures SameButVersions(db, WriteVersions(db, writes).value)
    decreases |writes|
  {
    hide WriteVersion, IdsHold, KeysUnique, HistoryComplete, StatusesHold, ItemsHold, Readable, Grows, WriteShaped, WriteSealed;
    if writes == [] {
      GrowsReflexive(db);
    } else {
      WriteKeeps(db, writes[0]);
      var db' := WriteVersion(db, writes[0]).value;
      forall i | 0 <= i < |writes[1..]|
        ensures WriteShaped(writes[1..][i]) && writes[1..][i].env == env && WriteSealed(db', writes[1..][i])
      {
        assert writes[1..][i] == writes[i + 1];
        StillSealed(db, db', writes[i + 1]);
      }
      WritesKeep(db', env, writes[1..]);
      GrowsTransitive(db, db', WriteVersions(db, writes).value);
    }
  }

  // ----- one request row

  /** The row of a request changed, keeping its identity and the rule for its status. */
  lemma RequestRowKeeps(a: Db, b: Db, id: Id, r: Request)
    requires Inv(a) && id in a.requests && b == a.(requests := a.requests[id := r], audit := b.audit)
    requires RequestGrows(a.requests[id], r) && RequestAllowed(r)
    requires r.status == StatusOf(r.rejected, r.applied, r.approved, Missing(a, id))
    ensures Inv(b) && Grows(a, b)
  {
    hide IdsHold, KeysUnique, HistoryComplete, StatusesHold, ItemsHold, Readable, Grows, Missing, StatusOf, RequestAllowed;
    SameVersionTables(a, b);
    RequestRowIds(a, b, id, r);
    RequestRowStatuses(a, b, id, r);
    assert Readable(b) by { RequestRowReadable(a, b); }
    RequestRowGrows(a, b, id, r);
  }

  lemma SameVersionTables(a: Db, b: Db)
    requires a.vars == b.vars && a.history == b.history && a.items == b.items
    ensures KeysUnique(a) ==> KeysUnique(b)
    ensures HistoryComplete(a) ==> HistoryComplete(b)
    ensures ItemsHold(a) ==> ItemsHold(b)
  {
    hide ItemAllowed;
    if HistoryComplete(a) {
      forall id, n: Count ensures (id, n) in b.history <==> id in b.vars && 1 <= n <= b.vars[id].version {
        assert (id, n) in a.history <==> id in a.vars && 1 <= n <= a.vars[id].version;
      }
    }
  }

  lemma RequestRowIds(a: Db, b: Db, id: Id, r: Request)
    requires IdsHold(a) && id in a.requests && b == a.(requests := a.requests[id := r], audit := b.audit)
    requires RequestGrows(a.requests[id], r)
    ensures IdsHold(b)
    ensures forall x :: x in a.requests ==> x in b.requests && b.requests[x].env == a.requests[x].env
  {
  }

  lemma RequestRowStatuses(a: Db, b: Db, id: Id, r: Request)
    requires StatusesHold(a) && id in a.requests && b == a.(requests := a.requests[id := r], audit := b.audit)
    requires RequestAllowed(r) && r.status == StatusOf(r.rejected, r.applied, r.approved, Missing(a, id))
    ensures StatusesHold(b)
  {
    hide StatusOf, RequestAllowed, Missing;
    forall x | x in b.requests
      ensures var q := b.requests[x]; q.status == StatusOf(q.rejected, q.applied, q.approved, Missing(b, x)) && RequestAllowed(q)
    {
      MissingFrame(a, b, x);
    }
  }

  lemma RequestRowReadable(a: Db, b: Db)
    requires Readable(a) && b == a.(requests := b.requests, audit := b.audit)
    requires forall x :: x in a.requests ==> x in b.requests && b.requests[x].env == a.requests[x].env
    ensures Readable(b)
  {
    hide RowReadable, HistoryReadable, ItemReadable, DekByVersion;
    RowsStayReadable(a, b);
    ItemsStayReadable(a, b);
  }

  lemma RequestRowGrows(a: Db, b: Db, id: Id, r: Request)
    requires IdsHold(a) && id in a.requests && b == a.(requests := a.requests[id := r], audit := b.audit)
    requires RequestGrows(a.requests[id], r)
    ensures Grows(a, b)
  {
    hide VariableGrows, ItemGrows;
    SameRowsGrow(a, b);
  }

  lemma MissingFrame(a: Db, b: Db, id: Id)
    requires a.items == b.items
    ensures Missing(a, id) == Missing(b, id) && HasItems(a, id) == HasItems(b, id)
  {
  }

  lemma RowsStayReadable(a: Db, b: Db)
    requires Readable(a) && a.vars == b.vars && a.history == b.history && a.keys == b.keys && a.envs == b.envs && a.active == b.active
    ensures forall env :: env in b.envs ==> env in b.active && DekByVersion(b, env, b.active[env]).Some?
    ensures forall id :: id in b.vars ==> RowReadable(b, b.vars[id])
    ensures forall k :: k in b.history ==> HistoryReadable(b, b.history[k])
  {
    hide Reveal, DekByVersion;
    SameKeysReveal(a, b);
    forall id | id in b.vars ensures RowReadable(b, b.vars[id]) { assert RowReadable(a, a.vars[id]); }
    forall k | k in b.history ensures HistoryReadable(b, b.history[k]) { assert HistoryReadable(a, a.history[k]); }
  }

  /** Requests keep their environments, so their items stay readable. */
  lemma ItemsStayReadable(a: Db, b: Db)
    requires Readable(a) && a.items == b.items && a.keys == b.keys && a.envs == b.envs
    requires forall id :: id in a.requests ==> id in b.requests && b.requests[id].env == a.requests[id].env
    ensures forall id :: id in b.items ==> ItemReadable(b, b.items[id])
  {
    hide Reveal, DekByVersion;
    SameKeysReveal(a, b);
    forall id | id in b.items ensures ItemReadable(b, b.items[id]) { assert ItemReadable(a, a.items[id]); }
  }

  lemma SameRowsGrow(a: Db, b: Db)
    requires a.vars == b.vars && a.items == b.items && a.keys == b.keys && a.envs == b.envs
    ensures KeysGrow(a, b)
    ensures forall id :: id in a.vars ==> id in b.vars && VariableGrows(a.vars[id], b.vars[id])
    ensures forall id :: id in a.items ==> id in b.items && ItemGrows(a.items[id], b.items[id])
  {
  }

  lemma ApproveKeeps(db: Db, id: Id)
    requires Inv(db) && Approve(db, id).Ok?
    ensures Inv(Approve(db, id).value) && Grows(db, Approve(db, id).value)
  {
    hide Inv, Grows, Missing, HasItems;
    var r := db.requests[id];
    assert r.status == StatusOf(r.rejected, r.applied, r.approved, Missing(db, id)) && RequestAllowed(r) by { StatusOfRow(db, id); }
    var b := Approve(db, id).value;
    RequestRowKeeps(db, b, id, b.requests[id]);
  }

  lemma RejectKeeps(db: Db, id: Id)
    requires Inv(db) && Reject(db, id).Ok?
    ensures Inv(Reject(db, id).value) && Grows(db, Reject(db, id).value)
  {
    hide Inv, Grows, Missing, HasItems;
    StatusOfRow(db, id);
    var b := Reject(db, id).value;
    RequestRowKeeps(db, b, id, b.requests[id]);
  }

  lemma StatusOfRow(db: Db, id: Id)
    requires Inv(db) && id in db.requests
    ensures var r := db.requests[id];
      && r.id == id
      && r.status == StatusOf(r.rejected, r.applied, r.approved, Missing(db, id))
      && RequestAllowed(r)
  {
    hide StatusOf, RequestAllowed, Missing;
  }

  lemma {:induction false} PreviewKeeps(db: Db, seen: seq<Request>, digest: Digest)
    requires Inv(db) && StorePreview(db, seen, digest).Ok?
    ensures Inv(StorePreview(db, seen, digest).value) && Grows(db, StorePreview(db, seen, digest).value)
    decreases |seen|
  {
    hide Inv, Grows, Missing;
    if seen == [] {
      InvGrows(db);
    } else {
      var id := seen[0].id;
      StatusOfRow(db, id);
      var r := db.requests[id].(fingerprint := Some(digest));
      var b := Audited(db.(requests := db.requests[id := r]), "PREVIEW_REQUEST", r.env, Some(id));
      RequestRowKeeps(db, b, id, r);
      PreviewKeeps(b, seen[1..], digest);
      GrowsTransitive(db, b, StorePreview(db, seen, digest).value);
    }
  }

  lemma InvGrows(db: Db)
    requires Inv(db)
    ensures Grows(db, db)
  {
    GrowsReflexive(db);
  }

  lemma {:induction false} MarkKeeps(db: Db, seen: seq<Request>, expected: Digest)
    requires Inv(db) && MarkRequests(db, seen, expected).Ok?
    ensures Inv(MarkRequests(db, seen, expected).value) && Grows(db, MarkRequests(db, seen, expected).value)
    ensures var b := MarkRequests(db, seen, expected).value; b == db.(requests := b.requests, audit := b.audit)
    decreases |seen|
  {
    hide Inv, Grows, Missing, HasItems;
    if seen == [] {
      InvGrows(db);
    } else {
      var id := seen[0].id;
      StatusOfRow(db, id);
      var r := db.requests[id].(status := APPLIED, applied := true, revision := Next(db.requests[id].revision).value);
      var b := SaveRequest(db, id, r, "APPLY_REQUEST").value;
      RequestRowKeeps(db, b, id, r);
      MarkKeeps(b, seen[1..], expected);
      GrowsTransitive(db, b, MarkRequests(db, seen, expected).value);
    }
  }

  lemma ApplyKeeps(db: Db, ids: seq<Id>, env: Id, expected: Digest, writes: seq<VersionWrite>)
    requires Inv(db) && WritesShaped(db, env, writes)
    requires ApplyTransaction(db, ids, env, expected, writes).Ok?
    ensures Inv(ApplyTransaction(db, ids, env, expected, writes).value)
    ensures Grows(db, ApplyTransaction(db, ids, env, expected, writes).value)
  {
    hide Inv, Grows, WritesShaped, ApplyChecks, WriteVersions, MarkRequests;
    var requests := ApplyChecks(db, ids, env, expected, writes).value;
    var b := WriteVersions(db, writes).value;
    WritesKeep(db, env, writes);
    MarkKeeps(b, requests, expected);
    GrowsTransitive(db, b, MarkRequests(b, requests, expected).value);
  }

  // ----- one item row

  /** A value put into an item, or its metadata corrected, together with the row of its request. */
  lemma ItemRowKeeps(a: Db, b: Db, id: Id, item: Item, r: Request)
    requires Inv(a) && id in a.items
    requires b == a.(items := a.items[id := item], requests := a.requests[item.request := r], audit := b.audit)
    requires ItemGrows(a.items[id], item) && ItemAllowed(item) && item.request in a.requests
    requires ProposalSealed(a, a.requests[item.request].env, item)
    requires RequestGrows(a.requests[item.request], r) && RequestAllowed(r)
    requires r.status == StatusOf(r.rejected, r.applied, r.approved, Missing(b, item.request))
    ensures Inv(b) && Grows(a, b)
  {
    hide IdsHold, KeysUnique, HistoryComplete, StatusesHold, ItemsHold, Readable, Grows, Missing, StatusOf, RequestAllowed, ItemAllowed;
    hide ProposalSealed;
    var mid := b.(items := a.items);
    SameVersionTables(a, mid);
    VersionTablesOf(mid, b);
    ItemRowIds(a, b, id, item, r);
    ItemRowStatuses(a, b, id, item, r);
    ItemRowReadable(a, b, id, item, r);
    ItemRowGrows(a, b, id, item, r);
  }

  lemma VersionTablesOf(a: Db, b: Db)
    requires a.vars == b.vars && a.history == b.history
    ensures KeysUnique(a) ==> KeysUnique(b)
    ensures HistoryComplete(a) ==> HistoryComplete(b)
  {
    if HistoryComplete(a) {
      forall id, n: Count ensures (id, n) in b.history <==> id in b.vars && 1 <= n <= b.vars[id].version {
        assert (id, n) in a.history <==> id in a.vars && 1 <= n <= a.vars[id].version;
      }
    }
  }

  lemma ItemRowIds(a: Db, b: Db, id: Id, item: Item, r: Request)
    requires IdsHold(a) && ItemsHold(a) && id in a.items && item.request in a.requests && ItemAllowed(item)
    requires b == a.(items := a.items[id := item], requests := a.requests[item.request := r], audit := b.audit)
    requires ItemGrows(a.items[id], item) && RequestGrows(a.requests[item.request], r)
    ensures IdsHold(b) && ItemsHold(b)
  {
    hide ItemAllowed;
  }

  lemma ItemRowStatuses(a: Db, b: Db, id: Id, item: Item, r: Request)
    requires StatusesHold(a) && id in a.items && item.request in a.requests
    requires b == a.(items := a.items[id := item], requests := a.requests[item.request := r], audit := b.audit)
    requires a.items[id].request == item.request && RequestAllowed(r)
    requires r.status == StatusOf(r.rejected, r.applied, r.approved, Missing(b, item.request))
    ensures StatusesHold(b)
  {
    hide StatusOf, RequestAllowed, Missing;
    forall x | x in b.requests
      ensures var q := b.requests[x]; q.status == StatusOf(q.rejected, q.applied, q.approved, Missing(b, x)) && RequestAllowed(q)
    {
      if x != item.request { MissingElsewhere(a, b, id, item, x); }
    }
  }

  lemma ItemRowReadable(a: Db, b: Db, id: Id, item: Item, r: Request)
    requires Readable(a) && id in a.items && item.request in a.requests
    requires b == a.(items := a.items[id := item], requests := a.requests[item.request := r], audit := b.audit)
    requires RequestGrows(a.requests[item.request], r)
    requires ProposalSealed(a, a.requests[item.request].env, item)
    ensures Readable(b)
  {
    hide Reveal, DekByVersion, RowReadable, HistoryReadable;
    SameKeysReveal(a, b);
    RowsStayReadable(a, b);
    forall x | x in b.items ensures ItemReadable(b, b.items[x]) {
      if x != id { assert ItemReadable(a, a.items[x]); }
    }
  }

  lemma ItemRowGrows(a: Db, b: Db, id: Id, item: Item, r: Request)
    requires IdsHold(a) && id in a.items && item.request in a.requests
    requires b == a.(items := a.items[id := item], requests := a.requests[item.request := r], audit := b.audit)
    requires ItemGrows(a.items[id], item) && RequestGrows(a.requests[item.request], r)
    ensures Grows(a, b)
  {
    hide VariableGrows;
    SameVariablesGrow(a, b);
  }

  lemma SameVariablesGrow(a: Db, b: Db)
    requires a.vars == b.vars && a.keys == b.keys && a.envs == b.envs
    ensures KeysGrow(a, b)
    ensures forall id :: id in a.vars ==> id in b.vars && VariableGrows(a.vars[id], b.vars[id])
  {
  }

  lemma MissingElsewhere(a: Db, b: Db, id: Id, item: Item, other: Id)
    requires id in a.items && a.items[id].request == item.request && b.items == a.items[id := item] && other != item.request
    ensures Missing(a, other) == Missing(b, other)
  {
    hide NeedsValue;
    if Missing(a, other) {
      var x :| x in a.items && a.items[x].request == other && NeedsValue(a.items[x]);
      assert b.items[x] == a.items[x];
    }
    if Missing(b, other) {
      var x :| x in b.items && b.items[x].request == other && NeedsValue(b.items[x]);
      assert b.items[x] == a.items[x];
    }
  }

  lemma FulfillKeeps(db: Db, read: Item, sealed: Sealed)
    requires Inv(db) && FulfillShaped(db, read, sealed) && Fulfill(db, read, sealed).Ok?
    ensures Inv(Fulfill(db, read, sealed).value) && Grows(db, Fulfill(db, read, sealed).value)
  {
    hide Inv, Grows, Missing, HasItems, Reveal, ItemInScope;
    var before := db.items[read.id];
    var item := before.(proposed := Some(sealed), revision := Next(read.revision).value);
    var b := Fulfill(db, read, sealed).value;
    ItemOfRow(db, read.id);
    StatusOfRow(db, read.request);
    MissingFrame(db.(items := db.items[read.id := item]), b, read.request);
    SameContext(db, db.requests[read.request].env, item, read.(proposed := Some(sealed), revision := item.revision));
    ItemRowKeeps(db, b, read.id, item, b.requests[read.request]);
  }

  lemma ItemOfRow(db: Db, id: Id)
    requires Inv(db) && id in db.items
    ensures db.items[id].id == id && ItemAllowed(db.items[id]) && db.items[id].request in db.requests
  {
    hide ItemAllowed;
  }

  /** The context of a proposal depends on the request, the item, the revision and the key version alone. */
  lemma SameContext(db: Db, env: Id, a: Item, b: Item)
    requires ProposalSealed(db, env, b)
    requires a.id == b.id && a.request == b.request && a.revision == b.revision && a.proposed == b.proposed
    ensures ProposalSealed(db, env, a)
  {
  }
}
