/** What the transactions that write items and versions leave in the rows, stated on the rows. */
module RowOutcomes {
  import opened Text
  import opened Bytes
  import opened Crypto
  import opened Model
  import opened Fingerprint
  import opened Store
  import opened StoreProofs
  import opened StoreRuns
  import opened Outcomes

  /** Exactly the row `id` is new or different. */
  predicate OnlyKey<K, V(==)>(a: map<K, V>, b: map<K, V>, k: K) {
    k in b && b.Keys == a.Keys + {k} && forall x :: x in a && x != k ==> b[x] == a[x]
  }

  // ----- fulfilments and corrections

  /** The status of a request that is not decided. */
  predicate WaitingStatus(t: Db, id: Id)
    requires id in t.requests
  {
    t.requests[id].status == if Missing(t, id) then NEEDS_INPUT else if t.requests[id].approved then READY_TO_APPLY else REQUESTED
  }

  /** A fulfilment stores the value in its item at the next revision, and its request waits for what is still missing. */
  lemma FulfillOutcome(s: Db, read: Item, sealed: Sealed, t: Db)
    requires IdsHold(s) && FulfillShaped(s, read, sealed) && Fulfill(s, read, sealed) == Ok(t)
    ensures read.id in s.items && s.items[read.id].revision == read.revision && s.items[read.id].proposed.None? && HasNext(read.revision)
    ensures OnlyKey(s.items, t.items, read.id)
    ensures t.items[read.id] == s.items[read.id].(proposed := Some(sealed), revision := read.revision + 1)
    ensures var r := s.requests[read.request];
      && OtherRows(s, t, {read.request}) && HasNext(r.revision)
      && t.requests[read.request] == r.(status := t.requests[read.request].status, fingerprint := None, revision := r.revision + 1)
      && WaitingStatus(t, read.request)
    ensures t == s.(items := t.items, requests := t.requests, audit := t.audit)
    ensures AuditedEach(s, t, "FULFILL_REQUEST_VALUE", [read.request])
  {
    hide IdsHold, RequestAllowed, TransitionAllowed, ItemInScope, ProposalSealed, Missing, WaitingStatus;
    var m := s.(items := s.items[read.id := s.items[read.id].(proposed := Some(sealed), revision := read.revision + 1)]);
    assert WaitingStatus(t, read.request) by { SameMissing(m, t, read.request); Waiting(t, read.request); }
  }

  lemma SameMissing(a: Db, b: Db, id: Id)
    requires a.items == b.items
    ensures Missing(a, id) == Missing(b, id)
  {
  }

  lemma Waiting(t: Db, id: Id)
    requires id in t.requests
    ensures WaitingStatus(t, id) <==>
            t.requests[id].status == if Missing(t, id) then NEEDS_INPUT else if t.requests[id].approved then READY_TO_APPLY else REQUESTED
  {
  }

  /** A correction changes value, group and order of its item at the next revision; its request is ready but must be previewed again. */
  lemma EditOutcome(s: Db, ids: seq<Id>, env: Id, expected: Digest, edit: Edit, t: Db)
    requires EditTransaction(s, ids, env, expected, edit) == Ok(t)
    ensures edit.same ==> t == s
    ensures !edit.same ==>
      var item := edit.item;
      && item.id in s.items && item.request in s.requests && HasNext(item.revision) && HasNext(s.requests[item.request].revision)
      && OnlyKey(s.items, t.items, item.id) && OtherRows(s, t, {item.request})
      && t.items[item.id] == s.items[item.id].(
           proposed := Some(edit.sealed), revision := item.revision + 1,
           meta := s.items[item.id].meta.(group := edit.group, order := edit.order))
      && t.requests[item.request] ==
           s.requests[item.request].(approved := true, fingerprint := None, revision := s.requests[item.request].revision + 1)
      && t == s.(items := t.items, requests := t.requests, audit := t.audit)
      && AuditedEach(s, t, "EDIT_REQUEST", [item.request])
  {
    hide EditAllowed, RequestAllowed, TransitionAllowed, ItemInScope;
  }

  // ----- creations

  /** A new request: waiting, not approved, without a fingerprint, at revision 1. */
  predicate NewRow(r: Request, id: Id, env: Id, items: seq<Item>) {
    && r.id == id && r.env == env && !r.approved && !r.rejected && !r.applied && r.fingerprint.None? && r.revision == 1
    && r.status == if exists i :: 0 <= i < |items| && items[i].action != DELETE && items[i].proposed.None? then NEEDS_INPUT else REQUESTED
  }

  lemma CreateOutcome(s: Db, id: Id, env: Id, items: seq<Item>, t: Db)
    requires Create(s, id, env, items) == Ok(t)
    ensures id !in s.requests && OnlyKey(s.requests, t.requests, id) && NewRow(t.requests[id], id, env, items)
    ensures Inserted(s, t.(requests := s.requests, audit := s.audit), items)
    ensures AuditedEach(s, t, "CREATE_REQUEST", [id])
  {
    hide InsertItems, Inserted;
    var m := s.(requests := s.requests[id := NewRequest(id, env, items)]);
    InsertItemsInserts(m, items);
    ItemsInserted(s, m, InsertItems(m, items).value, t, items);
  }

  lemma ItemsInserted(s: Db, m: Db, n: Db, t: Db, items: seq<Item>)
    requires Inserted(m, n, items) && m == s.(requests := m.requests) && t == n.(audit := t.audit)
    ensures Inserted(s, t.(requests := s.requests, audit := s.audit), items) && t.requests == m.requests && n.audit == s.audit
  {
  }

  // ----- versions

  /** The row as the write says: inserted when nothing was expected, or the expected version with a new value. */
  predicate RowWritten(s: Db, t: Db, w: VersionWrite)
    requires w.variable in t.vars
  {
    var row := t.vars[w.variable];
    && row.env == w.env && row.sealed == w.sealed && row.meta == w.meta
    && match w.expected
       case None =>
         row.id == w.variable && row.key == w.key && row.version == 1 && row.lifecycle == ACTIVE && w.variable !in s.vars
         && forall id :: id in s.vars ==> s.vars[id].env != w.env || s.vars[id].key != w.key
       case Some(version) =>
         && w.variable in s.vars && row.id == s.vars[w.variable].id && row.key == s.vars[w.variable].key && s.vars[w.variable].env == w.env
         && s.vars[w.variable].version == version && s.vars[w.variable].lifecycle == w.from
         && row.version == w.version && row.lifecycle == (if w.action == DELETE then DELETED else ACTIVE)
  }

  /** One version: its row and one new history row of the same value and metadata. */
  lemma VersionOutcome(s: Db, w: VersionWrite, t: Db)
    requires WriteVersion(s, w) == Some(t)
    ensures OnlyKey(s.vars, t.vars, w.variable) && RowWritten(s, t, w)
    ensures (w.variable, w.version) !in s.history && OnlyKey(s.history, t.history, (w.variable, w.version))
    ensures var h := t.history[(w.variable, w.version)];
      && h.variable == w.variable && h.env == w.env && h.version == w.version && h.operation == w.action && h.sealed == w.sealed
      && h.meta == w.meta && h.lifecycle == (if w.action == DELETE then DELETED else ACTIVE) && h.request == w.request && h.item == w.item
    ensures t == s.(vars := t.vars, history := t.history)
  {
    hide WriteHistory, RowWritten;
    var m := WriteVariable(s, w).value;
    RowPart(s, w, m);
    HistoryPart(m, w, t);
    assert RowWritten(s, t, w) by { SameRowWritten(s, m, s, t, w); }
  }

  lemma RowPart(s: Db, w: VersionWrite, m: Db)
    requires WriteVariable(s, w) == Some(m)
    ensures OnlyKey(s.vars, m.vars, w.variable) && RowWritten(s, m, w) && m == s.(vars := m.vars)
  {
    hide KeyTaken;
    if w.expected.None? { FreeKey(s, w.env, w.key); }
  }

  lemma FreeKey(s: Db, env: Id, key: Name)
    ensures !KeyTaken(s, env, key) ==> forall id :: id in s.vars ==> s.vars[id].env != env || s.vars[id].key != key
  {
  }

  lemma HistoryPart(m: Db, w: VersionWrite, t: Db)
    requires WriteHistory(m, w) == Some(t)
    ensures (w.variable, w.version) !in m.history && OnlyKey(m.history, t.history, (w.variable, w.version))
    ensures t.history[(w.variable, w.version)] ==
            History(w.variable, w.env, w.version, w.action, w.sealed, w.meta, if w.action == DELETE then DELETED else ACTIVE, w.request, w.item)
    ensures t == m.(history := t.history)
  {
  }

  /** A direct write leaves an applied request with its one item beside the new version. */
  lemma DirectOutcome(s: Db, d: Direct, t: Db)
    requires PersistDirect(s, d) == Ok(t)
    ensures var w := d.write;
      && w.request !in s.requests && OnlyKey(s.requests, t.requests, w.request)
      && t.requests[w.request] == Request(w.request, w.env, APPLIED, true, false, true, None, 1)
      && w.item !in s.items && OnlyKey(s.items, t.items, w.item)
      && t.items[w.item].request == w.request && t.items[w.item].action == w.action && t.items[w.item].key == w.key
      && t.items[w.item].proposed == (if w.action == DELETE then None else d.proposed)
      && OnlyKey(s.vars, t.vars, w.variable) && RowWritten(s, t, w)
      && OnlyKey(s.history, t.history, (w.variable, w.version))
      && t == s.(vars := t.vars, history := t.history, requests := t.requests, items := t.items, audit := t.audit)
      && AuditedEach(s, t, if w.action == DELETE then "DELETE_VARIABLE" else "DIRECT_APPLY_VARIABLE", [w.request])
  {
    hide WriteVersion, InsertItems, RowWritten;
    var w := d.write;
    var m := s.(requests := s.requests[w.request := DirectRequest(w)]);
    var item := DirectItem(d);
    var n := InsertItems(m, [item]).value;
    OneInserted(m, item);
    var v := WriteVersion(n, w).value;
    VersionOutcome(n, w, v);
    assert RowWritten(s, t, w) by { SameRowWritten(n, v, s, t, w); }
  }

  lemma SameRowWritten(n: Db, v: Db, s: Db, t: Db, w: VersionWrite)
    requires w.variable in v.vars && RowWritten(n, v, w) && n.vars == s.vars && v.vars == t.vars
    ensures RowWritten(s, t, w)
  {
  }

  lemma OneInserted(s: Db, item: Item)
    requires InsertItems(s, [item]).Some?
    ensures item.id !in s.items && InsertItems(s, [item]).value == s.(items := s.items[item.id := item])
  {
    hide ItemAllowed, ItemInScope;
    var m := s.(items := s.items[item.id := item]);
    assert [item][1..] == [] && InsertItems(m, []) == Some(m);
  }

  /** A new environment is open, with version 1 of its key ACTIVE. */
  lemma EnvironmentOutcome(s: Db, env: Id, service: Id, key: Key, t: Db)
    requires CreateEnvironment(s, env, service, key) == Ok(t)
    ensures env !in s.envs && OnlyKey(s.envs, t.envs, env) && t.envs[env] == Environment(service, false, false)
    ensures OnlyKey(s.keys, t.keys, (env, 1)) && t.keys[(env, 1)] == DekRow(key, false)
    ensures OnlyKey(s.active, t.active, env) && t.active[env] == 1
    ensures t == s.(envs := t.envs, keys := t.keys, active := t.active, audit := t.audit)
  {
  }
}
