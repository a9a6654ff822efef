/** The read phase of each call seals under the ACTIVE key, so its transaction is an ordinary write while that key stays ACTIVE. */
module SealedCalls {
  import opened Text
  import opened Crypto
  import opened Model
  import opened Fingerprint
  import opened Store
  import opened StoreProofs
  import opened StoreRuns
  import opened WorkflowStale
  import opened Import
  import opened ImportProofs
  import opened ImportRepeat
  import Calls
  import Workflow
  import RotationWrites

  lemma CreateSealsActive(a: Db, b: Db, env: Id, request: Id, inputs: seq<Calls.ItemInput>, draws: seq<Workflow.Drawn>)
    requires |inputs| == |draws| && IdsHold(a) && Calls.ReadCreate(a, env, request, inputs, draws).Ok? && b.active == a.active
    ensures RotationWrites.SealsActive(b, CreateOp(request, env, Calls.ReadCreate(a, env, request, inputs, draws).value))
  {
    hide IdsHold, DekByVersion, Calls.PrepareItems, NextDisplayOrder;
    Calls.CreatedItemsFit(a, env, DekByVersion(a, env, a.active[env]).value, request, inputs, draws, {}, NextDisplayOrder(a, env));
  }

  lemma FulfilSealsActive(a: Db, b: Db, id: Id, value: string, random: Random)
    requires Calls.ReadFulfill(a, id, value, random).Ok? && Grows(a, b) && b.active == a.active
    ensures var (item, sealed) := Calls.ReadFulfill(a, id, value, random).value; RotationWrites.SealsActive(b, FulfillOp(item, sealed))
  {
    hide DekByVersion, KeysGrow;
  }

  lemma RecordSealsActive(a: Db, b: Db, env: Id, input: Input, draw: Draw)
    requires IdsHold(a) && PrepareDirect(a, env, input, draw).Ok? && b.active == a.active
    ensures RotationWrites.SealsActive(b, DirectOp(PrepareDirect(a, env, input, draw).value))
  {
    hide IdsHold, RowByKey, InputMeta, ValidateKey, InputTarget, DekByVersion;
  }

  lemma DeleteSealsActive(a: Db, b: Db, id: Id, draw: Draw)
    requires Calls.ReadDelete(a, id, draw).Ok? && b.active == a.active
    ensures RotationWrites.SealsActive(b, DirectOp(Calls.ReadDelete(a, id, draw).value))
  {
    hide DekByVersion, DecryptRow;
  }

  /** An import tests in its transaction that the key is still the ACTIVE one. */
  lemma ImportSealsActive(a: Db, b: Db, env: Id, inputs: seq<Input>, draws: seq<Draw>, refs: seq<Reference>, expected: Option<seq<Review>>)
    requires |inputs| == |draws| && Inv(a) && Inv(b) && Grows(a, b) && ImportRead(a, env, inputs, draws).Ok?
    requires ImportCommit(b, env, ImportRead(a, env, inputs, draws).value, refs, expected).Ok?
    ensures RotationWrites.SealsActive(b, ImportOp(env, Changed(ImportRead(a, env, inputs, draws).value)))
  {
    hide Inv, Grows, ImportCommit, ReadLine, LineCurrent, DirectShaped, ReviewsAllow, Changed, DekByVersion, PersistDirects;
    hide IdsHold, KeysUnique, HistoryComplete, StatusesHold, ItemsHold, Readable, ImportRead, LineFits, WriteShaped, Tracks;
    InvIds(a);
    ReadIsReady(a, b, env, inputs, draws);
    var lines := ImportRead(a, env, inputs, draws).value;
    CommitParts(b, env, lines, refs, expected);
    ChangedLines(lines);
    forall i | 0 <= i < |Changed(lines)| ensures RotationWrites.DirectActive(b, Changed(lines)[i]) {
      assert ComesFrom(lines, Changed(lines)[i]);
      var k :| 0 <= k < |lines| && !lines[k].same && lines[k].direct == Changed(lines)[i];
      LineParts(a, env, inputs[k], draws[k]);
      CurrentDek(b, env, lines[k]);
      OneKey(a, env, WithDescription(inputs[k], lines[k].snapshot), draws[k]);
    }
  }

  lemma OneKey(db: Db, env: Id, input: Input, draw: Draw)
    requires PrepareDirect(db, env, input, draw).Ok?
    ensures var d := PrepareDirect(db, env, input, draw).value;
            d.write.env == env && d.proposed.Some? && d.proposed.value.dek == d.write.sealed.dek
  {
    hide RowByKey, InputMeta, ValidateKey, InputTarget, DekByVersion;
  }
}
