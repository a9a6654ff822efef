/** In an environment that is archived, or whose App is, nothing is prepared and nothing is imported or corrected. */
module Refusals {
  import opened Text
  import opened Crypto
  import opened Model
  import opened Fingerprint
  import opened Store
  import opened Workflow
  import opened Import
  import opened Calls

  predicate Closed(db: Db, env: Id) { env in db.envs && (db.envs[env].archived || db.envs[env].serviceArchived) }

  lemma NoPreviewOrApply(db: Db, ids: seq<Id>, supply: Id -> Drawn)
    requires ids != [] && ids[0] in db.requests && Closed(db, db.requests[ids[0]].env)
    ensures ReadPreview(db, ids).Err? && ReadApply(db, ids, supply).Err?
  {
    hide LoadItems, CurrentRows, SelectionValid, Resolve, PrepareApply;
  }

  lemma NoCorrection(db: Db, ids: seq<Id>, fingerprint: Digest, correction: Correction, random: Random)
    requires ids != [] && ids[0] in db.requests && Closed(db, db.requests[ids[0]].env)
    ensures ReadEdit(db, ids, fingerprint, correction, random).Err?
    ensures forall env, expected, edit :: Closed(db, env) ==> EditTransaction(db, ids, env, expected, edit) == Err(Conflict)
  {
    hide LoadItems, CurrentRows, SelectionValid, SelectionDigest, CorrectItem;
  }

  lemma NoCreation(db: Db, env: Id, request: Id, inputs: seq<ItemInput>, draws: seq<Drawn>)
    requires |inputs| == |draws| && Closed(db, env)
    ensures ReadCreate(db, env, request, inputs, draws) == Err(Conflict)
  {
  }

  lemma NoDirectWrite(db: Db, env: Id, input: Input, draw: Draw, id: Id)
    requires Closed(db, env)
    ensures PrepareDirect(db, env, input, draw) == Err(Conflict)
    ensures id in db.vars && db.vars[id].env == env && db.vars[id].lifecycle == ACTIVE ==> ReadDelete(db, id, draw) == Err(Conflict)
    ensures forall lines, refs, expected :: ImportCommit(db, env, lines, refs, expected) == Err(Conflict)
  {
    hide DecryptRow, PersistImport, Reviews, ReviewsAllow;
  }
}
