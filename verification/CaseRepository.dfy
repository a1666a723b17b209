/** The case repository (repositories/recovery_cases.py) at work on a session, proved against CaseSpec. */
module CaseRepository {
  import opened Outcomes
  import opened Lifecycle
  import opened Records
  import opened Database
  import opened BaselineSpec
  import opened CaseSpec

  class RecoveryCaseRepository {
    const session: Session

    constructor (session: Session)
      ensures this.session == session
    {
      this.session := session;
    }

    /** `create`: the new row is durable, or nothing changes. */
    method Create(draft: RecoveryCase) returns (r: Result<CaseId, Error>)
      requires session.Fresh() && Durable(session.committed)
      modifies session`working, session`committed
      ensures match CreateCase(Core(old(session.committed).store, old(session.committed).trials), draft)
              case Ok(t) =>
                r == Ok(|old(session.committed).store.cases|) && session.committed == old(session.committed).(store := t)
              case Err(e) => r == Err(e) && session.committed == old(session.committed)
    {
      var row := draft.(sourceId := Strip(draft.sourceId), status := AtRisk);
      if !ValidCase(row) {
        return Err(ValidationError);
      }
      ghost var core := Core(session.working.store, session.working.trials);
      var db := session.working;
      var t := WithCase(db.store, row);
      session.working := db.(store := t);
      WithCaseTrials(db.store, db.trials, row);
      assert CreateCase(core, draft) == if Durable(session.working) then Ok(t) else Err(IntegrityError);
      var ok := session.Commit();
      r := if ok then Ok(|db.store.cases|) else Err(IntegrityError);
    }

    /** `transition`. */
    method Transition(c: CaseId, target: Status) returns (r: Result<Status, Error>)
      requires session.Fresh() && Durable(session.committed)
      modifies session`working, session`committed
      ensures match Patch(old(session.committed).store, c, target)
              case Ok(t) => r == Ok(target) && session.committed == old(session.committed).(store := t)
              case Err(e) => r == Err(e) && session.committed == old(session.committed)
    {
      if c >= |session.working.store.cases| {
        return Err(NotFoundError);
      }
      var row := session.working.store.cases[c];
      var next := TransitionTo(row.status, target);
      if next.Err? {
        return Err(TransitionRejected);
      }
      row := row.(status := next.value);
      ghost var core := Core(session.committed.store, session.committed.trials);
      session.working := session.working.(store := session.working.store.(cases := session.working.store.cases[c := row]));
      PatchKeeps(core, c, target);
      PatchTrials(core, c, target);
      var ok := session.Commit();
      r := Ok(row.status);
    }
  }
}
