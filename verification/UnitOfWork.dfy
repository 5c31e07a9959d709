/** The unit of work: a working copy of the store that only a commit writes back. */
module UnitsOfWork {
  import opened Common
  import opened ExecutionDomain
  import opened ApprovalDomain
  import opened GatewayStore

  class Store {
    var db: Db

    constructor ()
      ensures db == EMPTY
    {
      db := EMPTY;
    }
  }

  /** Every repository operation works on the copy; only Commit is allowed to touch the store. */
  class UnitOfWork {
    const store: Store
    var working: Db

    constructor Enter(store: Store)
      ensures this.store == store && working == store.db
    {
      this.store := store;
      working := store.db;
    }

    method Commit()
      modifies store
      ensures store.db == working
    {
      store.db := working;
    }

    method Rollback()
      modifies this
      ensures working == store.db
    {
      working := store.db;
    }

    method GetExecutionForUpdate(tenant: string, id: string) returns (x: Option<Execution>)
      ensures x == GetExecution(working, tenant, id)
    {
      if id in working.executions && working.executions[id].tenant == tenant {
        return Some(working.executions[id]);
      }
      return None;
    }

    /** Any execution that claims the scope will do. */
    method GetByIdempotencyKey(scope: Scope) returns (seen: Option<Execution>)
      ensures IsLookup(working.executions, scope, seen)
    {
      if e :| e in working.executions && ScopeOf(working.executions[e]) == scope {
        return Some(working.executions[e]);
      }
      return None;
    }

    method AddExecution(x: Execution) returns (error: Option<Error>)
      modifies this
      ensures match GatewayStore.AddExecution(old(working), x)
              case Ok(added) => error.None? && working == added
              case Err(e) => error == Some(e) && working == old(working)
    {
      if x.id in working.executions { return Some(DuplicateId); }
      if x.idempotencyKey.Some? {
        var holder := GetByIdempotencyKey(ScopeOf(x));
        if holder.Some? { return Some(IdempotencyRace); }
      }
      working := working.(executions := working.executions[x.id := x]);
      return None;
    }

    method SaveExecution(x: Execution)
      modifies this
      ensures working == old(working).(executions := old(working).executions[x.id := x])
    {
      working := working.(executions := working.executions[x.id := x]);
    }

    method GetAttemptForUpdate(tenant: string, id: string) returns (a: Option<Attempt>)
      ensures a == if id in working.attempts && working.attempts[id].tenant == tenant then Some(working.attempts[id])
              else None
    {
      if id in working.attempts && working.attempts[id].tenant == tenant {
        return Some(working.attempts[id]);
      }
      return None;
    }

    method AddAttempt(a: Attempt) returns (error: Option<Error>)
      modifies this
      ensures match GatewayStore.AddAttempt(old(working), a)
              case Ok(added) => error.None? && working == added
              case Err(e) => error == Some(e) && working == old(working)
    {
      if a.id in working.attempts || NumberTaken(working.attempts, a.executionId, a.number) {
        return Some(DuplicateId);
      }
      working := working.(attempts := working.attempts[a.id := a]);
      return None;
    }

    method SaveAttempt(a: Attempt)
      modifies this
      ensures working == old(working).(attempts := old(working).attempts[a.id := a])
    {
      working := working.(attempts := working.attempts[a.id := a]);
    }

    method GetApprovalForUpdate(tenant: string, id: string) returns (a: Option<Approval>)
      ensures a == GetApproval(working, tenant, id)
    {
      if id in working.approvals && working.approvals[id].tenant == tenant {
        return Some(working.approvals[id]);
      }
      return None;
    }

    method AddApproval(a: Approval) returns (error: Option<Error>)
      modifies this
      ensures match GatewayStore.AddApproval(old(working), a)
              case Ok(added) => error.None? && working == added
              case Err(e) => error == Some(e) && working == old(working)
    {
      if a.id in working.approvals { return Some(DuplicateId); }
      working := working.(approvals := working.approvals[a.id := a]);
      return None;
    }

    method SaveApproval(a: Approval)
      modifies this
      ensures working == old(working).(approvals := old(working).approvals[a.id := a])
    {
      working := working.(approvals := working.approvals[a.id := a]);
    }

    method AppendAudit(audit: Audit) returns (error: Option<Error>)
      modifies this
      ensures match GatewayStore.AppendAudit(old(working), audit)
              case Ok(added) => error.None? && working == added
              case Err(e) => error == Some(e) && working == old(working)
    {
      if !audit.WellFormed() { return Some(Invalid); }
      if exists a <- working.audits :: a.id == audit.id { return Some(DuplicateId); }
      working := working.(audits := working.audits + [audit]);
      return None;
    }
  }
}
