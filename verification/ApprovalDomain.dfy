/** An approval: bound to one call, expiring, and consumed at most once. */
module ApprovalDomain {
  import opened Common
  import opened Text

  datatype ApprovalStatus = Pending | Approved | Rejected | Expired | Consumed

  datatype Approval = Approval(
    id: string, tenant: string, principal: string, toolId: string, version: string,
    argumentsDigest: string, policyVersion: string, status: ApprovalStatus,
    requestedAt: Time, expiresAt: Time, idempotencyKey: Option<string>,
    decidedBy: Option<string>, decidedAt: Option<Time>, consumedAt: Option<Time>)
  {
    predicate Decided() {
      decidedBy.Some? && decidedAt.Some?
    }

    /** The text checks of the constructor; no transition changes a text field. */
    predicate Named() {
      NoneBlank([id, tenant, principal, toolId, version, argumentsDigest, policyVersion]) &&
      (idempotencyKey.Some? ==> !Blank(idempotencyKey.value))
    }

    /** The other checks of the constructor, which every replacement runs again. */
    predicate WellFormed() {
      && requestedAt < expiresAt
      && (status.Pending? ==> decidedBy.None? && decidedAt.None? && consumedAt.None?)
      && (status in {Approved, Rejected, Expired} ==> Decided())
      && (status.Consumed? <==> consumedAt.Some?)
      && (status.Consumed? ==> Decided())
    }
  }

  /** The call that wants to consume an approval. */
  datatype Call = Call(tenant: string, principal: string, version: string, argumentsDigest: string,
                       policyVersion: string, idempotencyKey: Option<string>)

  predicate Covers(a: Approval, call: Call) {
    && a.principal == call.principal && a.version == call.version && a.argumentsDigest == call.argumentsDigest
    && a.policyVersion == call.policyVersion && a.idempotencyKey == call.idempotencyKey
  }

  datatype ValueError = ValueError

  function Checked(a: Approval): Result<Approval, ValueError> {
    if a.WellFormed() then Ok(a) else Err(ValueError)
  }

  /** `approve` and `reject` */
  function Decide(a: Approval, approver: string, approved: bool, now: Time): Result<Approval, ValueError> {
    if Blank(approver) || !a.status.Pending? || now >= a.expiresAt then Err(ValueError)
    else
      var decision := if approved then Approved else Rejected;
      Checked(a.(status := decision, decidedBy := Some(approver), decidedAt := Some(now)))
  }

  function Expire(a: Approval, now: Time): Result<Approval, ValueError> {
    if a.status !in {Pending, Approved} || now < a.expiresAt then Err(ValueError)
    else if a.status.Approved? then Checked(a.(status := Expired))
    else Checked(a.(status := Expired, decidedBy := Some("system"), decidedAt := Some(now)))
  }

  function Consume(a: Approval, call: Call, now: Time): Result<Approval, ValueError> {
    if !a.status.Approved? || now >= a.expiresAt || !Covers(a, call) then Err(ValueError)
    else Checked(a.(status := Consumed, consumedAt := Some(now)))
  }
}
