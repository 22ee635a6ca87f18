/** The condition store of an object, and how a round of its controller ends. */
module Conditions {

  /** `Ready` is the summary condition; the others are those of the GKE resource behind the object. */
  datatype ConditionType = Ready | ResourceReady | Creating | Updating | Deleting

  datatype Reason =
    | NoReason | CreatingReason | CreatedReason | UpdatedReason | DeletingReason | DeletedReason | ErrorReason
    | FailedReason | NodePoolRequiredReason

  datatype Condition = Condition(status: bool, reason: Reason)

  type ConditionMap = map<ConditionType, Condition>

  function MarkTrue(cs: ConditionMap, t: ConditionType): ConditionMap { cs[t := Condition(true, NoReason)] }

  function MarkFalse(cs: ConditionMap, t: ConditionType, r: Reason): ConditionMap { cs[t := Condition(false, r)] }

  /** Not ready, and not being created either. */
  function MarkThree(cs: ConditionMap, r: Reason): ConditionMap {
    MarkFalse(MarkFalse(MarkFalse(cs, Ready, r), ResourceReady, r), Creating, r)
  }

  /** Not ready while the resource is being created. */
  function MarkCreating(cs: ConditionMap): ConditionMap {
    MarkTrue(MarkFalse(MarkFalse(cs, Ready, CreatingReason), ResourceReady, CreatingReason), Creating)
  }

  /** Not ready while the resource is being deleted. */
  function MarkDeleting(cs: ConditionMap): ConditionMap {
    MarkTrue(MarkFalse(MarkFalse(cs, Ready, DeletingReason), ResourceReady, DeletingReason), Deleting)
  }

  predicate IsTrue(cs: ConditionMap, t: ConditionType) { t in cs && cs[t].status }

  /** `FailedPrecondition` is an API error of that code: another operation is at work. */
  datatype Result = Finished | Requeue | Errored | FailedPrecondition | Panicked
}
