/** Values shared by the runner modules: identifiers, results, clocks. */
module RunnerModel {
  import opened Prelude

  // Identifiers the runner only ever compares for equality.
  type TenantId(==, !new)
  type ReleaseId(==, !new)
  type IdempotencyKey(==, !new)
  type Fingerprint(==, !new)
  type RunId(==, !new)
  type InvocationId(==, !new)
  type LeaseId(==, !new)
  type RuntimeId(==, !new)
  type ProfileName(==, !new)
  type WorkerId(==, !new)

  /** A point on the one clock every component reads. */
  type Time = int

  datatype RunResult = RunResult(
    status: string,
    relationship: string,
    content: seq<Byte>,
    attributes: map<string, string>,
    retryable: bool,
    errorCode: string,
    errorMessage: string,
    workerId: string,
    durationMs: int)

  /** Primary key of the idempotency table. */
  datatype Key = Key(tenant: TenantId, release: ReleaseId, idempotencyKey: IdempotencyKey)
}
