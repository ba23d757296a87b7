/** Provider-neutral job records, `execution/contracts.py`. */
module Jobs {
  import opened Outcomes
  import opened JsonValues

  datatype Profile = DemoFast | V1Compat | TestFail

  datatype ExecutionJob = ExecutionJob(
    jobId: string, runId: string, logicalAnalysisId: string, attemptNumber: int, profile: Profile,
    createdAt: Instant, claimedAt: Option<Instant>, workerId: Option<string>)
}
