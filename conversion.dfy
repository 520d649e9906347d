/**
 * ConversionService: creating a job from uploaded files, the legacy
 * startConversionProcess, the ownership rules of the read operations and
 * cancelJob. The current user's id and admin flag, the new job's random id
 * and the outcomes of file storage and of the Airflow calls are inputs.
 */
module Conversion {
  import opened Wrappers
  import opened Jobs
  import opened Seqs

  /** The exceptions ConversionService throws, as values. */
  datatype ServiceError =
    | IllegalArgument(message: string)
    | IllegalState(message: string)
    | NullPointer
    | IOFailure(message: string)

  const NoFiles := "No files provided"
  const NoUser := "Authenticated user not found."
  const NoPermission := "You do not have permission to access this job."
  const CancelledByUser := "Cancelled by user"
  const TempRoot := "/tmp/c2java/"

  const CancelRequested := "Cancellation requested."
  const StoppingAirflow := "Stopping the Airflow workflow..."
  const TasksStopped := "Running tasks were stopped."
  const RunRemoved := "The Airflow workflow was removed."
  const DeleteSkipped := "Deleting the DAG run is optional; skipped."
  const StillCancelled := "Airflow is unreachable, but the job is marked cancelled."
  const NoAirflowInfo := "No Airflow workflow information. Cancelled locally."
  const CancelDone := "The job was cancelled."

  function JobNotFoundMessage(jobId: string): string { "Job not found: " + jobId }
  function AirflowCancelFailed(m: string): string { "Airflow cancellation failed: " + m }

  function StatusName(s: JobStatus): string
  {
    match s
    case PENDING => "PENDING"
    case ANALYZING => "ANALYZING"
    case CONVERTING => "CONVERTING"
    case COMPILING => "COMPILING"
    case TESTING => "TESTING"
    case REVIEWING => "REVIEWING"
    case COMPLETED => "COMPLETED"
    case FAILED => "FAILED"
    case CANCELLED => "CANCELLED"
  }

  function CannotCancel(s: JobStatus): string { "The job cannot be cancelled in state: " + StatusName(s) }

  // ---------------------------------------------------------------------------
  // createConversionJob and startConversionProcess
  // ---------------------------------------------------------------------------

  /** The temporary source path a job is created with. */
  function TempSourcePath(jobId: string): string { TempRoot + jobId }

  /**
   * createConversionJob. `fileNames` are the uploads' original names,
   * `newId` the random UUID, `uploadDir` the directory the first upload was
   * stored in (or the storage service's IOException). The Airflow start that
   * follows is not part of this model.
   */
  method CreateConversionJob(repo: JobRepository, fileNames: seq<string>, requestedName: Option<string>,
                             targetLanguage: Option<string>, llmProvider: Option<string>,
                             currentUser: Option<string>, newId: string, uploadDir: Result<string, string>)
    returns (r: Result<JobRecord, ServiceError>)
    modifies repo
    ensures fileNames == [] ==> r == Err(IllegalArgument(NoFiles)) && repo.jobs == old(repo.jobs)
    ensures fileNames != [] && currentUser.None? ==> r == Err(IllegalState(NoUser)) && repo.jobs == old(repo.jobs)
    ensures fileNames != [] && currentUser.Some? ==>
      && newId in repo.jobs && fresh(repo.jobs[newId])
      && repo.jobs == old(repo.jobs)[newId := repo.jobs[newId]]
      && var created := NewJobRecord(newId, currentUser, requestedName.GetOr(fileNames[0]),
                                     TempSourcePath(newId), targetLanguage, llmProvider);
         match uploadDir
         case Err(m) => r == Err(IOFailure(m)) && repo.jobs[newId].Record() == created
         case Ok(dir) => r == Ok(created.(sourcePath := dir)) && repo.jobs[newId].Record() == created.(sourcePath := dir)
  {
    if fileNames == [] {
      return Err(IllegalArgument(NoFiles));
    }
    var firstFileName := fileNames[0];
    if currentUser.None? {
      return Err(IllegalState(NoUser));
    }
    var job := new ConversionJob(newId, currentUser, requestedName.GetOr(firstFileName), TempSourcePath(newId),
                                 targetLanguage, llmProvider);
    repo.Save(job);
    match uploadDir {
      case Err(m) =>
        r := Err(IOFailure(m));
      case Ok(dir) =>
        job.sourcePath := dir;
        r := Ok(job.Record());
    }
  }

  /** A created job: PENDING, owned by the caller, named after the request or the first upload. */
  lemma CreatedJob(newId: string, user: string, fileNames: seq<string>, requestedName: Option<string>,
                   targetLanguage: Option<string>, llmProvider: Option<string>)
    requires fileNames != []
    ensures var created := NewJobRecord(newId, Some(user), requestedName.GetOr(fileNames[0]),
                                        TempSourcePath(newId), targetLanguage, llmProvider);
      && created.status == PENDING && created.userId == Some(user) && created.jobId == newId
      && (requestedName.None? ==> created.jobName == fileNames[0])
      && (requestedName.Some? ==> created.jobName == requestedName.value)
  {
  }

  /**
   * startConversionProcess: start(), then ANALYZING, then CONVERTING, where
   * the job stays. Nothing in the try block can throw, so its catch (fail)
   * is never reached.
   */
  method StartConversionProcess(repo: JobRepository, jobId: string) returns (r: Option<ServiceError>)
    modifies JobFrame(repo, jobId)
    ensures jobId !in repo.jobs ==> r == Some(IllegalArgument(JobNotFoundMessage(jobId)))
    ensures jobId in repo.jobs ==>
      r.None? && repo.jobs[jobId].Record() == old(repo.jobs[jobId].Record()).(status := CONVERTING)
  {
    if jobId !in repo.jobs {
      return Some(IllegalArgument(JobNotFoundMessage(jobId)));
    }
    var job := repo.jobs[jobId];
    job.Start();
    job.SetStatus(ANALYZING);
    job.SetStatus(CONVERTING);
    r := None;
  }

  // ---------------------------------------------------------------------------
  // Ownership rules
  // ---------------------------------------------------------------------------

  /**
   * The check of getJobStatus and cancelJob: `!isAdmin && !job.getUserId().equals(currentUserId)`.
   * A job without an owner makes the call on null throw for a non-admin.
   */
  function AccessCheck(owner: Option<string>, caller: Option<string>, isAdmin: bool): Option<ServiceError>
  {
    if isAdmin then None
    else
      match owner
      case None => Some(NullPointer)
      case Some(u) => if caller == Some(u) then None else Some(IllegalArgument(NoPermission))
  }

  /** Access is granted exactly to admins and to the job's owner. */
  lemma AccessCheckGrants(owner: Option<string>, caller: Option<string>, isAdmin: bool)
    ensures AccessCheck(owner, caller, isAdmin).None? <==> isAdmin || (owner.Some? && caller == owner)
    ensures !isAdmin && owner.None? ==> AccessCheck(owner, caller, isAdmin) == Some(NullPointer)
  {
  }

  /** getJobStatus: the job when the caller may see it. */
  method GetJobStatus(repo: JobRepository, jobId: string, caller: Option<string>, isAdmin: bool)
    returns (r: Result<JobRecord, ServiceError>)
    ensures jobId !in repo.jobs ==> r == Err(IllegalArgument(JobNotFoundMessage(jobId)))
    ensures jobId in repo.jobs ==>
      var j := repo.jobs[jobId].Record();
      && (r.Ok? <==> isAdmin || (j.userId.Some? && caller == j.userId))
      && (r.Ok? ==> r.value == j)
      && (!isAdmin && j.userId.None? ==> r == Err(NullPointer))
  {
    if jobId !in repo.jobs {
      return Err(IllegalArgument(JobNotFoundMessage(jobId)));
    }
    var job := repo.jobs[jobId];
    var denied := AccessCheck(job.userId, caller, isAdmin);
    if denied.Some? {
      return Err(denied.value);
    }
    r := Ok(job.Record());
  }

  /**
   * getAllJobs over the jobs newest first: all of them for an admin, none
   * for a non-admin without a user id, the caller's own otherwise.
   */
  function AllJobsFor(all: seq<JobRecord>, caller: Option<string>, isAdmin: bool): seq<JobRecord>
  {
    if isAdmin then all
    else if caller.None? then []
    else Filter(all, (j: JobRecord) => j.userId == caller)
  }

  /**
   * getJobsByStatus: the jobs in that status, narrowed to the caller's own
   * only for a non-admin whose id is known.
   */
  function JobsByStatusFor(all: seq<JobRecord>, status: JobStatus, caller: Option<string>, isAdmin: bool)
    : seq<JobRecord>
  {
    var jobs := Filter(all, (j: JobRecord) => j.status == status);
    if !isAdmin && caller.Some? then Filter(jobs, (j: JobRecord) => j.userId == caller) else jobs
  }

  /** Who sees which job through the two listings. */
  lemma ListingRules(all: seq<JobRecord>, status: JobStatus, caller: Option<string>, isAdmin: bool, x: JobRecord)
    ensures x in AllJobsFor(all, caller, isAdmin) <==> x in all && (isAdmin || (caller.Some? && x.userId == caller))
    ensures x in JobsByStatusFor(all, status, caller, isAdmin) <==>
      x in all && x.status == status && (isAdmin || caller.None? || x.userId == caller)
  {
    FilterMembers(all, (j: JobRecord) => j.userId == caller, x);
    FilterMembers(all, (j: JobRecord) => j.status == status, x);
    FilterMembers(Filter(all, (j: JobRecord) => j.status == status), (j: JobRecord) => j.userId == caller, x);
  }

  /**
   * A non-admin caller without a user id gets no job from getAllJobs but
   * every job in the asked status from getJobsByStatus.
   */
  lemma AnonymousListings(all: seq<JobRecord>, status: JobStatus, x: JobRecord)
    requires x in all && x.status == status
    ensures AllJobsFor(all, None, false) == []
    ensures x in JobsByStatusFor(all, status, None, false)
  {
    ListingRules(all, status, None, false, x);
  }

  // ---------------------------------------------------------------------------
  // cancelJob
  // ---------------------------------------------------------------------------

  predicate IsFinished(s: JobStatus) { s == COMPLETED || s == FAILED || s == CANCELLED }

  /**
   * The best-effort Airflow part of cancelJob. `cancelRun` and `deleteRun`
   * are the exception messages of the two Airflow calls, if they threw.
   */
  function AirflowCancelLog(j: JobRecord, cancelRun: Option<string>, deleteRun: Option<string>): JobRecord
  {
    if j.airflowDagId.None? || j.airflowRunId.None? then j.Logged(NoAirflowInfo)
    else
      var stopping := j.Logged(StoppingAirflow);
      match cancelRun
      case Some(m) => stopping.Logged(AirflowCancelFailed(m)).Logged(StillCancelled)
      case None =>
        var stopped := stopping.Logged(TasksStopped);
        if deleteRun.None? then stopped.Logged(RunRemoved) else stopped.Logged(DeleteSkipped)
  }

  /** cancelJob on a found job: the result and the job afterwards. */
  function CancelSpec(j: JobRecord, caller: Option<string>, isAdmin: bool,
                      cancelRun: Option<string>, deleteRun: Option<string>): (Result<JobRecord, ServiceError>, JobRecord)
  {
    match AccessCheck(j.userId, caller, isAdmin)
    case Some(e) => (Err(e), j)
    case None =>
      var requested := j.Logged(CancelRequested);
      if IsFinished(j.status) then (Err(IllegalState(CannotCancel(j.status))), requested)
      else
        var cancelled := requested.(status := CANCELLED, errorMessage := Some(CancelledByUser)).AtProgress("CANCELLED", 0);
        var after := AirflowCancelLog(cancelled, cancelRun, deleteRun).Logged(CancelDone);
        (Ok(after), after)
  }

  /** The Airflow part only appends to the log. */
  lemma AirflowCancelLogOnlyLogs(j: JobRecord, cancelRun: Option<string>, deleteRun: Option<string>)
    ensures AirflowCancelLog(j, cancelRun, deleteRun).(log := j.log) == j
    ensures j.log < AirflowCancelLog(j, cancelRun, deleteRun).log
  {
  }

  /**
   * cancelJob succeeds exactly for a permitted caller on an unfinished job,
   * and then leaves it CANCELLED with the message and progress 0 whatever
   * Airflow did; a finished job is refused with only the request line added;
   * a refused caller changes nothing.
   */
  lemma CancelOutcome(j: JobRecord, caller: Option<string>, isAdmin: bool,
                      cancelRun: Option<string>, deleteRun: Option<string>)
    ensures var (r, after) := CancelSpec(j, caller, isAdmin, cancelRun, deleteRun);
      && (r.Ok? <==> AccessCheck(j.userId, caller, isAdmin).None? && !IsFinished(j.status))
      && (r.Ok? ==> r.value == after && after.status == CANCELLED && after.progress == 0
                    && after.errorMessage == Some(CancelledByUser) && after.currentStage == Some("CANCELLED"))
      && (AccessCheck(j.userId, caller, isAdmin).Some? ==> after == j)
      && (AccessCheck(j.userId, caller, isAdmin).None? && IsFinished(j.status) ==>
            r == Err(IllegalState(CannotCancel(j.status))) && after == j.Logged(CancelRequested))
  {
    var requested := j.Logged(CancelRequested);
    var cancelled := requested.(status := CANCELLED, errorMessage := Some(CancelledByUser)).AtProgress("CANCELLED", 0);
    AirflowCancelLogOnlyLogs(cancelled, cancelRun, deleteRun);
  }

  method CancelJob(repo: JobRepository, jobId: string, caller: Option<string>, isAdmin: bool,
                   cancelRun: Option<string>, deleteRun: Option<string>)
    returns (r: Result<JobRecord, ServiceError>)
    modifies JobFrame(repo, jobId)
    ensures jobId !in repo.jobs ==> r == Err(IllegalArgument(JobNotFoundMessage(jobId)))
    ensures jobId in repo.jobs ==>
      (r, repo.jobs[jobId].Record()) == CancelSpec(old(repo.jobs[jobId].Record()), caller, isAdmin, cancelRun, deleteRun)
  {
    if jobId !in repo.jobs {
      return Err(IllegalArgument(JobNotFoundMessage(jobId)));
    }
    r := CancelOn(repo.jobs[jobId], caller, isAdmin, cancelRun, deleteRun);
  }

  /** cancelJob once the job has been found. */
  method CancelOn(job: ConversionJob, caller: Option<string>, isAdmin: bool,
                  cancelRun: Option<string>, deleteRun: Option<string>)
    returns (r: Result<JobRecord, ServiceError>)
    modifies job
    ensures (r, job.Record()) == CancelSpec(old(job.Record()), caller, isAdmin, cancelRun, deleteRun)
  {
    var denied := AccessCheck(job.userId, caller, isAdmin);
    if denied.Some? {
      return Err(denied.value);
    }
    job.AppendLog(CancelRequested);
    if IsFinished(job.status) {
      return Err(IllegalState(CannotCancel(job.status)));
    }
    MarkCancelled(job);
    LogAirflowCancel(job, cancelRun, deleteRun);
    job.AppendLog(CancelDone);
    r := Ok(job.Record());
  }

  /** setStatus(CANCELLED), setErrorMessage and updateProgress("CANCELLED", 0). */
  method MarkCancelled(job: ConversionJob)
    modifies job
    ensures job.Record() == old(job.Record()).(status := CANCELLED, errorMessage := Some(CancelledByUser))
                              .AtProgress("CANCELLED", 0)
  {
    job.SetStatus(CANCELLED);
    job.errorMessage := Some(CancelledByUser);
    job.UpdateProgress("CANCELLED", 0);
  }

  /** The Airflow block of cancelJob, whose every outcome is only logged. */
  method LogAirflowCancel(job: ConversionJob, cancelRun: Option<string>, deleteRun: Option<string>)
    modifies job
    ensures job.Record() == AirflowCancelLog(old(job.Record()), cancelRun, deleteRun)
  {
    if job.airflowDagId.None? || job.airflowRunId.None? {
      job.AppendLog(NoAirflowInfo);
      return;
    }
    job.AppendLog(StoppingAirflow);
    match cancelRun {
      case Some(m) =>
        job.AppendLog(AirflowCancelFailed(m));
        job.AppendLog(StillCancelled);
      case None =>
        job.AppendLog(TasksStopped);
        if deleteRun.None? {
          job.AppendLog(RunRemoved);
        } else {
          job.AppendLog(DeleteSkipped);
        }
    }
  }
}
