/** Use cases and errors of crates/kesharon-application. */
module Application {
  import opened Wrappers
  import opened Domain
  import opened Protocol

  datatype ApplicationError =
    | Repository(message: string)
    | InvalidProject(error: ProjectError)
    | Storage(message: string)
    | Cancelled

  datatype Inspection = Inspection(canonicalRoot: string, displayName: string)

  /** What the repository port answers: an inspection, or the message of a repository error. */
  type InspectionResult = Result<Inspection, string>

  /**
    `OpenProject::execute`, given what its two readings of the cancellation flag saw, what the
    repository answered between them, and the next identifier.
   */
  function ExecuteOpen(
    cancelledBefore: bool, inspection: InspectionResult, cancelledAfter: bool, nextId: string)
    : Result<Project, ApplicationError>
  {
    if cancelledBefore then Failure(Cancelled)
    else match inspection
      case Failure(message) => Failure(Repository(message))
      case Success(found) =>
        if cancelledAfter then Failure(Cancelled) else BuildProject(found, nextId)
  }

  function BuildProject(found: Inspection, nextId: string): Result<Project, ApplicationError> {
    match NewProject(nextId, found.displayName, found.canonicalRoot, false)
    case Success(p) => Success(p)
    case Failure(e) => Failure(InvalidProject(e))
  }

  /** `classify_application_error` */
  function Classify(error: ApplicationError): (ErrorCode, string) {
    match error
    case Repository(message) =>
      if message == "notGitRepository"
      then (NotGitRepository, "Selected directory is not a Git worktree")
      else (ProjectPathUnavailable, "Selected directory could not be opened")
    case InvalidProject(_) => (InvalidRequest, "Project identity is invalid")
    case Storage(_) => (InternalError, "Storage error encountered")
    case Cancelled => (ErrorCode.OperationCancelled, "Project opening was cancelled")
  }
}
