/** `toHttpError` (helper.ts): the mapping from the error class an operation
    raised to the HTTP status the handlers answer with. */
module HttpErrors {
  import opened Domain

  /** An error as it leaves an operation: raised by an operation of the users API, or already
      wrapped in an `HttpError` carrying a status. */
  datatype Raised = Raised(kind: ErrorKind) | HttpError(status: int, cause: ErrorKind)

  function Cause(e: Raised): ErrorKind
  {
    match e
    case Raised(k) => k
    case HttpError(_, k) => k
  }

  /** The account-state errors, which `toHttpError` answers with 403. */
  predicate IsAccountStateError(k: ErrorKind)
  {
    k == DeactivatedAccount || k == InactiveAccount || k == SuspendedAccount || k == ShareExpired
  }

  /** The not-found and validation errors. */
  predicate IsRequestError(k: ErrorKind)
  {
    || k == AffiliationAlreadyExists || k == AffiliationNotFound || k == AffiliationRejected
    || k == NoDocuments || k == UserNotFound || k == EmailAlreadyInUse || k == InvalidCredentials
    || k == InvalidFilePath || k == InvalidShareType || k == InvalidVerificationToken
    || k == TokenExpired || k == MidnightDate || k == OrganizationNotFound || k == PasswordRequired
  }

  /** The errors that report an existing account or a pending confirmation. */
  predicate IsConflictError(k: ErrorKind)
  {
    k == AddAffiliationRequired || k == AccountAlreadyExists || k == AccountAlreadyVerified
  }

  /** Matches the error's exact class; an error of any other class (an
      `HttpError` included) is returned unchanged. */
  function ToHttpError(e: Raised): (r: Raised)
    ensures Cause(r) == Cause(e)
    ensures e.HttpError? ==> r == e
    ensures e.Raised? && IsAccountStateError(e.kind) ==> r == HttpError(403, e.kind)
    ensures e.Raised? && IsRequestError(e.kind) ==> r == HttpError(400, e.kind)
    ensures e.Raised? && IsConflictError(e.kind) ==> r == HttpError(409, e.kind)
    ensures e.Raised? && !IsAccountStateError(e.kind) && !IsRequestError(e.kind) && !IsConflictError(e.kind) ==> r == e
  {
    match e
    case HttpError(_, _) => e
    case Raised(k) =>
      match k
      case DeactivatedAccount => HttpError(403, k)
      case InactiveAccount => HttpError(403, k)
      case SuspendedAccount => HttpError(403, k)
      case ShareExpired => HttpError(403, k)
      case AffiliationAlreadyExists => HttpError(400, k)
      case AffiliationNotFound => HttpError(400, k)
      case AffiliationRejected => HttpError(400, k)
      case NoDocuments => HttpError(400, k)
      case UserNotFound => HttpError(400, k)
      case EmailAlreadyInUse => HttpError(400, k)
      case InvalidCredentials => HttpError(400, k)
      case InvalidFilePath => HttpError(400, k)
      case InvalidShareType => HttpError(400, k)
      case InvalidVerificationToken => HttpError(400, k)
      case TokenExpired => HttpError(400, k)
      case MidnightDate => HttpError(400, k)
      case OrganizationNotFound => HttpError(400, k)
      case PasswordRequired => HttpError(400, k)
      case AddAffiliationRequired => HttpError(409, k)
      case AccountAlreadyExists => HttpError(409, k)
      case AccountAlreadyVerified => HttpError(409, k)
      case _ => e
  }

  /** The three classes are disjoint, so every raised error gets at most one status. */
  lemma StatusClassesDisjoint(k: ErrorKind)
    ensures !(IsAccountStateError(k) && IsRequestError(k))
    ensures !(IsAccountStateError(k) && IsConflictError(k))
    ensures !(IsRequestError(k) && IsConflictError(k))
  {
  }

  /** Mapping twice is mapping once: a wrapped error is never re-wrapped. */
  lemma ToHttpErrorIdempotent(e: Raised)
    ensures ToHttpError(ToHttpError(e)) == ToHttpError(e)
  {
  }

  /** The workflow gate `AddAffiliationRequired` answers with the same status
      as the conflict `AccountAlreadyExists`, so a caller cannot tell them
      apart by status; `PasswordRequired` answers like a not-found error. */
  lemma WorkflowGateSharesConflictStatus()
    ensures ToHttpError(Raised(AddAffiliationRequired)).status == ToHttpError(Raised(AccountAlreadyExists)).status == 409
    ensures ToHttpError(Raised(PasswordRequired)).status == ToHttpError(Raised(UserNotFound)).status == 400
  {
  }

  /** Errors outside the switch keep their class and get no status here:
      a profession conflict, a missing department, an authorization failure. */
  lemma UnlistedErrorsPassThrough()
    ensures ToHttpError(Raised(ProfessionAlreadyAssigned)) == Raised(ProfessionAlreadyAssigned)
    ensures ToHttpError(Raised(DepartmentNotFound)) == Raised(DepartmentNotFound)
    ensures ToHttpError(Raised(Unauthorized)) == Raised(Unauthorized)
  {
  }
}
