/** Records shared by every operation of the users API: the professional
    account, its affiliations and briefcase, the acting session, the error
    classes raised to callers, and the side effects an operation emits. */
module Domain {

  datatype Option<T> = None | Some(value: T)

  /** An operation either yields a value or raises one of the error classes. */
  datatype Result<T> = Ok(value: T) | Err(error: ErrorKind)

  /** Instants (`new Date()`, `addDays(7)`) as integers on one clock. */
  type Time = int

  /** The number of clock units in a day; `addDays(7)` is `now + 7 * Day`. */
  const Day: int := 86400000

  /** The error classes raised by the users API operations or handed to `toHttpError`. */
  datatype ErrorKind =
    | AccountAlreadyExists
    | AccountAlreadyVerified
    | AddAffiliationRequired
    | AffiliationAlreadyExists
    | AffiliationNotFound
    | AffiliationRejected
    | DeactivatedAccount
    | DepartmentNotFound
    | EmailAlreadyInUse
    | InactiveAccount
    | InvalidCredentials
    | InvalidFilePath
    | InvalidShareType
    | InvalidVerificationToken
    | MidnightDate
    | NoDocuments
    | OrganizationNotFound
    | PasswordRequired
    | ProfessionAlreadyAssigned
    | ShareExpired
    | SuspendedAccount
    | TokenExpired
    | Unauthorized
    | UserNotFound
    /** A property read on `undefined` in the source (a JavaScript TypeError). */
    | TypeError

  /** User types. Only `Nurse` (the professional type) and `HospitalApi`
      (an organization's API-tier identity) are compared by name in the operations modelled here. */
  datatype UserType = Nurse | HospitalApi | OtherUser(code: string)

  /** An external-system linkage record on an affiliation or briefcase item:
      `id` names the external system, `externalId` the record there. */
  datatype ThirdPartySystem = ThirdPartySystem(id: string, externalId: string)
  type Links = seq<ThirdPartySystem>

  /** Webhook configuration an organization may carry. */
  datatype Webhooks = Webhooks(
    affiliationAdded: bool, updated: bool, itemUpdated: bool,
    itemDeleted: bool, fileUploaded: bool)

  datatype Organization = Organization(id: string, name: string, webhooks: Webhooks)

  /** The acting user of a session, with the outcome of the external
      `isHospitalUser` / `isAdminUser` classifications of its user type. */
  datatype SessionUser = SessionUser(
    id: string, userType: UserType, isHospitalUser: bool, isAdminUser: bool,
    organization: Option<Organization>)

  /** Recruiter of an affiliation: a reference to an organization user found
      by email, or the submitted payload stored inline. */
  datatype Recruiter =
    | RecruiterRef(userId: string)
    | RecruiterInline(firstName: string, lastName: string, email: string, phoneNumber: string)

  datatype Note = Note(createdBy: string, createdAt: Time, text: string)

  datatype Affiliation = Affiliation(
    organization: string,
    createdAt: Time,
    createdBy: string,
    acceptedAt: Option<Time>,
    acceptedBy: Option<string>,
    rejectedAt: Option<Time>,
    suspendedAt: Option<Time>,
    recruiter: Option<Recruiter>,
    department: Option<string>,
    thirdPartyId: Option<string>,
    thirdPartySystems: Option<Links>,
    notes: seq<Note>)

  /** A generic briefcase sub-item (education, reference, facility,
      additional certification): an id, the API linkage and the other fields. */
  datatype BriefcaseItem = BriefcaseItem(id: string, thirdPartySystems: Option<Links>, fields: map<string, string>)

  datatype License = License(
    id: string,
    licenseType: string,
    licenseBody: string,
    licenseNumber: string,
    expirationDate: Option<Time>,
    ssn: string,
    dateOfBirth: Option<string>,
    manualOverride: bool,
    verifiedAt: Option<Time>,
    verificationText: Option<string>,
    licenseState: Option<string>,
    thirdPartySystems: Option<Links>)

  datatype Certification = Certification(name: string, certifyingBody: Option<string>)

  datatype Briefcase = Briefcase(
    licensedAt: Option<Time>,
    completedAt: Option<Time>,
    licenses: seq<License>,
    specialties: seq<string>,
    certifications: seq<Certification>,
    education: seq<BriefcaseItem>,
    references: seq<BriefcaseItem>,
    facilities: seq<BriefcaseItem>,
    additionalCertifications: seq<BriefcaseItem>)

  /** Coordinates come from the city lookup and are opaque here. */
  type Coordinates = string

  datatype Address = Address(
    address1: string, city: string, state: string, zip: string, country: string,
    coordinates: Option<Coordinates>)

  datatype WorkCity = WorkCity(city: string, state: string, country: string, coordinates: Option<Coordinates>)

  /** A value the read side may replace by `true` (date of birth, SSN). */
  datatype Secret = Hidden | Plain(text: string) | Masked

  /** The professional account as stored. Empty strings stand for unset text. */
  datatype Professional = Professional(
    id: string,
    intId: int,
    userType: UserType,
    firstName: string,
    lastName: string,
    email: string,
    phoneNumber: string,
    profession: string,
    address: Option<Address>,
    activatedAt: Option<Time>,
    deactivatedAt: Option<Time>,
    suspendedAt: Option<Time>,
    isMarketplace: Option<bool>,
    verificationToken: Option<string>,
    verificationTokenExpiresAt: Option<Time>,
    passwordResetToken: Option<string>,
    passwordResetTokenExpiresAt: Option<Time>,
    dateOfBirth: Secret,
    ssn: Secret,
    affiliations: Option<seq<Affiliation>>,
    briefcase: Option<Briefcase>,
    workCities: seq<WorkCity>,
    signupChannel: string,
    signupIpAddress: string,
    passwordHash: Option<string>,
    emailCommunicationEnabled: Option<bool>,
    createdBy: string)

  /** The affiliations of a record, `[]` when the field is absent. */
  function AffiliationsOf(p: Professional): seq<Affiliation>
  {
    if p.affiliations.Some? then p.affiliations.value else []
  }

  /** Notification templates the add and update operations choose between. */
  datatype Template =
    | VerifyEmailNurse
    | PrnWelcome
    | AddBriefcaseAffiliation
    | EmailConfirmedNurse
    | JnpActivationWelcomeDay1
    | EmailChangeConfirmation
    | NursysSuccessVerifyLicense
    | NursysFailureVerifyLicense
    | NursysManualVerificationRequired
    | ProfileCompletedNursePrn
    | ProfileCompletedNurseMarketplace
    | BriefcaseCompletedToRecruiter
    | OnboardingSms

  datatype WebhookKind = AffiliationAddedHook | ProfessionalUpdatedHook | ItemUpdatedHook | ItemDeletedHook | FileUploadedHook

  datatype AuditAction = UserCreated | UserUpdated | UserItemAdded | UserItemUpdated | UserItemDeleted | UserSuspended

  /** Repository writes whose internals are not modelled. */
  datatype WriteKind =
    | TokenRefresh
    | AttachAffiliation(organization: string)
    | SetMarketplace
    | InsertRecord
    | UpdateRecord
    | AddItem
    | UpdateItemWrite
    | DeleteItemWrite
    | ShareBriefcase

  /** Side effects, in the order the operation issues them. */
  datatype Effect =
    /** A notification; `query` is the query string of its verify link ("" when it has none). */
    | Notify(template: Template, to: string, query: string)
    | Webhook(kind: WebhookKind, organization: string)
    | S3Copy(key: string)
    | S3Delete(key: string)
    | StagingDelete(uploadId: string)
    | Audit(action: AuditAction)
    | Suspend
    | Write(what: WriteKind)

  /** The index of the first record write in a log, or |log| if none. */
  function FirstWrite(log: seq<Effect>): (k: nat)
    ensures k <= |log|
    ensures forall i :: 0 <= i < k ==> !log[i].Write?
    ensures k < |log| ==> log[k].Write?
  {
    if |log| == 0 then 0
    else if log[0].Write? then 0
    else 1 + FirstWrite(log[1..])
  }
}
