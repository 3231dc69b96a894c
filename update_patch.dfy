/** The partial records the update operations of src/update/update.ts work
    on: the patch `applyIfDefined` builds from the request (every field may
    be absent), the extra stored fields the update reads, and the acting
    session. */
module ProfilePatches {
  import opened Domain

  /** `briefcase.consentedAt`: the request sends a flag, the update stores a date. */
  datatype Consent = ConsentFlag(given: bool) | ConsentedAt(at: Time)

  /** `briefcase.nursys`. */
  datatype NursysPatch = NursysPatch(isEnabled: Option<bool>, verificationText: Option<string>)

  datatype BriefcasePatch = BriefcasePatch(
    currentStep: Option<int>,
    consentedAt: Option<Consent>,
    nursys: Option<NursysPatch>,
    education: Option<seq<BriefcaseItem>>,
    references: Option<seq<BriefcaseItem>>,
    facilities: Option<seq<BriefcaseItem>>,
    additionalCertifications: Option<seq<BriefcaseItem>>,
    licenses: Option<seq<License>>)

  datatype JobsPatch = JobsPatch(workCities: Option<seq<WorkCity>>, workStates: Option<seq<string>>, workDistance: Option<int>)

  /** A URL field the update may leave alone, clear with `null`, or set. */
  datatype UrlValue = Unset | Null | Url(url: string)

  /** The update written for one professional. */
  datatype ProfilePatch = ProfilePatch(
    firstName: Option<string>,
    lastName: Option<string>,
    email: Option<string>,
    phoneNumber: Option<string>,
    profession: Option<string>,
    address: Option<Address>,
    profilePicUrl: UrlValue,
    profilePicThumbUrl: UrlValue,
    jobs: Option<JobsPatch>,
    briefcase: Option<BriefcasePatch>,
    /** `emailVerifiedAt = null` */
    emailVerifiedCleared: bool,
    verificationToken: Option<string>,
    verificationTokenExpiresAt: Option<Time>)

  /** The stored fields the update reads beyond the account record. */
  datatype StoredExtras = StoredExtras(
    profilePicUrl: Option<string>,
    profilePicThumbUrl: Option<string>,
    /** `briefcase.currentStep || 0` */
    currentStep: int,
    nursysVerificationText: Option<string>)

  /** The JWT session of an update request. */
  datatype Session = Session(userId: string, userType: UserType, isAdmin: bool)

  /** The stored briefcase's completion date, if any. */
  function CompletedAt(p: Professional): Option<Time>
  {
    if p.briefcase.Some? then p.briefcase.value.completedAt else None
  }
}
