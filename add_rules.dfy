/** The decisions of `addProfessional`, `getOrganization` and `add`
    (src/add/add.ts) as functions over the stored account and the request:
    which organization applies, whether the add is an IRP add, which channel
    and token an account gets, when an existing account is turned away, and
    what a newly created account and its affiliation look like. */
module AddRules {
  import opened Domain
  import opened VerifyLink

  /** How a recruiter arrives: an organization-user id, or a payload (which
      may carry the id of an organization user). */
  datatype RecruiterInput =
    | RecruiterById(userId: string)
    | RecruiterPayload(id: Option<string>, firstName: string, lastName: string, email: string, phoneNumber: string)

  /** What `add` receives. Empty strings stand for omitted text. */
  datatype AddOptions = AddOptions(
    session: Option<SessionUser>,
    organization: Option<Organization>,
    user: Professional,
    recruiter: Option<RecruiterInput>,
    thirdPartyId: string,
    thirdPartySystems: Option<Links>,
    departmentId: string,
    notes: string,
    isIrpAdd: bool,
    external: bool)

  /** The lookups `add` performs and the fresh values it draws. */
  datatype AddEnv = AddEnv(
    now: Time,
    freshId: string,
    freshToken: string,
    /** department id to the id of the organization it belongs to */
    departments: map<string, string>,
    /** organization-user email to organization-user id */
    organizationUsers: map<string, string>,
    /** (city, state, country) to coordinates */
    cities: map<(string, string, string), Coordinates>,
    jnpHospitalId: Option<string>)

  /** What `addProfessional` receives. */
  datatype AddRequest = AddRequest(
    sessionUserId: Option<string>,
    external: bool,
    password: string,
    organizationId: string,
    recruiter: Option<RecruiterInput>,
    item: Professional,
    ipAddress: string,
    signupChannel: string,
    isIrp: Option<bool>,
    thirdPartyId: string,
    thirdPartySystems: Option<Links>,
    departmentId: string)

  /** The records `addProfessional` looks up by id. */
  datatype Directory = Directory(
    users: map<string, SessionUser>,
    organizations: map<string, Organization>,
    organizationUserIds: set<string>)

  predicate IsApiSession(session: Option<SessionUser>)
  {
    session.Some? && session.value.userType == HospitalApi
  }

  predicate IsHospitalSession(session: Option<SessionUser>)
  {
    session.Some? && session.value.isHospitalUser
  }

  /** `getOrganization`: a hospital session's own organization wins; otherwise
      a requested id must name an organization; a hospital session left
      without one is unauthorized. The result is never `null`. */
  function GetOrganization(session: Option<SessionUser>, organizationId: string, organizations: map<string, Organization>): (r: Result<Option<Organization>>)
    ensures IsHospitalSession(session) && session.value.organization.Some? ==> r == Ok(session.value.organization)
    ensures r.Ok? && r.value.Some? && !(IsHospitalSession(session) && session.value.organization.Some?)
            ==> organizationId in organizations && r.value.value == organizations[organizationId]
    ensures r == Ok(None) <==> !IsHospitalSession(session) && organizationId == ""
    ensures r == Err(OrganizationNotFound) <==>
            !(IsHospitalSession(session) && session.value.organization.Some?) && organizationId != "" && organizationId !in organizations
    ensures r == Err(Unauthorized) <==>
            IsHospitalSession(session) && session.value.organization.None? && organizationId == ""
    ensures r.Err? ==> r.error == OrganizationNotFound || r.error == Unauthorized
  {
    var own := if IsHospitalSession(session) then session.value.organization else None;
    if own.None? && organizationId != "" then
      if organizationId in organizations then Ok(Some(organizations[organizationId]))
      else Err(OrganizationNotFound)
    else if own.None? && IsHospitalSession(session) then Err(Unauthorized)
    else Ok(own)
  }

  /** The `isIrpAdd` flag of `addProfessional`. */
  function IsIrpAdd(session: Option<SessionUser>, external: bool, isIrp: Option<bool>): (irp: bool)
    ensures session.None? && !external ==> !irp
    ensures external ==> (irp <==> isIrp == Some(true))
    ensures !external && IsHospitalSession(session) ==> (irp <==> isIrp != Some(false))
    ensures !external && !IsHospitalSession(session) ==> !irp
  {
    (IsHospitalSession(session) && !external && isIrp != Some(false)) || (external && isIrp == Some(true))
  }

  /** The sign-up channel: API sessions are always "API", then the requested
      channel, else "WEB". */
  function SignupChannel(session: Option<SessionUser>, requested: string): (c: string)
    ensures c != ""
    ensures IsApiSession(session) ==> c == "API"
    ensures !IsApiSession(session) && requested != "" ==> c == requested
  {
    if IsApiSession(session) then "API" else if requested != "" then requested else "WEB"
  }

  /** Whether the request's password is hashed onto the new account. */
  predicate HashesPassword(hasSession: bool, external: bool, password: string)
  {
    (!external && !hasSession) || (external && password != "")
  }

  /** A public sign-up (no session, not external) keeps only its identity
      fields; everything else in the payload is dropped. */
  function SignupSubset(item: Professional): (u: Professional)
    ensures u.firstName == item.firstName && u.lastName == item.lastName && u.email == item.email
    ensures u.phoneNumber == item.phoneNumber && u.profession == item.profession
    ensures u.address.None? && u.briefcase.None? && u.affiliations.None? && u.isMarketplace.None?
    ensures u.emailCommunicationEnabled.None? && u.workCities == [] && u.activatedAt.None?
  {
    Professional(
      "", 0, item.userType, item.firstName, item.lastName, item.email, item.phoneNumber, item.profession,
      None, None, None, None, None, None, None, None, None, Hidden, Hidden, None, None, [], "", "", None, None, "")
  }

  /** The decision part of `addProfessional`: the session user must exist, a
      public sign-up needs a password, the organization must resolve, a
      recruiter given by id must exist; then the options handed to `add`. */
  function PrepareAdd(req: AddRequest, dir: Directory, passwordHash: string): (r: Result<AddOptions>)
    ensures req.sessionUserId.Some? && req.sessionUserId.value !in dir.users ==> r == Err(UserNotFound)
    ensures r == Err(PasswordRequired) <==> req.sessionUserId.None? && !req.external && req.password == ""
    ensures r.Ok? ==> r.value.notes == "" && r.value.external == req.external
    ensures r.Ok? && IsHospitalSession(r.value.session) ==> r.value.organization.Some?
    ensures r.Ok? && r.value.session.None? && !req.external ==> r.value.user == SignupSubset(req.item).(
              signupIpAddress := req.ipAddress, signupChannel := SignupChannel(None, req.signupChannel),
              passwordHash := Some(passwordHash))
    ensures r.Ok? && req.recruiter.Some? && req.recruiter.value.RecruiterById? ==> req.recruiter.value.userId in dir.organizationUserIds
  {
    if req.sessionUserId.Some? && req.sessionUserId.value !in dir.users then Err(UserNotFound)
    else if req.sessionUserId.None? && !req.external && req.password == "" then Err(PasswordRequired)
    else
      var session := if req.sessionUserId.Some? then Some(dir.users[req.sessionUserId.value]) else None;
      var org := GetOrganization(session, req.organizationId, dir.organizations);
      if org.Err? then Err(org.error)
      else if req.recruiter.Some? && req.recruiter.value.RecruiterById? && req.recruiter.value.userId !in dir.organizationUserIds then
        Err(UserNotFound)
      else
        var base := if session.Some? || req.external then req.item else SignupSubset(req.item);
        var user := base.(
          signupIpAddress := req.ipAddress,
          signupChannel := SignupChannel(session, req.signupChannel),
          passwordHash := if HashesPassword(session.Some?, req.external, req.password) then Some(passwordHash) else base.passwordHash);
        Ok(AddOptions(session, org.value, user, req.recruiter, req.thirdPartyId, req.thirdPartySystems,
                      req.departmentId, "", IsIrpAdd(session, req.external, req.isIrp), req.external))
  }

  /** The stored account under an email, if any. */
  function Lookup(accounts: map<string, Professional>, email: string): Option<Professional>
  {
    if email in accounts then Some(accounts[email]) else None
  }

  /** Both professions set and different (exact, case-sensitive). */
  predicate ProfessionClash(requested: string, stored: string)
  {
    requested != "" && stored != "" && requested != stored
  }

  /** The existing account already belongs where the add would put it: the
      marketplace when there is no organization, or the organization through
      any affiliation (rejected ones included) that is accepted or whose add
      is not an IRP add. */
  predicate AlreadyRegistered(e: Professional, org: Option<Organization>, isIrpAdd: bool)
  {
    (org.None? && e.isMarketplace == Some(true))
    || (org.Some? &&
        exists i :: 0 <= i < |AffiliationsOf(e)| &&
          AffiliationsOf(e)[i].organization == org.value.id && (!isIrpAdd || AffiliationsOf(e)[i].acceptedAt.Some?))
  }

  /** A rejected affiliation to the organization still blocks a non-IRP add. */
  lemma RejectedAffiliationStillRegistered(e: Professional, org: Organization, i: int)
    requires 0 <= i < |AffiliationsOf(e)| && AffiliationsOf(e)[i].organization == org.id
    requires AffiliationsOf(e)[i].rejectedAt.Some?
    ensures AlreadyRegistered(e, Some(org), false)
  {
  }

  /** The department check: only with a department id and a session, and the
      department must belong to the add's organization. */
  function ResolveDepartment(o: AddOptions, departments: map<string, string>): (r: Result<Option<string>>)
    ensures r.Err? ==> r.error == DepartmentNotFound && o.departmentId != "" && o.session.Some?
    ensures r.Ok? && r.value.Some? ==>
              r.value.value == o.departmentId && o.organization.Some? &&
              o.departmentId in departments && departments[o.departmentId] == o.organization.value.id
    ensures o.session.None? || o.departmentId == "" ==> r == Ok(None)
    ensures o.session.Some? && o.departmentId != "" && o.organization.None? ==> r == Err(DepartmentNotFound)
  {
    if o.departmentId != "" && o.session.Some? then
      if o.organization.Some? && o.departmentId in departments && departments[o.departmentId] == o.organization.value.id then
        Ok(Some(o.departmentId))
      else Err(DepartmentNotFound)
    else Ok(None)
  }

  /** The verification token of a re-triggered add: the stored one while its
      expiry is set and not past, otherwise a fresh one. */
  function TokenFor(e: Professional, now: Time, issued: string): (t: Option<string>)
    ensures e.verificationTokenExpiresAt.Some? && e.verificationTokenExpiresAt.value >= now ==> t == e.verificationToken
    ensures e.verificationTokenExpiresAt.None? || e.verificationTokenExpiresAt.value < now ==> t == Some(issued)
  {
    if e.verificationTokenExpiresAt.None? || e.verificationTokenExpiresAt.value < now then Some(issued)
    else e.verificationToken
  }

  /** The existing account after the token write of a re-triggered add (and
      the marketplace flag when a session adds without an organization). */
  function RefreshedAccount(e: Professional, o: AddOptions, env: AddEnv): (p: Professional)
    ensures p.verificationToken == TokenFor(e, env.now, env.freshToken)
    ensures p.verificationTokenExpiresAt == Some(env.now + 7 * Day)
    ensures p.isMarketplace == (if o.session.Some? && o.organization.None? then Some(true) else e.isMarketplace)
    ensures p.email == e.email && p.affiliations == e.affiliations && p.activatedAt == e.activatedAt
  {
    e.(verificationToken := TokenFor(e, env.now, env.freshToken),
       verificationTokenExpiresAt := Some(env.now + 7 * Day),
       isMarketplace := if o.session.Some? && o.organization.None? then Some(true) else e.isMarketplace)
  }

  /** Once a token is issued, any re-trigger within its seven days hands out
      the same token again, whatever fresh value is drawn then. */
  lemma TokenReusedUntilExpiry(e: Professional, o: AddOptions, env: AddEnv, later: Time, fresh2: string)
    requires env.now <= later <= env.now + 7 * Day
    ensures TokenFor(RefreshedAccount(e, o, env), later, fresh2) == TokenFor(e, env.now, env.freshToken)
  {
  }

  /** An expired token is never handed out again. */
  lemma ExpiredTokenReplaced(e: Professional, now: Time, issued: string)
    requires e.verificationTokenExpiresAt.Some? && e.verificationTokenExpiresAt.value < now
    requires e.verificationToken != Some(issued)
    ensures TokenFor(e, now, issued) != e.verificationToken
  {
  }

  /** The organization as the link builders receive it from `add`: an
      organization or an omitted argument, never `null`. */
  function OrgArgOf(org: Option<Organization>): (a: OrgArg)
    ensures !a.OrgNull?
    ensures a.OrgGiven? <==> org.Some?
  {
    if org.Some? then OrgGiven(org.value.id) else OrgOmitted
  }

  /** Links built by `add` never ask for a marketplace sign-up: the
      `isMarketplace=true` branch of the builders is unreachable from it. */
  lemma AddLinksNeverMarkMarketplace(token: string, org: Option<Organization>, recruiterId: Option<string>)
    requires QuerySafe(token) && (org.Some? ==> QuerySafe(org.value.id))
    requires recruiterId.Some? ==> QuerySafe(recruiterId.value)
    ensures "isMarketplace" !in Keys(Parse(ActivationQuery(token, OrgArgOf(org))))
    ensures "isMarketplace" !in Keys(Parse(AddAffiliationQuery(token, OrgArgOf(org), recruiterId)))
  {
    ActivationLinkDecodes(token, OrgArgOf(org));
    AddAffiliationLinkDecodes(token, OrgArgOf(org), recruiterId);
    var ps := AddAffiliationParams(token, OrgArgOf(org), recruiterId);
    var ks := Keys(ps);
    forall i | 0 <= i < |ks| ensures ks[i] != "isMarketplace" {
      KeysAt(ps, i);
      assert ps[i] == if i == 0 then ("token", token)
                      else if i == 1 && org.Some? then ("organizationId", org.value.id)
                      else ("recruiterId", recruiterId.value);
    }
  }

  lemma {:induction false} KeysAt(ps: seq<Param>, i: int)
    requires 0 <= i < |ps|
    ensures Keys(ps)[i] == ps[i].0
    decreases i
  {
    if i > 0 {
      KeysAt(ps[1..], i - 1);
    }
  }

  /** The welcome template: the PRN welcome when an IRP add has a session
      user to name, the plain verification email otherwise. */
  function ActivationTemplate(isIrpAdd: bool, session: Option<SessionUser>): (t: Template)
    ensures t == PrnWelcome <==> isIrpAdd && session.Some?
    ensures t == PrnWelcome || t == VerifyEmailNurse
  {
    if isIrpAdd && session.Some? then PrnWelcome else VerifyEmailNurse
  }

  /** The activation notice re-sent when an unactivated account is turned away. */
  function ActivationNotice(e: Professional, o: AddOptions): Effect
  {
    Notify(ActivationTemplate(o.isIrpAdd, o.session), e.email, ActivationQuery(TokenText(e.verificationToken), OrgArgOf(o.organization)))
  }

  /** `organization?._id?.toString() === jnpSettings.hospitalId`: an absent
      organization matches an unset hospital id. */
  predicate JnpMatch(org: Option<Organization>, jnpHospitalId: Option<string>)
  {
    (if org.Some? then Some(org.value.id) else None) == jnpHospitalId
  }

  predicate FiresAffiliationAdded(o: AddOptions)
  {
    !IsApiSession(o.session) && o.organization.Some? && o.organization.value.webhooks.affiliationAdded
  }

  /** The recruiter id of the add-affiliation link: only for external adds,
      read from the recruiter's id (a payload without one fails). */
  function RecruiterQueryId(o: AddOptions): (r: Result<Option<string>>)
    ensures r.Err? <==> o.external && o.recruiter.Some? && o.recruiter.value.RecruiterPayload? && o.recruiter.value.id.None?
    ensures r.Ok? && r.value.Some? ==> o.external && o.recruiter.Some?
  {
    if o.external && o.recruiter.Some? then
      match o.recruiter.value
      case RecruiterById(id) => Ok(Some(id))
      case RecruiterPayload(id, _, _, _, _) => if id.Some? then Ok(id) else Err(TypeError)
    else Ok(None)
  }

  /** The effects of an add that meets an existing account and passes the
      checks, in order. */
  function ExistingAccountEffects(e: Professional, o: AddOptions, env: AddEnv): seq<Effect>
  {
    var token := TokenText(TokenFor(e, env.now, env.freshToken));
    if o.session.None? then
      var rid := RecruiterQueryId(o);
      [Write(TokenRefresh)]
      + if rid.Err? then []
        else [Notify(AddBriefcaseAffiliation, e.email, AddAffiliationQuery(token, OrgArgOf(o.organization), rid.value))]
    else
      (if o.organization.Some? then
         [Write(TokenRefresh), Write(AttachAffiliation(o.organization.value.id))]
         + (if FiresAffiliationAdded(o) then [Webhook(AffiliationAddedHook, o.organization.value.id)] else [])
       else [Write(SetMarketplace)])
      + [if e.activatedAt.Some? then Notify(EmailConfirmedNurse, e.email, "")
         else Notify(AddBriefcaseAffiliation, e.email, AddAffiliationQuery(token, OrgOmitted, None))]
      + (if o.isIrpAdd && JnpMatch(o.organization, env.jnpHospitalId) && e.activatedAt.None?
         then [Notify(JnpActivationWelcomeDay1, e.email, ActivationQuery(token, OrgOmitted))] else [])
  }

  /** The error an add that meets an existing account and passes the checks ends with. */
  function ExistingAccountError(o: AddOptions): (k: ErrorKind)
    ensures k == AddAffiliationRequired || k == TypeError
  {
    if o.session.None? && RecruiterQueryId(o).Err? then TypeError else AddAffiliationRequired
  }

  /** The existing-account path writes the token first; with a session it
      attaches the affiliation (or marks the marketplace) and still sends a
      notice; the account's own effects never include an insert. */
  lemma ExistingAccountPathShape(e: Professional, o: AddOptions, env: AddEnv)
    ensures var log := ExistingAccountEffects(e, o, env);
      |log| >= 1 && log[0].Write? && Write(InsertRecord) !in log
    ensures o.session.Some? && o.organization.Some? ==>
      Write(AttachAffiliation(o.organization.value.id)) in ExistingAccountEffects(e, o, env)
    ensures o.session.Some? && o.organization.None? ==> ExistingAccountEffects(e, o, env)[0] == Write(SetMarketplace)
    ensures o.session.None? ==>
      (ExistingAccountEffects(e, o, env)[0] == Write(TokenRefresh)
       && forall k :: 0 <= k < |ExistingAccountEffects(e, o, env)| ==> !ExistingAccountEffects(e, o, env)[k].Webhook?)
  {
  }

  /** The recruiter stored on a new affiliation: a given id, else the
      organization user found by the payload's email, else the payload. */
  function ResolveRecruiter(input: RecruiterInput, organizationUsers: map<string, string>): (r: Recruiter)
    ensures input.RecruiterPayload? && input.email != "" && input.email in organizationUsers
            ==> r == RecruiterRef(organizationUsers[input.email])
    ensures input.RecruiterPayload? && (input.email == "" || input.email !in organizationUsers)
            ==> r == RecruiterInline(input.firstName, input.lastName, input.email, input.phoneNumber)
    ensures input.RecruiterById? ==> r == RecruiterRef(input.userId)
  {
    match input
    case RecruiterById(id) => RecruiterRef(id)
    case RecruiterPayload(_, first, last, email, phone) =>
      if email != "" && email in organizationUsers then RecruiterRef(organizationUsers[email])
      else RecruiterInline(first, last, email, phone)
  }

  /** The creator recorded on a new account: the session user, else the account itself. */
  function CreatedBy(session: Option<SessionUser>, selfId: string): string
  {
    if session.Some? then session.value.id else selfId
  }

  /** The affiliation a new account gets when there is an organization. */
  function NewAffiliation(o: AddOptions, env: AddEnv, department: Option<string>): (a: Affiliation)
    requires o.organization.Some?
    ensures a.organization == o.organization.value.id && a.createdAt == env.now
    ensures a.createdBy == CreatedBy(o.session, env.freshId)
    ensures a.acceptedAt.Some? <==> o.session.Some? && o.isIrpAdd
    ensures a.acceptedBy.Some? <==> o.session.Some? && o.isIrpAdd
    ensures a.acceptedBy.Some? ==> a.acceptedBy.value == o.session.value.id && a.acceptedAt == Some(env.now)
    ensures a.rejectedAt.None? && a.suspendedAt.None?
    ensures a.thirdPartySystems.Some? <==> IsApiSession(o.session) && o.thirdPartySystems.Some?
    ensures a.thirdPartySystems.Some? ==> a.thirdPartySystems == o.thirdPartySystems
    ensures a.thirdPartyId.Some? <==> o.thirdPartyId != ""
    ensures a.recruiter.Some? <==> o.recruiter.Some?
    ensures a.department == department
    ensures |a.notes| == (if o.notes != "" then 1 else 0)
  {
    Affiliation(
      o.organization.value.id,
      env.now,
      CreatedBy(o.session, env.freshId),
      if o.session.Some? && o.isIrpAdd then Some(env.now) else None,
      if o.session.Some? && o.isIrpAdd then Some(o.session.value.id) else None,
      None,
      None,
      if o.recruiter.Some? then Some(ResolveRecruiter(o.recruiter.value, env.organizationUsers)) else None,
      department,
      if o.thirdPartyId != "" then Some(o.thirdPartyId) else None,
      if IsApiSession(o.session) && o.thirdPartySystems.Some? then o.thirdPartySystems else None,
      if o.notes != "" then [Note(if o.session.Some? then o.session.value.id else "", env.now, o.notes)] else [])
  }

  /** A briefcase with no content at all (`isEmptyObject`). */
  predicate IsEmptyBriefcase(b: Briefcase)
  {
    b.licensedAt.None? && b.completedAt.None? && b.licenses == [] && b.specialties == []
    && b.certifications == [] && b.education == [] && b.references == [] && b.facilities == []
    && b.additionalCertifications == []
  }

  /** The stored address of a new account: country defaults to "US", and
      missing coordinates are taken from the city table when it has the city. */
  function NormalizeAddress(a: Option<Address>, cities: map<(string, string, string), Coordinates>): (r: Option<Address>)
    ensures r.Some? <==> a.Some?
    ensures r.Some? ==> r.value.country != "" && r.value.city == a.value.city && r.value.state == a.value.state
    ensures r.Some? && a.value.country != "" ==> r.value.country == a.value.country
    ensures r.Some? && a.value.coordinates.Some? ==> r.value.coordinates == a.value.coordinates
  {
    if a.None? then None
    else
      var country := if a.value.country == "" then "US" else a.value.country;
      var key := (a.value.city, a.value.state, country);
      Some(a.value.(country := country,
                    coordinates := if a.value.coordinates.None? && key in cities then Some(cities[key]) else a.value.coordinates))
  }

  /** A work city with the country defaulted to "US". */
  function DefaultCountry(w: WorkCity): WorkCity
  {
    if w.country == "" then w.(country := "US") else w
  }

  /** The work cities of a new account, each with its country defaulted. */
  function DefaultCountries(ws: seq<WorkCity>): (r: seq<WorkCity>)
    ensures |r| == |ws|
    ensures forall i :: 0 <= i < |r| ==> r[i].country != "" && r[i].city == ws[i].city && r[i].state == ws[i].state
  {
    seq(|ws|, i requires 0 <= i < |ws| => DefaultCountry(ws[i]))
  }

  /** The record `add` inserts for a new email. */
  function NewAccount(o: AddOptions, env: AddEnv, department: Option<string>): (p: Professional)
    ensures p.id == env.freshId && p.email == o.user.email
    ensures p.signupChannel == o.user.signupChannel && p.profession == o.user.profession
    ensures p.createdBy == CreatedBy(o.session, env.freshId)
    ensures p.verificationToken == Some(env.freshToken) && p.verificationTokenExpiresAt == Some(env.now + 7 * Day)
    ensures p.emailCommunicationEnabled.Some?
    ensures o.organization.Some? ==> p.affiliations == Some([NewAffiliation(o, env, department)]) && p.isMarketplace == o.user.isMarketplace
    ensures o.organization.None? ==> p.isMarketplace == Some(true) && p.affiliations == o.user.affiliations
    ensures p.briefcase.Some? ==> !IsEmptyBriefcase(p.briefcase.value)
    ensures |p.workCities| == |o.user.workCities|
    ensures forall i :: 0 <= i < |p.workCities| ==> p.workCities[i].country != ""
  {
    o.user.(
      id := env.freshId,
      createdBy := CreatedBy(o.session, env.freshId),
      verificationToken := Some(env.freshToken),
      verificationTokenExpiresAt := Some(env.now + 7 * Day),
      emailCommunicationEnabled := if o.user.emailCommunicationEnabled.None? then Some(true) else o.user.emailCommunicationEnabled,
      address := NormalizeAddress(o.user.address, env.cities),
      workCities := DefaultCountries(o.user.workCities),
      briefcase := if o.user.briefcase.Some? && IsEmptyBriefcase(o.user.briefcase.value) then None else o.user.briefcase,
      affiliations := if o.organization.Some? then Some([NewAffiliation(o, env, department)]) else o.user.affiliations,
      isMarketplace := if o.organization.Some? then o.user.isMarketplace else Some(true))
  }

  /** An IRP add without a session user for the JNP hospital: building the JNP
      welcome reads the absent session user's name and throws, after the
      insert and the audit entry and before any notice is sent. */
  predicate JnpWelcomeThrows(o: AddOptions, env: AddEnv)
  {
    o.isIrpAdd && JnpMatch(o.organization, env.jnpHospitalId) && o.session.None?
  }

  /** What the new-account path returns: the inserted record, or the
      `TypeError` of the JNP welcome built without a session user. */
  function NewAccountOutcome(o: AddOptions, env: AddEnv, department: Option<string>): (r: Result<Professional>)
    ensures r.Err? <==> JnpWelcomeThrows(o, env)
    ensures r.Err? ==> r.error == TypeError
    ensures r.Ok? ==> r.value == NewAccount(o, env, department)
  {
    if JnpWelcomeThrows(o, env) then Err(TypeError) else Ok(NewAccount(o, env, department))
  }

  /** The effects of creating a new account, in order: the insert, the audit
      entry, the activation notice (plus the JNP welcome), then the webhook;
      only the insert and the audit entry when the JNP welcome throws. */
  function NewAccountEffects(o: AddOptions, env: AddEnv): seq<Effect>
  {
    [Write(InsertRecord), Audit(UserCreated)]
    + if JnpWelcomeThrows(o, env) then []
      else
        [Notify(ActivationTemplate(o.isIrpAdd, o.session), o.user.email, ActivationQuery(env.freshToken, OrgOmitted))]
        + (if o.isIrpAdd && JnpMatch(o.organization, env.jnpHospitalId)
           then [Notify(JnpActivationWelcomeDay1, o.user.email, ActivationQuery(env.freshToken, OrgOmitted))] else [])
        + (if FiresAffiliationAdded(o) then [Webhook(AffiliationAddedHook, o.organization.value.id)] else [])
  }

  /** A new account added for an organization gets exactly one affiliation,
      accepted exactly for IRP adds by a session user; without one it keeps
      the affiliations the body gave. The insert comes first; the webhook
      closes the log exactly when it fires and the JNP welcome does not throw,
      and a throwing JNP welcome leaves only the insert and its audit entry. */
  lemma NewAccountShape(o: AddOptions, env: AddEnv, department: Option<string>)
    ensures o.organization.Some? ==> |AffiliationsOf(NewAccount(o, env, department))| == 1
    ensures o.organization.None? ==> AffiliationsOf(NewAccount(o, env, department)) == AffiliationsOf(o.user)
    ensures o.organization.Some? ==>
      var a := AffiliationsOf(NewAccount(o, env, department))[0];
      (a.acceptedAt.Some? <==> o.session.Some? && o.isIrpAdd) && a.rejectedAt.None?
    ensures var log := NewAccountEffects(o, env);
      log[0] == Write(InsertRecord) && FirstWrite(log) == 0
      && (FiresAffiliationAdded(o) && !JnpWelcomeThrows(o, env) <==> log[|log| - 1].Webhook?)
    ensures JnpWelcomeThrows(o, env) <==> NewAccountEffects(o, env) == [Write(InsertRecord), Audit(UserCreated)]
  {
  }
}
