/** `getProfessional` (src/get/get.ts): the session and access checks of a
    read by id, then the redaction of the fetched record according to who
    reads it and what was selected. */
module GetProfessional {
  import opened Domain
  import opened Strings
  import opened ReadSide

  /** The stored session the caller's token names; `invalidatedAt` is set when it is revoked. */
  datatype SessionRecord = SessionRecord(invalidatedAt: Option<Time>)

  /** `options.select`: a share access level (a string), a projection naming fields, or nothing. */
  datatype Selection = NoSelect | ShareAccess(access: string) | Fields(names: set<string>)

  /** A read: the stored session and acting user the token leads to, whether
      the token's own user type is a hospital type, the id asked for ("" when
      none), the selection, and whether the projection the repository builds
      from the selection already includes `isMarketplace`. */
  datatype GetRequest = GetRequest(
    session: Option<SessionRecord>,
    sessionUser: Option<SessionUser>,
    claimsHospital: bool,
    userId: string,
    select: Selection,
    projectsMarketplace: bool)

  /** `typeof options.select === 'string'` with a non-empty string: a share read. */
  predicate IsShare(s: Selection)
  {
    s.ShareAccess? && s.access != ""
  }

  predicate SelectsAffiliations(s: Selection)
  {
    s.Fields? && exists k :: k in s.names && (k == "affiliations" || StartsWith(k, "affiliations."))
  }

  predicate SessionInvalid(req: GetRequest)
  {
    req.session.None? || req.session.value.invalidatedAt.Some?
  }

  /** The record a read by id finds: the first professional with that id. */
  function FindNurse(records: seq<Professional>, id: string): (r: Option<Professional>)
    ensures r.Some? ==> r.value in records && r.value.id == id && r.value.userType == Nurse
    ensures r.None? ==> forall p :: p in records ==> !(p.id == id && p.userType == Nurse)
  {
    if |records| == 0 then None
    else if records[0].id == id && records[0].userType == Nurse then Some(records[0])
    else FindNurse(records[1..], id)
  }

  /** `isMarketplace` is removed for a share read, and when it is in the
      projection without having been selected (a hospital session adds it). */
  predicate DropsMarketplace(req: GetRequest)
  {
    IsShare(req.select)
    || ((req.projectsMarketplace || req.claimsHospital) && !(req.select.Fields? && "isMarketplace" in req.select.names))
  }

  /** The organization a hospital acting user is limited to. */
  function HospitalScope(su: SessionUser): Option<string>
  {
    if su.isHospitalUser && su.organization.Some? then Some(su.organization.value.id) else None
  }

  predicate HasLive(affs: seq<Affiliation>)
  {
    exists i :: 0 <= i < |affs| && affs[i].rejectedAt.None?
  }

  /** The affiliations returned: none unless they were selected outside a
      share read; otherwise the kept ones, and none when nothing is kept. A
      hospital acting user without an organization fails on the first live
      affiliation compared. */
  function VisibleAffiliations(req: GetRequest, su: SessionUser, affs: Option<seq<Affiliation>>): (r: Result<Option<seq<Affiliation>>>)
    ensures r.Ok? && r.value.Some? ==>
      SelectsAffiliations(req.select) && affs.Some? && |r.value.value| > 0
      && forall a :: a in r.value.value ==>
           (a in affs.value && a.rejectedAt.None?
            && (su.isHospitalUser ==> su.organization.Some? && a.organization == su.organization.value.id))
    ensures r.Err? ==> r.error == TypeError
    ensures r.Err? <==> !IsShare(req.select) && SelectsAffiliations(req.select) && affs.Some?
                        && su.isHospitalUser && su.organization.None? && HasLive(affs.value)
    // every live affiliation in the reader's scope is returned
    ensures r.Ok? && !IsShare(req.select) && SelectsAffiliations(req.select) && affs.Some? ==>
      forall a :: (r.value.Some? && a in r.value.value) <==>
        (a in affs.value && a.rejectedAt.None?
         && (su.isHospitalUser ==> su.organization.Some? && a.organization == su.organization.value.id))
    ensures !IsShare(req.select) && SelectsAffiliations(req.select) && affs.Some?
            && !(su.isHospitalUser && su.organization.None?) ==>
      var kept := Kept(affs.value, HospitalScope(su));
      r == if |kept| == 0 then Ok(None) else Ok(Some(kept))
  {
    if IsShare(req.select) || !SelectsAffiliations(req.select) || affs.None? then Ok(None)
    else if su.isHospitalUser && su.organization.None? then
      // nothing live is kept; the comparison on the first live one throws
      if HasLive(affs.value) then Err(TypeError) else Ok(None)
    else
      var kept := Kept(affs.value, HospitalScope(su));
      KeptFacts(affs.value, HospitalScope(su), su);
      if |kept| == 0 then Ok(None) else Ok(Some(kept))
  }

  /** The membership facts of `Kept` that `VisibleAffiliations` states: an
      affiliation is kept exactly when it is live and in the reader's scope. */
  lemma KeptFacts(affs: seq<Affiliation>, scope: Option<string>, su: SessionUser)
    requires scope == HospitalScope(su)
    requires su.isHospitalUser ==> su.organization.Some?
    ensures forall a :: a in Kept(affs, scope) <==>
      (a in affs && a.rejectedAt.None?
       && (su.isHospitalUser ==> su.organization.Some? && a.organization == su.organization.value.id))
  {
    forall a
      ensures a in Kept(affs, scope) <==>
        (a in affs && a.rejectedAt.None?
         && (su.isHospitalUser ==> su.organization.Some? && a.organization == su.organization.value.id))
    {
      KeptExact(affs, scope, a);
    }
  }

  /** A share read other than "full" masks the secrets. */
  predicate MasksSecrets(req: GetRequest)
  {
    IsShare(req.select) && req.select.access != "full"
  }

  predicate AttachesLicenseStates(req: GetRequest)
  {
    IsShare(req.select) || (req.select.Fields? && "briefcase.licenses" in req.select.names)
  }

  /** What a found, accessible record becomes before it is returned. */
  function Redacted(req: GetRequest, su: SessionUser, p: Professional, lookup: map<string, string>): (r: Result<Professional>)
    ensures r.Ok? ==> r.value == p.(isMarketplace := r.value.isMarketplace, affiliations := r.value.affiliations,
                                     dateOfBirth := r.value.dateOfBirth, ssn := r.value.ssn, briefcase := r.value.briefcase)
    ensures r.Ok? && DropsMarketplace(req) ==> r.value.isMarketplace.None?
    ensures r.Ok? && !DropsMarketplace(req) ==> r.value.isMarketplace == p.isMarketplace
    ensures r.Ok? && !(SelectsAffiliations(req.select) && !IsShare(req.select)) ==> r.value.affiliations.None?
    ensures r.Ok? && MasksSecrets(req) ==> r.value.dateOfBirth == Mask(p.dateOfBirth) && r.value.ssn == Mask(p.ssn)
    ensures r.Ok? && !MasksSecrets(req) ==> r.value.dateOfBirth == p.dateOfBirth && r.value.ssn == p.ssn
    // the affiliations are exactly the visible ones, and only their failure fails the redaction
    ensures r.Err? <==> VisibleAffiliations(req, su, p.affiliations).Err?
    ensures r.Ok? ==> r.value.affiliations == VisibleAffiliations(req, su, p.affiliations).value
    // license states are attached on a share read or a `briefcase.licenses` select, and only then
    ensures r.Ok? && AttachesLicenseStates(req) ==> r.value.briefcase == WithLicenseStates(p, lookup).briefcase
    ensures r.Ok? && !AttachesLicenseStates(req) ==> r.value.briefcase == p.briefcase
  {
    var u := if DropsMarketplace(req) then p.(isMarketplace := None) else p;
    match VisibleAffiliations(req, su, u.affiliations)
    case Err(e) => Err(e)
    case Ok(affs) =>
      var u := u.(affiliations := affs);
      var u := if MasksSecrets(req) then MaskSecrets(u) else u;
      Ok(if AttachesLicenseStates(req) then WithLicenseStates(u, lookup) else u)
  }

  /** The whole read: `records` is the professional collection, `hasAccess`
      the outcome of the access rule for the acting user, `lookup` the state
      of each license body. `Ok(None)` is an empty answer. */
  function GetOutcome(req: GetRequest, records: seq<Professional>, hasAccess: Professional -> bool, lookup: map<string, string>): (r: Result<Option<Professional>>)
    ensures SessionInvalid(req) ==> r == Err(Unauthorized)
    ensures !SessionInvalid(req) && req.sessionUser.None? ==> r == Err(UserNotFound)
    ensures !SessionInvalid(req) && req.sessionUser.Some? && req.userId == "" && req.sessionUser.value.userType != Nurse ==> r == Ok(None)
    ensures r.Ok? && r.value.Some? ==>
      !SessionInvalid(req) && req.sessionUser.Some?
      && var id := if req.userId == "" then req.sessionUser.value.id else req.userId;
         FindNurse(records, id).Some? && hasAccess(FindNurse(records, id).value)
         && r.value.value.id == id
    // a found record the acting user may access is returned, redacted
    ensures !SessionInvalid(req) && req.sessionUser.Some? && (req.userId != "" || req.sessionUser.value.userType == Nurse) ==>
      var su := req.sessionUser.value;
      var found := FindNurse(records, if req.userId == "" then su.id else req.userId);
      (found.None? ==> r == Ok(None))
      && (found.Some? && !hasAccess(found.value) ==> r == Err(Unauthorized))
      && (found.Some? && hasAccess(found.value) && Redacted(req, su, found.value, lookup).Ok?
          ==> r == Ok(Some(Redacted(req, su, found.value, lookup).value)))
      && (found.Some? && hasAccess(found.value) && Redacted(req, su, found.value, lookup).Err? ==> r == Err(TypeError))
  {
    if SessionInvalid(req) then Err(Unauthorized)
    else if req.sessionUser.None? then Err(UserNotFound)
    else
      var su := req.sessionUser.value;
      if req.userId == "" && su.userType != Nurse then Ok(None)
      else
        var id := if req.userId == "" then su.id else req.userId;
        var found := FindNurse(records, id);
        if found.None? then Ok(None)
        else if !hasAccess(found.value) then Err(Unauthorized)
        else match Redacted(req, su, found.value, lookup)
          case Err(e) => Err(e)
          case Ok(u) => Ok(Some(u))
  }

  /** The read as the source runs it: the checks in order, then the fetched
      record changed field by field. */
  method GetProfessional(req: GetRequest, records: seq<Professional>, hasAccess: Professional -> bool, lookup: map<string, string>)
    returns (r: Result<Option<Professional>>)
    ensures r == GetOutcome(req, records, hasAccess, lookup)
  {
    if req.session.None? || req.session.value.invalidatedAt.Some? {
      return Err(Unauthorized);
    }
    if req.sessionUser.None? {
      return Err(UserNotFound);
    }
    var su := req.sessionUser.value;
    var userId := req.userId;
    if userId == "" {
      if su.userType != Nurse {
        return Ok(None);
      }
      userId := su.id;
    }
    var found := FindNurse(records, userId);
    if found.None? {
      return Ok(None);
    }
    var user := found.value;
    if !hasAccess(user) {
      return Err(Unauthorized);
    }
    if DropsMarketplace(req) {
      user := user.(isMarketplace := None);
    }
    var visible := VisibleAffiliations(req, su, user.affiliations);
    if visible.Err? {
      return Err(visible.error);
    }
    user := user.(affiliations := visible.value);
    if MasksSecrets(req) {
      user := user.(dateOfBirth := Mask(user.dateOfBirth));
      user := user.(ssn := Mask(user.ssn));
    }
    if AttachesLicenseStates(req) {
      user := FillLicenseStates(user, lookup);
    }
    r := Ok(Some(user));
  }

  /** Without a userId, a professional's session reads its own record. */
  lemma OwnRecordWithoutUserId(req: GetRequest, records: seq<Professional>, hasAccess: Professional -> bool, lookup: map<string, string>)
    requires !SessionInvalid(req) && req.sessionUser.Some? && req.userId == "" && req.sessionUser.value.userType == Nurse
    ensures GetOutcome(req, records, hasAccess, lookup) == GetOutcome(req.(userId := req.sessionUser.value.id), records, hasAccess, lookup)
  {
  }

  /** A found record the acting user may not access is refused. */
  lemma InaccessibleRefused(req: GetRequest, records: seq<Professional>, hasAccess: Professional -> bool, lookup: map<string, string>)
    requires !SessionInvalid(req) && req.sessionUser.Some?
    requires req.userId != "" || req.sessionUser.value.userType == Nurse
    requires var id := if req.userId == "" then req.sessionUser.value.id else req.userId;
      FindNurse(records, id).Some? && !hasAccess(FindNurse(records, id).value)
    ensures GetOutcome(req, records, hasAccess, lookup) == Err(Unauthorized)
  {
  }

  /** What a returned record reveals: no affiliation that is rejected or, for
      a hospital acting user, of another organization; never an empty
      affiliation list; no secret in a share read other than "full"; and no
      `isMarketplace` in a share read. */
  lemma ReturnedRecordRedacted(req: GetRequest, records: seq<Professional>, hasAccess: Professional -> bool, lookup: map<string, string>)
    requires GetOutcome(req, records, hasAccess, lookup).Ok?
    requires GetOutcome(req, records, hasAccess, lookup).value.Some?
    ensures var u := GetOutcome(req, records, hasAccess, lookup).value.value;
      var su := req.sessionUser.value;
      (u.affiliations.Some? ==>
         |u.affiliations.value| > 0
         && forall a :: a in u.affiliations.value ==>
              a.rejectedAt.None? && (su.isHospitalUser ==> a.organization == su.organization.value.id))
      && (IsShare(req.select) ==> u.affiliations.None? && u.isMarketplace.None?)
      && (MasksSecrets(req) ==> !(u.dateOfBirth.Plain? && u.dateOfBirth.text != "") && !(u.ssn.Plain? && u.ssn.text != ""))
  {
    var su := req.sessionUser.value;
    var id := if req.userId == "" then su.id else req.userId;
    var p := FindNurse(records, id).value;
    var u0 := if DropsMarketplace(req) then p.(isMarketplace := None) else p;
    var vis := VisibleAffiliations(req, su, u0.affiliations);
    assert vis.Ok?;
    var u1 := u0.(affiliations := vis.value);
    var u2 := if MasksSecrets(req) then MaskSecrets(u1) else u1;
    var u := if AttachesLicenseStates(req) then WithLicenseStates(u2, lookup) else u2;
    assert GetOutcome(req, records, hasAccess, lookup) == Ok(Some(u));
  }
}
