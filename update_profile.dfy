/** `updateProfessional` (src/update/update.ts): a partial update of a
    professional's own fields. The request is checked (access, e-mail in
    use, profession clash), turned into the patch that is written (links,
    consent, Nursys flag, e-mail token, address, work cities, profile
    picture), and after the write the follow-ups go out: completion
    notices, the e-mail and SMS notices, the deletes of superseded S3
    objects and the webhooks. */
module ProfileUpdate {
  import opened Domain
  import opened Strings
  import opened ProfilePatches
  import opened FileAssets
  import opened ThirdPartyLinks
  import opened Completion
  import opened UpdateAccess
  import opened VerifyLink
  import opened AddRules
  import opened Repository

  datatype ProfileRequest = ProfileRequest(session: Session, userId: string, item: ProfilePatch)

  /** What the operation reads: the stored professional and its extra
      fields, the session's user type when the session is someone else, the
      access decision, the e-mails of existing users, the file values and
      upload time of `updateFiles`, the clock, the token a fresh
      verification token would be, the city table, the record re-read by
      the completion send, the branding's PRN flag, the share token, and
      the organizations' webhook configuration. */
  datatype ProfileWorld = ProfileWorld(
    stored: Option<Professional>,
    extras: StoredExtras,
    found: Option<UserType>,
    hasAccess: bool,
    userEmails: set<string>,
    s3: S3Settings,
    secs: nat,
    files: seq<FileValue>,
    now: Time,
    freshToken: string,
    cities: seq<WorkCity>,
    reread: Option<Professional>,
    isPrn: bool,
    shareToken: string,
    hooksOf: string -> Webhooks)

  /** Text the request leaves undefined reads as "" (falsy). */
  function TextOf(t: Option<string>): string
  {
    if t.Some? then t.value else ""
  }

  /** The request changes the e-mail: it sends a non-empty one that differs from the stored one. */
  predicate EmailChanged(item: ProfilePatch, user: Professional)
  {
    TextOf(item.email) != "" && item.email.value != user.email
  }

  /** The checks before anything is done: access, then a new e-mail that
      another user already has, then a profession clash. */
  function ProfileCheck(req: ProfileRequest, w: ProfileWorld): (r: Result<UserType>)
    ensures var access := AccessCheck(req.session, req.userId, w.stored, w.found, w.hasAccess);
      var taken := access.Ok? && EmailChanged(req.item, w.stored.value) && req.item.email.value in w.userEmails;
      var clash := access.Ok? && CheckProfession(w.stored.value.profession, TextOf(req.item.profession));
      (access.Err? ==> r == Err(access.error))
      && (r == Err(EmailAlreadyInUse) <==> taken)
      && (r == Err(ProfessionAlreadyAssigned) <==> !taken && clash)
      && (r.Ok? <==> access.Ok? && !taken && !clash)
      && (r.Ok? ==> r == access)
  {
    var access := AccessCheck(req.session, req.userId, w.stored, w.found, w.hasAccess);
    if access.Err? then access
    else if EmailChanged(req.item, w.stored.value) && req.item.email.value in w.userEmails then Err(EmailAlreadyInUse)
    else if CheckProfession(w.stored.value.profession, TextOf(req.item.profession)) then Err(ProfessionAlreadyAssigned)
    else access
  }

  /** `setThirdPartySystems` on the patch's briefcase, if it has one. */
  function LinkStep(p: ProfilePatch, user: Professional, acting: UserType): (r: ProfilePatch)
    ensures r == p.(briefcase := r.briefcase)
    ensures r.briefcase.Some? <==> p.briefcase.Some?
    ensures r.briefcase.Some? ==>
      (r.briefcase.value.consentedAt == p.briefcase.value.consentedAt
       && r.briefcase.value.nursys == p.briefcase.value.nursys
       && r.briefcase.value.currentStep == p.briefcase.value.currentStep
       && r.briefcase.value.licenses == p.briefcase.value.licenses)
  {
    if p.briefcase.Some? then p.(briefcase := Some(SetThirdPartySystems(user.briefcase, p.briefcase.value, acting))) else p
  }

  /** The guard of the `workStates` default: a list that is null and, at
      the same time, has length 0. */
  predicate DefaultsWorkStates(ws: Option<seq<string>>)
  {
    ws.None? && (match ws case None => false case Some(states) => |states| == 0)
  }

  /** The state the `workStates` default would use: the patch's, else the stored one. */
  function DefaultState(p: ProfilePatch, user: Professional): string
  {
    if p.address.Some? && p.address.value.state != "" then p.address.value.state
    else if user.address.Some? then user.address.value.state
    else ""
  }

  function WithWorkStates(j: Option<JobsPatch>, states: seq<string>): Option<JobsPatch>
  {
    match j
    case None => None
    case Some(jobs) => Some(jobs.(workStates := Some(states)))
  }

  /** The `workStates` default as written. */
  function WorkStatesStep(p: ProfilePatch, user: Professional): (r: ProfilePatch)
    ensures r == p
  {
    var fires := p.jobs.Some? && DefaultsWorkStates(p.jobs.value.workStates) && DefaultState(p, user) != "";
    if fires then p.(jobs := WithWorkStates(p.jobs, [DefaultState(p, user)])) else p
  }

  /** A consent value the source treats as given: `true` or a date. */
  predicate ConsentGiven(c: Option<Consent>)
  {
    c.Some? && (c.value.ConsentFlag? ==> c.value.given)
  }

  /** A given consent is stamped with the current time; any other is removed. */
  function ConsentStep(b: BriefcasePatch, now: Time): BriefcasePatch
  {
    b.(consentedAt := if ConsentGiven(b.consentedAt) then Some(ConsentedAt(now)) else None)
  }

  /** Only an admin session that sends `nursys.isEnabled` keeps the Nursys
      flag, with the stored verification text carried over when there is
      one; any other `nursys` is removed. */
  function NursysStep(b: BriefcasePatch, isAdmin: bool, storedText: Option<string>): BriefcasePatch
  {
    if isAdmin && b.nursys.Some? && b.nursys.value.isEnabled.Some? then
      (if TextOf(storedText) != "" then b.(nursys := Some(b.nursys.value.(verificationText := storedText))) else b)
    else b.(nursys := None)
  }

  function BriefcaseStep(p: ProfilePatch, isAdmin: bool, storedText: Option<string>, now: Time): (r: ProfilePatch)
    ensures r == p.(briefcase := r.briefcase)
    ensures r.briefcase.Some? <==> p.briefcase.Some?
  {
    if p.briefcase.Some? then p.(briefcase := Some(NursysStep(ConsentStep(p.briefcase.value, now), isAdmin, storedText))) else p
  }

  /** The stored token is kept while it has an expiry that has not passed on
      an activated account; otherwise a fresh token is issued. */
  predicate KeepsToken(user: Professional, now: Time)
  {
    user.verificationTokenExpiresAt.Some? && user.verificationTokenExpiresAt.value >= now && user.activatedAt.Some?
  }

  /** A changed e-mail is unverified, gets a token and an expiry a week ahead. */
  function EmailStep(p: ProfilePatch, user: Professional, now: Time, issued: string): (r: ProfilePatch)
    ensures r == p.(emailVerifiedCleared := r.emailVerifiedCleared, verificationToken := r.verificationToken,
                    verificationTokenExpiresAt := r.verificationTokenExpiresAt)
  {
    if EmailChanged(p, user) then
      p.(emailVerifiedCleared := true,
         verificationToken := if KeepsToken(user, now) then user.verificationToken else Some(issued),
         verificationTokenExpiresAt := Some(now + 7 * Day))
    else p
  }

  /** `cities.findOne`: the first row of the table with this city, state and country. */
  function FindCity(cities: seq<WorkCity>, city: string, state: string, country: string): (k: int)
    ensures -1 <= k < |cities|
    ensures k >= 0 ==> cities[k].city == city && cities[k].state == state && cities[k].country == country
    ensures k >= 0 ==> forall j :: 0 <= j < k ==> !(cities[j].city == city && cities[j].state == state && cities[j].country == country)
    ensures k == -1 ==> forall j :: 0 <= j < |cities| ==> !(cities[j].city == city && cities[j].state == state && cities[j].country == country)
  {
    if |cities| == 0 then -1
    else if cities[0].city == city && cities[0].state == state && cities[0].country == country then 0
    else
      var k := FindCity(cities[1..], city, state, country);
      if k == -1 then -1 else k + 1
  }

  /** The country defaults to "US"; the coordinates of the city found in
      the table, when it has some, replace the sent ones. */
  function AddressStep(p: ProfilePatch, cities: seq<WorkCity>): (r: ProfilePatch)
    ensures r == p.(address := r.address)
    ensures r.address.Some? <==> p.address.Some?
  {
    if p.address.None? then p
    else
      var a := p.address.value;
      var country := if a.country == "" then "US" else a.country;
      var k := FindCity(cities, a.city, a.state, country);
      p.(address := Some(a.(country := country, coordinates := if k >= 0 && cities[k].coordinates.Some? then cities[k].coordinates else a.coordinates)))
  }

  /** A table city that some requested work city names, with the requested
      country defaulted to "US". */
  predicate Requested(c: WorkCity, reqs: seq<WorkCity>)
  {
    exists r :: r in reqs && c.city == r.city && c.state == r.state && c.country == DefaultCountry(r).country
  }

  /** The table cities that some request names, in table order. */
  function MatchingCities(table: seq<WorkCity>, reqs: seq<WorkCity>): (r: seq<WorkCity>)
    ensures |r| <= |table|
  {
    if |table| == 0 then []
    else MatchingCities(table[..|table| - 1], reqs) + (if Requested(table[|table| - 1], reqs) then [table[|table| - 1]] else [])
  }

  /** Non-empty requested work cities are replaced by the table cities they name. */
  function WorkCitiesStep(p: ProfilePatch, cities: seq<WorkCity>): (r: ProfilePatch)
    ensures r == p.(jobs := r.jobs)
  {
    if p.jobs.Some? && p.jobs.value.workCities.Some? && |p.jobs.value.workCities.value| > 0 then
      p.(jobs := Some(p.jobs.value.(workCities := Some(MatchingCities(cities, p.jobs.value.workCities.value)))))
    else p
  }

  /** A stored picture URL the bucket owns: non-empty and under the bucket URL. */
  predicate Owned(s: S3Settings, url: Option<string>)
  {
    TextOf(url) != "" && StartsWith(url.value, s.s3Url)
  }

  /** The keys of the stored picture and thumbnail that a cleared picture deletes. */
  function PictureKeys(s: S3Settings, extras: StoredExtras): (keys: seq<string>)
    ensures |keys| <= 2
  {
    (if Owned(s, extras.profilePicUrl) then [KeyOf(s, extras.profilePicUrl.value)] else [])
    + (if Owned(s, extras.profilePicThumbUrl) then [KeyOf(s, extras.profilePicThumbUrl.value)] else [])
  }

  /** A picture sent as `null` clears both picture fields. */
  function PictureStep(p: ProfilePatch): (r: ProfilePatch)
    ensures r == p.(profilePicUrl := r.profilePicUrl, profilePicThumbUrl := r.profilePicThumbUrl)
  {
    if p.profilePicUrl.Null? then p.(profilePicUrl := Null, profilePicThumbUrl := Null) else p
  }

  /** The patch written, after every step, in the source's order. */
  function PreparedPatch(req: ProfileRequest, w: ProfileWorld, acting: UserType): ProfilePatch
    requires w.stored.Some?
  {
    var user := w.stored.value;
    var linked := LinkStep(req.item, user, acting);
    var withStates := WorkStatesStep(linked, user);
    var withBriefcase := BriefcaseStep(withStates, req.session.isAdmin, w.extras.nursysVerificationText, w.now);
    var withEmail := EmailStep(withBriefcase, user, w.now, w.freshToken);
    var withAddress := AddressStep(withEmail, w.cities);
    var withCities := WorkCitiesStep(withAddress, w.cities);
    PictureStep(withCities)
  }

  /** The S3 deletes of a cleared picture, issued before the write. */
  function PictureDeletes(req: ProfileRequest, w: ProfileWorld): (es: seq<Effect>)
    ensures forall e :: e in es ==> e.S3Delete?
  {
    if req.item.profilePicUrl.Null? then S3Deletes(PictureKeys(w.s3, w.extras)) else []
  }

  /** The templates of the notice to a changed e-mail. */
  predicate EmailTemplate(t: Template)
  {
    t == EmailChangeConfirmation || t == PrnWelcome || t == VerifyEmailNurse
  }

  function ChangeTemplate(activated: bool, isPrn: bool): (t: Template)
    ensures EmailTemplate(t)
  {
    if activated then EmailChangeConfirmation else if isPrn then PrnWelcome else VerifyEmailNurse
  }

  /** The query of the verify link sent to a changed e-mail. */
  function EmailQuery(token: Option<string>): string
  {
    "token=" + TokenText(token)
  }

  /** The notice to a changed e-mail, with a link carrying the written token. */
  function EmailNotice(item: ProfilePatch, user: Professional, isPrn: bool, token: Option<string>): (es: seq<Effect>)
    ensures forall e :: e in es ==> e.Notify? && EmailTemplate(e.template)
  {
    if EmailChanged(item, user) then [Notify(ChangeTemplate(user.activatedAt.Some?, isPrn), item.email.value, EmailQuery(token))]
    else []
  }

  /** The phone the onboarding SMS goes to: the sent one, else the stored one. */
  function SmsPhone(item: ProfilePatch, user: Professional): string
  {
    if TextOf(item.phoneNumber) != "" then item.phoneNumber.value else user.phoneNumber
  }

  /** The request moves the briefcase from a step below 2 to step 2 or later. */
  predicate ReachesStepTwo(item: ProfilePatch, extras: StoredExtras)
  {
    extras.currentStep < 2 && item.briefcase.Some? && item.briefcase.value.currentStep.Some? && item.briefcase.value.currentStep.value >= 2
  }

  /** The onboarding SMS, when the briefcase reaches step 2 and there is a phone. */
  function SmsNotice(item: ProfilePatch, user: Professional, extras: StoredExtras): (es: seq<Effect>)
    ensures forall e :: e in es ==> e.Notify? && e.template == OnboardingSms
  {
    if ReachesStepTwo(item, extras) && SmsPhone(item, user) != "" then [Notify(OnboardingSms, SmsPhone(item, user), "")] else []
  }

  /** One file-uploaded publish round per updated file, each to every
      organization whose live affiliation has that webhook. */
  function FileHooks(items: seq<UpdatedItem>, round: seq<Effect>): (es: seq<Effect>)
    ensures |round| == 0 ==> es == []
    ensures forall e :: e in es ==> e in round
  {
    if |items| == 0 then [] else FileHooks(items[..|items| - 1], round) + round
  }

  /** The notices after the write: completion, then the e-mail notice, then the SMS. */
  function ProfileNotices(req: ProfileRequest, w: ProfileWorld, token: Option<string>): (es: seq<Effect>)
    requires w.stored.Some?
    ensures forall e :: e in es ==> e.Notify? || e == Write(ShareBriefcase)
  {
    var user := w.stored.value;
    PendingCompletion(user, w.reread, w.isPrn, w.shareToken)
    + EmailNotice(req.item, user, w.isPrn, token)
    + SmsNotice(req.item, user, w.extras)
  }

  /** The webhooks, gated on the session's own user type: one
      professional-updated round, then one file-uploaded round per updated file. */
  function ProfileHooks(req: ProfileRequest, w: ProfileWorld, items: seq<UpdatedItem>): (es: seq<Effect>)
    requires w.stored.Some?
    ensures forall e :: e in es ==> e.Webhook?
    ensures req.session.userType == HospitalApi ==> es == []
  {
    var user := w.stored.value;
    HookPart(user, req.session.userType, w.hooksOf, ProfessionalUpdatedHook)
    + FileHooks(items, HookPart(user, req.session.userType, w.hooksOf, FileUploadedHook))
  }

  /** Everything after the write: its audit entry, the notices, the deletes
      of superseded S3 objects, the webhooks. */
  function AfterProfileWrite(req: ProfileRequest, w: ProfileWorld, token: Option<string>, files: UpdatedFiles): seq<Effect>
    requires w.stored.Some?
  {
    [Audit(UserUpdated)] + ProfileNotices(req, w, token) + S3Deletes(files.deleteKeys) + ProfileHooks(req, w, files.updatedItems)
  }

  /** The effects of a run that passed its checks, from its pieces. */
  function ProfileEffects(req: ProfileRequest, w: ProfileWorld, token: Option<string>, files: UpdatedFiles): seq<Effect>
    requires w.stored.Some?
  {
    (files.effects + PictureDeletes(req, w)) + [Write(UpdateRecord)] + AfterProfileWrite(req, w, token, files)
  }

  /** The whole `updateProfessional`: the patch written, and its effects. */
  function UpdateProfessionalRun(req: ProfileRequest, w: ProfileWorld): Run<ProfilePatch>
  {
    var check := ProfileCheck(req, w);
    if check.Err? then Run(Err(check.error), [])
    else
      var files := ProcessFiles(w.s3, w.stored.value.id, w.secs, w.files);
      var patch := PreparedPatch(req, w, check.value);
      Run(Ok(patch), ProfileEffects(req, w, patch.verificationToken, files))
  }

  /** The consent and Nursys rules applied to a briefcase patch in place. */
  method SettleBriefcase(b: BriefcasePatch, isAdmin: bool, storedText: Option<string>, now: Time) returns (r: BriefcasePatch)
    ensures r == NursysStep(ConsentStep(b, now), isAdmin, storedText)
  {
    r := b;
    if ConsentGiven(r.consentedAt) {
      r := r.(consentedAt := Some(ConsentedAt(now)));
    } else {
      r := r.(consentedAt := None);
    }
    if isAdmin && r.nursys.Some? && r.nursys.value.isEnabled.Some? {
      if TextOf(storedText) != "" {
        r := r.(nursys := Some(r.nursys.value.(verificationText := storedText)));
      }
    } else {
      r := r.(nursys := None);
    }
  }

  /** The e-mail rule applied in place. */
  method SettleEmail(p: ProfilePatch, user: Professional, now: Time, issued: string) returns (r: ProfilePatch)
    ensures r == EmailStep(p, user, now, issued)
  {
    r := p;
    if TextOf(r.email) != "" && r.email.value != user.email {
      r := r.(emailVerifiedCleared := true);
      if KeepsToken(user, now) {
        r := r.(verificationToken := user.verificationToken);
      } else {
        r := r.(verificationToken := Some(issued));
      }
      r := r.(verificationTokenExpiresAt := Some(now + 7 * Day));
    }
  }

  /** The patch built step by step, as the source mutates it. */
  method PreparePatch(req: ProfileRequest, w: ProfileWorld, acting: UserType) returns (p: ProfilePatch)
    requires w.stored.Some?
    ensures p == PreparedPatch(req, w, acting)
  {
    var user := w.stored.value;
    p := req.item;
    if p.briefcase.Some? {
      p := p.(briefcase := Some(SetThirdPartySystems(user.briefcase, p.briefcase.value, acting)));
    }
    // The work-states default; its guard never holds (WorkStatesNeverDefaulted).
    p := WorkStatesStep(p, user);
    if p.briefcase.Some? {
      var b := SettleBriefcase(p.briefcase.value, req.session.isAdmin, w.extras.nursysVerificationText, w.now);
      p := p.(briefcase := Some(b));
    }
    p := SettleEmail(p, user, w.now, w.freshToken);
    p := AddressStep(p, w.cities);
    p := WorkCitiesStep(p, w.cities);
    if p.profilePicUrl.Null? {
      p := p.(profilePicUrl := Null, profilePicThumbUrl := Null);
    }
  }

  /** The notices after the write, sent one after the other. */
  method SendProfileNotices(req: ProfileRequest, w: ProfileWorld, token: Option<string>) returns (sent: seq<Effect>)
    requires w.stored.Some?
    ensures sent == ProfileNotices(req, w, token)
  {
    var user := w.stored.value;
    sent := [];
    if CompletedAt(user).None? {
      sent := SendCompletedNotifications(w.reread, w.isPrn, w.shareToken);
    }
    assert sent == PendingCompletion(user, w.reread, w.isPrn, w.shareToken);
    if TextOf(req.item.email) != "" && req.item.email.value != user.email {
      var template;
      if user.activatedAt.Some? {
        template := EmailChangeConfirmation;
      } else if w.isPrn {
        template := PrnWelcome;
      } else {
        template := VerifyEmailNurse;
      }
      sent := sent + [Notify(template, req.item.email.value, EmailQuery(token))];
    } else {
      assert sent + [] == sent;
    }
    assert sent == PendingCompletion(user, w.reread, w.isPrn, w.shareToken) + EmailNotice(req.item, user, w.isPrn, token);
    if ReachesStepTwo(req.item, w.extras) && SmsPhone(req.item, user) != "" {
      sent := sent + [Notify(OnboardingSms, SmsPhone(req.item, user), "")];
    }
  }

  /** The webhooks: the professional-updated round, then one file-uploaded round per updated file. */
  method PublishProfileHooks(req: ProfileRequest, w: ProfileWorld, items: seq<UpdatedItem>) returns (sent: seq<Effect>)
    requires w.stored.Some?
    ensures sent == ProfileHooks(req, w, items)
  {
    var user := w.stored.value;
    if req.session.userType == HospitalApi {
      return [];
    }
    sent := HookEffects(AffiliationsOf(user), w.hooksOf, ProfessionalUpdatedHook);
    var round := HookEffects(AffiliationsOf(user), w.hooksOf, FileUploadedHook);
    ghost var head := sent;
    var i := 0;
    while i < |items|
      invariant 0 <= i <= |items|
      invariant sent == head + FileHooks(items[..i], round)
    {
      assert items[..i + 1][..i] == items[..i];
      sent := sent + round;
      i := i + 1;
    }
    assert items[..i] == items;
  }

  /** Everything after the write, issued to the backend. */
  method FollowProfileWrite(db: Backend, req: ProfileRequest, w: ProfileWorld, token: Option<string>, files: UpdatedFiles)
    requires w.stored.Some?
    modifies db
    ensures db.log == old(db.log) + AfterProfileWrite(req, w, token, files)
    ensures db.accounts == old(db.accounts)
  {
    db.log := db.log + [Audit(UserUpdated)];
    var notices := SendProfileNotices(req, w, token);
    db.log := db.log + notices;
    DeleteObjects(db, files.deleteKeys);
    var hooks := PublishProfileHooks(req, w, files.updatedItems);
    db.log := db.log + hooks;
    Extend4(old(db.log), [Audit(UserUpdated)], notices, S3Deletes(files.deleteKeys), hooks);
  }

  /** `updateProfessional`, step by step, issuing its effects to the backend log. */
  method UpdateProfessional(db: Backend, req: ProfileRequest, w: ProfileWorld) returns (r: Result<ProfilePatch>)
    modifies db
    ensures r == UpdateProfessionalRun(req, w).result
    ensures db.log == old(db.log) + UpdateProfessionalRun(req, w).effects
    ensures db.accounts == old(db.accounts)
  {
    var check := ProfileCheck(req, w);
    if check.Err? {
      return Err(check.error);
    }
    var user := w.stored.value;
    var files := UpdateFiles(w.s3, user.id, w.secs, w.files);
    db.log := db.log + files.effects;
    var patch := PreparePatch(req, w, check.value);
    var pictures: seq<Effect> := [];
    if patch.profilePicUrl.Null? {
      pictures := S3Deletes(PictureKeys(w.s3, w.extras));
    }
    assert pictures == PictureDeletes(req, w);
    db.log := db.log + pictures;
    db.log := db.log + [Write(UpdateRecord)];
    FollowProfileWrite(db, req, w, patch.verificationToken, files);
    Regroup(old(db.log), files.effects, pictures, [Write(UpdateRecord)], AfterProfileWrite(req, w, patch.verificationToken, files));
    r := Ok(patch);
  }

  /** A failed check issues nothing and raises the check's error. */
  lemma ProfileCheckFailureIssuesNothing(req: ProfileRequest, w: ProfileWorld)
    requires ProfileCheck(req, w).Err?
    ensures UpdateProfessionalRun(req, w).effects == []
    ensures UpdateProfessionalRun(req, w).result.error in {UserNotFound, Unauthorized, EmailAlreadyInUse, ProfessionAlreadyAssigned}
  {
  }

  /** The pieces of a run that passed its checks. */
  lemma ProfileRunPieces(req: ProfileRequest, w: ProfileWorld) returns (acting: UserType, files: UpdatedFiles, patch: ProfilePatch)
    requires UpdateProfessionalRun(req, w).result.Ok?
    ensures w.stored.Some? && ProfileCheck(req, w) == Ok(acting)
    ensures files == ProcessFiles(w.s3, w.stored.value.id, w.secs, w.files)
    ensures forall e :: e in files.effects ==> e.S3Copy? || e.StagingDelete?
    ensures patch == PreparedPatch(req, w, acting)
    ensures UpdateProfessionalRun(req, w).result == Ok(patch)
    ensures UpdateProfessionalRun(req, w).effects == ProfileEffects(req, w, patch.verificationToken, files)
  {
    acting := ProfileCheck(req, w).value;
    files := ProcessFiles(w.s3, w.stored.value.id, w.secs, w.files);
    patch := PreparedPatch(req, w, acting);
  }

  /** A changed e-mail is written unverified, with an expiry a week ahead
      and a token that is the stored one only while that one is live on an
      activated account; otherwise those fields are left as sent. */
  lemma EmailTokenRule(req: ProfileRequest, w: ProfileWorld, acting: UserType)
    requires w.stored.Some?
    ensures var p := PreparedPatch(req, w, acting);
      var user := w.stored.value;
      (EmailChanged(req.item, user) ==>
         p.emailVerifiedCleared && p.verificationTokenExpiresAt == Some(w.now + 7 * Day)
         && p.verificationToken == (if KeepsToken(user, w.now) then user.verificationToken else Some(w.freshToken)))
      && (!EmailChanged(req.item, user) ==>
         p.emailVerifiedCleared == req.item.emailVerifiedCleared && p.verificationToken == req.item.verificationToken
         && p.verificationTokenExpiresAt == req.item.verificationTokenExpiresAt)
      && p.email == req.item.email
  {
  }

  /** A sent briefcase keeps its step and licenses; a given consent is
      stamped with the current time and any other is removed; the Nursys
      flag survives only for an admin session that sends `isEnabled`, with
      the stored verification text when there is one. */
  lemma BriefcaseRules(req: ProfileRequest, w: ProfileWorld, acting: UserType)
    requires w.stored.Some?
    ensures var p := PreparedPatch(req, w, acting);
      (p.briefcase.Some? <==> req.item.briefcase.Some?)
      && (p.briefcase.Some? ==>
          var sent := req.item.briefcase.value;
          var b := p.briefcase.value;
          b.consentedAt == (if ConsentGiven(sent.consentedAt) then Some(ConsentedAt(w.now)) else None)
          && (b.nursys.Some? <==> req.session.isAdmin && sent.nursys.Some? && sent.nursys.value.isEnabled.Some?)
          && (b.nursys.Some? ==>
               b.nursys.value.isEnabled == sent.nursys.value.isEnabled
               && b.nursys.value.verificationText
                  == (if TextOf(w.extras.nursysVerificationText) != "" then w.extras.nursysVerificationText else sent.nursys.value.verificationText))
          && b.currentStep == sent.currentStep && b.licenses == sent.licenses)
  {
  }

  /** The `workStates` default never fires: its guard holds for no value,
      so the written work states are always those sent. */
  lemma WorkStatesNeverDefaulted(req: ProfileRequest, w: ProfileWorld, acting: UserType)
    requires w.stored.Some?
    ensures forall ws :: !DefaultsWorkStates(ws)
    ensures var p := PreparedPatch(req, w, acting);
      (p.jobs.Some? <==> req.item.jobs.Some?)
      && (p.jobs.Some? ==> p.jobs.value.workStates == req.item.jobs.value.workStates)
  {
  }

  /** A picture sent as `null` clears both picture fields; otherwise both are written as sent. */
  lemma PictureRule(req: ProfileRequest, w: ProfileWorld, acting: UserType)
    requires w.stored.Some?
    ensures var p := PreparedPatch(req, w, acting);
      (req.item.profilePicUrl.Null? ==> p.profilePicUrl.Null? && p.profilePicThumbUrl.Null?)
      && (!req.item.profilePicUrl.Null? ==> p.profilePicUrl == req.item.profilePicUrl && p.profilePicThumbUrl == req.item.profilePicThumbUrl)
  {
  }

  /** The objects a cleared picture deletes: the stored picture and
      thumbnail, each only when the bucket owns it. */
  lemma PictureDeletesExact(req: ProfileRequest, w: ProfileWorld, key: string)
    ensures S3Delete(key) in PictureDeletes(req, w) <==>
      req.item.profilePicUrl.Null?
      && ((Owned(w.s3, w.extras.profilePicUrl) && key == KeyOf(w.s3, w.extras.profilePicUrl.value))
          || (Owned(w.s3, w.extras.profilePicThumbUrl) && key == KeyOf(w.s3, w.extras.profilePicThumbUrl.value)))
  {
    S3DeletesExact(PictureKeys(w.s3, w.extras), key);
  }

  /** The row of the city table an address is looked up by. */
  predicate CityRow(c: WorkCity, city: string, state: string, country: string)
  {
    c.city == city && c.state == state && c.country == country
  }

  /** A sent address is written with its country defaulted to "US"; its
      coordinates are replaced only by those of a matching table row, and
      stay as sent when no row matches. */
  lemma AddressStepRule(p: ProfilePatch, cities: seq<WorkCity>)
    ensures var r := AddressStep(p, cities);
      r.address.Some? ==>
        var a := p.address.value;
        var country := if a.country == "" then "US" else a.country;
        r.address.value == a.(country := country, coordinates := r.address.value.coordinates)
        && ((forall j :: 0 <= j < |cities| ==> !CityRow(cities[j], a.city, a.state, country)) ==> r.address.value.coordinates == a.coordinates)
        && (r.address.value.coordinates != a.coordinates ==>
            exists j :: 0 <= j < |cities| && CityRow(cities[j], a.city, a.state, country) && cities[j].coordinates == r.address.value.coordinates)
  {
    if p.address.Some? {
      var a := p.address.value;
      var country := if a.country == "" then "US" else a.country;
      var k := FindCity(cities, a.city, a.state, country);
      if k >= 0 {
        assert CityRow(cities[k], a.city, a.state, country);
      }
    }
  }

  /** The address written is the sent one after the address step: no other step touches it. */
  lemma AddressRule(req: ProfileRequest, w: ProfileWorld, acting: UserType)
    requires w.stored.Some?
    ensures PreparedPatch(req, w, acting).address == AddressStep(req.item, w.cities).address
  {
    var user := w.stored.value;
    var linked := LinkStep(req.item, user, acting);
    var withBriefcase := BriefcaseStep(WorkStatesStep(linked, user), req.session.isAdmin, w.extras.nursysVerificationText, w.now);
    var withEmail := EmailStep(withBriefcase, user, w.now, w.freshToken);
    assert withEmail.address == req.item.address;
    assert AddressStep(withEmail, w.cities).address == AddressStep(req.item, w.cities).address;
  }

  /** A table city is kept exactly when some request names it. */
  lemma {:induction false} MatchingCitiesExact(table: seq<WorkCity>, reqs: seq<WorkCity>, c: WorkCity)
    ensures c in MatchingCities(table, reqs) <==> c in table && Requested(c, reqs)
  {
    if |table| > 0 {
      var n := |table| - 1;
      MatchingCitiesExact(table[..n], reqs, c);
      assert table == table[..n] + [table[n]];
    }
  }

  /** Non-empty requested work cities are written as the table cities they
      name; anything else about `jobs` is written as sent. */
  lemma WorkCitiesRule(req: ProfileRequest, w: ProfileWorld, acting: UserType)
    requires w.stored.Some?
    ensures var p := PreparedPatch(req, w, acting);
      var sent := req.item.jobs;
      (sent.Some? && sent.value.workCities.Some? && |sent.value.workCities.value| > 0 ==>
         p.jobs.Some? && p.jobs.value.workCities.Some?
         && (forall c :: c in p.jobs.value.workCities.value <==> c in w.cities && Requested(c, sent.value.workCities.value))
         && p.jobs.value == sent.value.(workCities := p.jobs.value.workCities))
      && (!(sent.Some? && sent.value.workCities.Some? && |sent.value.workCities.value| > 0) ==> p.jobs == sent)
  {
    var p := PreparedPatch(req, w, acting);
    var sent := req.item.jobs;
    if sent.Some? && sent.value.workCities.Some? && |sent.value.workCities.value| > 0 {
      forall c
        ensures c in p.jobs.value.workCities.value <==> c in w.cities && Requested(c, sent.value.workCities.value)
      {
        MatchingCitiesExact(w.cities, sent.value.workCities.value, c);
      }
    }
  }

  /** A log of settled files, picture deletes, the record write and a rest
      without copies: the write is the first, every copy precedes it, and
      the rest follows it. */
  lemma ProfileSplits(files: seq<Effect>, pics: seq<Effect>, rest: seq<Effect>)
    requires forall e :: e in files ==> e.S3Copy? || e.StagingDelete?
    requires forall e :: e in pics ==> e.S3Delete?
    requires forall e :: e in rest ==> !e.S3Copy?
    ensures var pre := files + pics;
      var es := pre + [Write(UpdateRecord)] + rest;
      FirstWrite(es) == |pre| && es[..|pre|] == pre && es[|pre|] == Write(UpdateRecord)
      && es[|pre| + 1..] == rest
      && (forall i :: 0 <= i < |es| && es[i].S3Copy? ==> i < |pre|)
  {
    var pre := files + pics;
    var es := pre + [Write(UpdateRecord)] + rest;
    FirstWriteAfter(pre, UpdateRecord, rest);
    assert es[..|pre|] == pre;
    assert es[|pre| + 1..] == rest;
    forall i | |pre| < i < |es|
      ensures es[i] in rest
    {
      assert es[i] == rest[i - |pre| - 1];
    }
  }

  /** The effects of a run that passed its checks, part by part. */
  lemma ProfileEffectsParts(req: ProfileRequest, w: ProfileWorld, token: Option<string>, files: UpdatedFiles)
    requires w.stored.Some?
    ensures ProfileEffects(req, w, token, files) == files.effects + PictureDeletes(req, w) + [Write(UpdateRecord)]
      + ([Audit(UserUpdated)] + (PendingCompletion(w.stored.value, w.reread, w.isPrn, w.shareToken) + EmailNotice(req.item, w.stored.value, w.isPrn, token) + SmsNotice(req.item, w.stored.value, w.extras))
         + S3Deletes(files.deleteKeys) + ProfileHooks(req, w, files.updatedItems))
  {
  }

  /** A log with the shape of a run, for any parts of the right kinds: the
      write is the first, copies precede it, the deletes before it are the
      picture's and those after it the superseded objects'. */
  lemma ProfileShapeOrder(files: seq<Effect>, pics: seq<Effect>, notices: seq<Effect>, dels: seq<Effect>, hooks: seq<Effect>)
    requires forall e :: e in files ==> e.S3Copy? || e.StagingDelete?
    requires forall e :: e in pics ==> e.S3Delete?
    requires forall e :: e in notices ==> e.Notify? || e == Write(ShareBriefcase)
    requires forall e :: e in dels ==> e.S3Delete?
    requires forall e :: e in hooks ==> e.Webhook?
    ensures var pre := files + pics;
      var rest := [Audit(UserUpdated)] + notices + dels + hooks;
      var es := pre + [Write(UpdateRecord)] + rest;
      FirstWrite(es) == |pre| && es[|pre|] == Write(UpdateRecord) && es[..|pre|] == pre && es[|pre| + 1..] == rest
      && (forall i :: 0 <= i < |es| && es[i].S3Copy? ==> i < |pre|)
      && (forall e :: e in pre && e.S3Delete? ==> e in pics)
      && (forall e :: e in rest && e.S3Delete? ==> e in dels)
      && (forall e :: e in notices || e in dels || e in hooks ==> e in rest)
  {
    var rest := [Audit(UserUpdated)] + notices + dels + hooks;
    ProfileSplits(files, pics, rest);
  }

  /** For any parts of the right kinds, each kind of notice and every
      webhook of the log come from their own part. */
  lemma ProfileShapeSources(files: seq<Effect>, pics: seq<Effect>, completion: seq<Effect>, email: seq<Effect>, sms: seq<Effect>, dels: seq<Effect>, hooks: seq<Effect>)
    requires forall e :: e in files ==> e.S3Copy? || e.StagingDelete?
    requires forall e :: e in pics ==> e.S3Delete?
    requires forall e :: e in completion ==> CompletionNotice(e)
    requires forall e :: e in email ==> e.Notify? && EmailTemplate(e.template)
    requires forall e :: e in sms ==> e.Notify? && e.template == OnboardingSms
    requires forall e :: e in dels ==> e.S3Delete?
    requires forall e :: e in hooks ==> e.Webhook?
    ensures var es := files + pics + [Write(UpdateRecord)] + ([Audit(UserUpdated)] + (completion + email + sms) + dels + hooks);
      forall e :: e in es ==>
        (e.Notify? && EmailTemplate(e.template) ==> e in email)
        && (e.Notify? && e.template == OnboardingSms ==> e in sms)
        && (CompletionNotice(e) ==> e in completion)
        && (e.Webhook? ==> e in hooks)
  {
    var notices := completion + email + sms;
    var rest := [Audit(UserUpdated)] + notices + dels + hooks;
    var es := files + pics + [Write(UpdateRecord)] + rest;
    forall e | e in es
      ensures (e.Notify? && EmailTemplate(e.template) ==> e in email)
        && (e.Notify? && e.template == OnboardingSms ==> e in sms)
        && (CompletionNotice(e) ==> e in completion)
        && (e.Webhook? ==> e in hooks)
    {
      if e in notices {
        if e in completion {
          assert CompletionNotice(e);
        } else if e in email {
          assert EmailTemplate(e.template);
        }
      }
    }
  }

  /** The order of any run that passed its checks, whatever its pieces. */
  lemma ProfileEffectsOrder(req: ProfileRequest, w: ProfileWorld, token: Option<string>, files: UpdatedFiles)
    requires w.stored.Some?
    requires forall e :: e in files.effects ==> e.S3Copy? || e.StagingDelete?
    ensures var es := ProfileEffects(req, w, token, files);
      var k := FirstWrite(es);
      k < |es| && es[k] == Write(UpdateRecord)
      && (forall i :: 0 <= i < |es| && es[i].S3Copy? ==> i < k)
      && (forall i :: 0 <= i < k && es[i].S3Delete? ==> req.item.profilePicUrl.Null? && es[i].key in PictureKeys(w.s3, w.extras))
      && (forall i :: k < i < |es| && es[i].S3Delete? ==> es[i].key in files.deleteKeys)
      && (forall key :: key in files.deleteKeys ==> S3Delete(key) in es[k + 1..])
      && StagingDeletes(es[..k]) == StagingDeletes(files.effects)
  {
    var user := w.stored.value;
    var pics := PictureDeletes(req, w);
    var dels := S3Deletes(files.deleteKeys);
    ProfileEffectsParts(req, w, token, files);
    ProfileShapeOrder(files.effects, pics, ProfileNotices(req, w, token), dels, ProfileHooks(req, w, files.updatedItems));
    var es := ProfileEffects(req, w, token, files);
    var k := |files.effects + pics|;
    forall i | 0 <= i < k && es[i].S3Delete?
      ensures req.item.profilePicUrl.Null? && es[i].key in PictureKeys(w.s3, w.extras)
    {
      assert es[i] in es[..k];
      S3DeletesExact(PictureKeys(w.s3, w.extras), es[i].key);
    }
    forall i | k < i < |es| && es[i].S3Delete?
      ensures es[i].key in files.deleteKeys
    {
      assert es[i] in es[k + 1..];
      S3DeletesExact(files.deleteKeys, es[i].key);
    }
    forall key | key in files.deleteKeys
      ensures S3Delete(key) in es[k + 1..]
    {
      S3DeletesExact(files.deleteKeys, key);
    }
    NoStagingDeletes(pics);
    StagingDeletesAppend(files.effects, pics);
  }

  /** Ordering: the staged files are copied and their staging records
      deleted before the record write; the only objects deleted before it
      are the stored picture's, and the objects `updateFiles` supersedes
      are all deleted after it. */
  lemma ProfileWriteOrder(req: ProfileRequest, w: ProfileWorld)
    requires UpdateProfessionalRun(req, w).result.Ok?
    ensures var es := UpdateProfessionalRun(req, w).effects;
      var k := FirstWrite(es);
      var files := ProcessFiles(w.s3, w.stored.value.id, w.secs, w.files);
      k < |es| && es[k] == Write(UpdateRecord)
      && (forall i :: 0 <= i < |es| && es[i].S3Copy? ==> i < k)
      && (forall i :: 0 <= i < k && es[i].S3Delete? ==> req.item.profilePicUrl.Null? && es[i].key in PictureKeys(w.s3, w.extras))
      && (forall i :: k < i < |es| && es[i].S3Delete? ==> es[i].key in files.deleteKeys)
      && (forall key :: key in files.deleteKeys ==> S3Delete(key) in es[k + 1..])
      && StagingDeletes(es[..k]) == UploadIds(w.files)
  {
    var acting, files, patch := ProfileRunPieces(req, w);
    ProfileEffectsOrder(req, w, patch.verificationToken, files);
    EveryUploadIsCleared(w.s3, w.stored.value.id, w.secs, w.files);
  }

  /** The notices and webhooks of any run that passed its checks, whatever
      its pieces: the e-mail notice and the SMS follow the write and are the
      only notices of their templates, the completion effects are those of
      the send, and the webhooks are those of the webhook part. */
  lemma ProfileEffectsSources(req: ProfileRequest, w: ProfileWorld, token: Option<string>, files: UpdatedFiles)
    requires w.stored.Some?
    requires forall e :: e in files.effects ==> e.S3Copy? || e.StagingDelete?
    ensures var es := ProfileEffects(req, w, token, files);
      var user := w.stored.value;
      var email := EmailNotice(req.item, user, w.isPrn, token);
      var sms := SmsNotice(req.item, user, w.extras);
      FirstWrite(es) < |es|
      && (forall e :: e in email ==> e in es[FirstWrite(es) + 1..])
      && (forall e :: e in es && e.Notify? && EmailTemplate(e.template) ==> e in email)
      && (forall e :: e in sms ==> e in es)
      && (forall e :: e in es && e.Notify? && e.template == OnboardingSms ==> e in sms)
      && (forall e :: e in es && CompletionNotice(e) ==> e in PendingCompletion(user, w.reread, w.isPrn, w.shareToken))
      && (forall e :: e in es && e.Webhook? ==> e in ProfileHooks(req, w, files.updatedItems))
      && (forall e :: e in ProfileHooks(req, w, files.updatedItems) ==> e in es)
  {
    var user := w.stored.value;
    ProfileEffectsParts(req, w, token, files);
    ProfileShapeOrder(files.effects, PictureDeletes(req, w), ProfileNotices(req, w, token), S3Deletes(files.deleteKeys), ProfileHooks(req, w, files.updatedItems));
    ProfileShapeSources(files.effects, PictureDeletes(req, w), PendingCompletion(user, w.reread, w.isPrn, w.shareToken), EmailNotice(req.item, user, w.isPrn, token),
      SmsNotice(req.item, user, w.extras), S3Deletes(files.deleteKeys), ProfileHooks(req, w, files.updatedItems));
  }

  /** A changed e-mail gets, after the write, the notice whose template
      depends on activation and branding and whose link carries the token
      written with the record. */
  lemma EmailNoticeSent(req: ProfileRequest, w: ProfileWorld)
    requires UpdateProfessionalRun(req, w).result.Ok?
    requires EmailChanged(req.item, w.stored.value)
    ensures var es := UpdateProfessionalRun(req, w).effects;
      var p := UpdateProfessionalRun(req, w).result.value;
      var user := w.stored.value;
      FirstWrite(es) < |es|
      && Notify(ChangeTemplate(user.activatedAt.Some?, w.isPrn), req.item.email.value, EmailQuery(p.verificationToken)) in es[FirstWrite(es) + 1..]
  {
    var acting, files, patch := ProfileRunPieces(req, w);
    var user := w.stored.value;
    ProfileEffectsSources(req, w, patch.verificationToken, files);
    assert EmailNotice(req.item, user, w.isPrn, patch.verificationToken)
      == [Notify(ChangeTemplate(user.activatedAt.Some?, w.isPrn), req.item.email.value, EmailQuery(patch.verificationToken))];
  }

  /** An unchanged e-mail gets no e-mail notice at all. */
  lemma NoEmailNoticeUnchanged(req: ProfileRequest, w: ProfileWorld)
    requires UpdateProfessionalRun(req, w).result.Ok?
    requires !EmailChanged(req.item, w.stored.value)
    ensures forall e :: e in UpdateProfessionalRun(req, w).effects ==> !(e.Notify? && EmailTemplate(e.template))
  {
    var acting, files, patch := ProfileRunPieces(req, w);
    ProfileEffectsSources(req, w, patch.verificationToken, files);
    assert EmailNotice(req.item, w.stored.value, w.isPrn, patch.verificationToken) == [];
  }

  /** The onboarding SMS goes out exactly when the request moves the
      briefcase to step 2 or later and there is a phone, to the sent phone
      or else the stored one. */
  lemma SmsRule(req: ProfileRequest, w: ProfileWorld)
    requires UpdateProfessionalRun(req, w).result.Ok?
    ensures var es := UpdateProfessionalRun(req, w).effects;
      var user := w.stored.value;
      var due := ReachesStepTwo(req.item, w.extras) && SmsPhone(req.item, user) != "";
      (Notify(OnboardingSms, SmsPhone(req.item, user), "") in es <==> due)
      && (forall e :: e in es && e.Notify? && e.template == OnboardingSms ==> due)
  {
    var acting, files, patch := ProfileRunPieces(req, w);
    ProfileEffectsSources(req, w, patch.verificationToken, files);
  }

  /** No webhook is published for a HospitalApi session; otherwise an
      organization gets the professional-updated webhook exactly when one
      of its live affiliations has it configured. */
  lemma ProfileHooksRule(req: ProfileRequest, w: ProfileWorld, org: string)
    requires UpdateProfessionalRun(req, w).result.Ok?
    ensures var es := UpdateProfessionalRun(req, w).effects;
      var affs := AffiliationsOf(w.stored.value);
      (req.session.userType == HospitalApi ==> forall e :: e in es ==> !e.Webhook?)
      && (req.session.userType != HospitalApi ==>
          (Webhook(ProfessionalUpdatedHook, org) in es <==>
           exists i :: 0 <= i < |affs| && affs[i].organization == org && affs[i].rejectedAt.None? && HookOn(w.hooksOf(org), ProfessionalUpdatedHook)))
  {
    var acting, files, patch := ProfileRunPieces(req, w);
    var user := w.stored.value;
    ProfileEffectsSources(req, w, patch.verificationToken, files);
    var updated := HookPart(user, req.session.userType, w.hooksOf, ProfessionalUpdatedHook);
    var round := HookPart(user, req.session.userType, w.hooksOf, FileUploadedHook);
    assert ProfileHooks(req, w, files.updatedItems) == updated + FileHooks(files.updatedItems, round);
    assert forall e :: e in ProfileHooks(req, w, files.updatedItems) && e.kind == ProfessionalUpdatedHook ==> e in updated;
    HookEffectsExact(AffiliationsOf(user), w.hooksOf, ProfessionalUpdatedHook, org);
  }

  /** Once the stored briefcase is completed, no completion notice and no share go out. */
  lemma ProfileCompletionGate(req: ProfileRequest, w: ProfileWorld)
    requires UpdateProfessionalRun(req, w).result.Ok?
    ensures CompletedAt(w.stored.value).Some? ==> forall e :: e in UpdateProfessionalRun(req, w).effects ==> !CompletionNotice(e)
  {
    var acting, files, patch := ProfileRunPieces(req, w);
    ProfileEffectsSources(req, w, patch.verificationToken, files);
  }
}
