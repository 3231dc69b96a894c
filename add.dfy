/** `add` and `addProfessional` (src/add/add.ts) as methods over the account
    store: the checks run in the source's order, an existing account gets its
    token rewritten and ends in a workflow error, and a new email gets a
    record built step by step, inserted, audited and announced. */
module AddAccount {
  import opened Domain
  import opened VerifyLink
  import opened AddRules
  import opened Repository

  /** The checks an existing account passes before the add goes ahead. */
  predicate PassesChecks(e: Professional, o: AddOptions)
  {
    e.userType == Nurse && e.deactivatedAt.None? && !ProfessionClash(o.user.profession, e.profession)
    && !AlreadyRegistered(e, o.organization, o.isIrpAdd)
  }

  /** The screening of an existing account, in the source's order: a
      non-professional account, a deactivated one, a different profession,
      then an account already registered where the add would put it (which
      re-sends the activation notice while the account is unactivated). */
  method Screen(db: Backend, o: AddOptions) returns (stop: Option<ErrorKind>)
    modifies db
    ensures db.accounts == old(db.accounts)
    ensures var e := Lookup(db.accounts, o.user.email);
      e.Some? && e.value.userType != Nurse ==> stop == Some(AccountAlreadyExists) && db.log == old(db.log)
    ensures var e := Lookup(db.accounts, o.user.email);
      e.Some? && e.value.userType == Nurse && e.value.deactivatedAt.Some? ==> stop == Some(DeactivatedAccount) && db.log == old(db.log)
    ensures var e := Lookup(db.accounts, o.user.email);
      e.Some? && e.value.userType == Nurse && e.value.deactivatedAt.None? && ProfessionClash(o.user.profession, e.value.profession)
      ==> stop == Some(ProfessionAlreadyAssigned) && db.log == old(db.log)
    ensures var e := Lookup(db.accounts, o.user.email);
      e.Some? && e.value.userType == Nurse && e.value.deactivatedAt.None? && !ProfessionClash(o.user.profession, e.value.profession)
      && AlreadyRegistered(e.value, o.organization, o.isIrpAdd)
      ==> stop == Some(AccountAlreadyExists)
          && db.log == old(db.log) + (if e.value.activatedAt.None? then [ActivationNotice(e.value, o)] else [])
    ensures var e := Lookup(db.accounts, o.user.email);
      e.None? || PassesChecks(e.value, o) <==> stop.None?
    ensures stop.None? ==> db.log == old(db.log)
  {
    var existing := Lookup(db.accounts, o.user.email);
    if existing.Some? && existing.value.userType != Nurse {
      return Some(AccountAlreadyExists);
    }
    if existing.Some? {
      var e := existing.value;
      if e.deactivatedAt.Some? {
        return Some(DeactivatedAccount);
      }
      if ProfessionClash(o.user.profession, e.profession) {
        return Some(ProfessionAlreadyAssigned);
      }
      if AlreadyRegistered(e, o.organization, o.isIrpAdd) {
        if e.activatedAt.None? {
          db.log := db.log + [ActivationNotice(e, o)];
        }
        return Some(AccountAlreadyExists);
      }
    }
    return None;
  }

  /** What one `add` does to the store, as a value: its result, the accounts
      afterwards, and the effects it appends to the log. */
  datatype AddRun = AddRun(result: Result<Professional>, accounts: map<string, Professional>, effects: seq<Effect>)

  /** `add` on the accounts `accounts`: the screen, the department check, then
      the existing-account path or the new account. Only the account filed
      under the added email can change. */
  function AddRunOf(accounts: map<string, Professional>, o: AddOptions, env: AddEnv): (run: AddRun)
    ensures forall email :: email != o.user.email ==>
      (email in run.accounts <==> email in accounts) && (email in accounts ==> run.accounts[email] == accounts[email])
    ensures accounts.Keys <= run.accounts.Keys
    ensures run.result.Ok? ==> o.user.email !in accounts && o.user.email in run.accounts
                               && run.accounts[o.user.email] == run.result.value
    ensures run.result.Ok? ==> run.accounts == accounts[o.user.email := run.result.value]
  {
    var e := Lookup(accounts, o.user.email);
    if e.Some? && !PassesChecks(e.value, o) then
      var resend := e.value.userType == Nurse && e.value.deactivatedAt.None?
                    && !ProfessionClash(o.user.profession, e.value.profession) && e.value.activatedAt.None?;
      AddRun(Err(if e.value.userType != Nurse then AccountAlreadyExists
                 else if e.value.deactivatedAt.Some? then DeactivatedAccount
                 else if ProfessionClash(o.user.profession, e.value.profession) then ProfessionAlreadyAssigned
                 else AccountAlreadyExists),
             accounts, if resend then [ActivationNotice(e.value, o)] else [])
    else if ResolveDepartment(o, env.departments).Err? then AddRun(Err(DepartmentNotFound), accounts, [])
    else if e.Some? then
      AddRun(Err(ExistingAccountError(o)), accounts[o.user.email := RefreshedAccount(e.value, o, env)],
             ExistingAccountEffects(e.value, o, env))
    else
      var department := ResolveDepartment(o, env.departments).value;
      AddRun(NewAccountOutcome(o, env, department), accounts[o.user.email := NewAccount(o, env, department)],
             NewAccountEffects(o, env))
  }

  /** `add`: screen the existing account, check the department, then either
      take the existing-account path or create the account. */
  method Add(db: Backend, o: AddOptions, env: AddEnv) returns (r: Result<Professional>)
    requires db.Valid()
    modifies db
    ensures db.Valid()
    ensures var e := Lookup(old(db.accounts), o.user.email);
      !(e.None? || PassesChecks(e.value, o)) ==> r.Err? && db.accounts == old(db.accounts)
    // a failed screen ends in its own error, with the activation notice re-sent
    // to an unactivated account that is already registered
    ensures var e := Lookup(old(db.accounts), o.user.email);
      e.Some? && e.value.userType != Nurse ==> r == Err(AccountAlreadyExists) && db.log == old(db.log)
    ensures var e := Lookup(old(db.accounts), o.user.email);
      e.Some? && e.value.userType == Nurse && e.value.deactivatedAt.Some?
      ==> r == Err(DeactivatedAccount) && db.log == old(db.log)
    ensures var e := Lookup(old(db.accounts), o.user.email);
      e.Some? && e.value.userType == Nurse && e.value.deactivatedAt.None? && ProfessionClash(o.user.profession, e.value.profession)
      ==> r == Err(ProfessionAlreadyAssigned) && db.log == old(db.log)
    ensures var e := Lookup(old(db.accounts), o.user.email);
      e.Some? && e.value.userType == Nurse && e.value.deactivatedAt.None? && !ProfessionClash(o.user.profession, e.value.profession)
      && AlreadyRegistered(e.value, o.organization, o.isIrpAdd)
      ==> r == Err(AccountAlreadyExists)
          && db.log == old(db.log) + (if e.value.activatedAt.None? then [ActivationNotice(e.value, o)] else [])
    ensures var e := Lookup(old(db.accounts), o.user.email);
      (e.None? || PassesChecks(e.value, o)) && ResolveDepartment(o, env.departments).Err?
      ==> r == Err(DepartmentNotFound) && db.accounts == old(db.accounts) && db.log == old(db.log)
    // an existing account never yields a record
    ensures var e := Lookup(old(db.accounts), o.user.email);
      e.Some? && PassesChecks(e.value, o) && ResolveDepartment(o, env.departments).Ok?
      ==> r == Err(ExistingAccountError(o))
          && db.accounts == old(db.accounts)[o.user.email := RefreshedAccount(e.value, o, env)]
          && db.log == old(db.log) + ExistingAccountEffects(e.value, o, env)
    // a new email is inserted under that email, and nothing else changes;
    // the add still fails afterwards when the JNP welcome throws
    ensures var e := Lookup(old(db.accounts), o.user.email);
      e.None? && ResolveDepartment(o, env.departments).Ok?
      ==> r == NewAccountOutcome(o, env, ResolveDepartment(o, env.departments).value)
          && db.accounts == old(db.accounts)[o.user.email := NewAccount(o, env, ResolveDepartment(o, env.departments).value)]
          && db.log == old(db.log) + NewAccountEffects(o, env)
    ensures r.Ok? ==> o.user.email !in old(db.accounts)
    // all of the above at once, as a value
    ensures r == AddRunOf(old(db.accounts), o, env).result && db.accounts == AddRunOf(old(db.accounts), o, env).accounts
    ensures db.log == old(db.log) + AddRunOf(old(db.accounts), o, env).effects
  {
    var stop := Screen(db, o);
    if stop.Some? {
      return Err(stop.value);
    }
    var email := o.user.email;
    var existing := Lookup(db.accounts, email);

    var department: Option<string> := None;
    if o.departmentId != "" && o.session.Some? {
      if o.organization.Some? && o.departmentId in env.departments && env.departments[o.departmentId] == o.organization.value.id {
        department := Some(o.departmentId);
      }
      if department.None? {
        return Err(DepartmentNotFound);
      }
    }
    assert ResolveDepartment(o, env.departments) == Ok(department);

    if existing.Some? {
      if o.session.None? {
        r := AddToExistingWithoutSession(db, existing.value, o, env);
      } else {
        r := AddToExistingWithSession(db, existing.value, o, env);
      }
      return;
    }

    r := CreateAccount(db, o, env, department);
  }

  /** The new-account path: insert the built record under its email, audit
      it, send the activation notice (and the JNP welcome), then the webhook.
      An IRP add for the JNP hospital without a session user throws while
      building the welcome, after the insert and the audit entry. */
  method CreateAccount(db: Backend, o: AddOptions, env: AddEnv, department: Option<string>) returns (r: Result<Professional>)
    requires db.Valid() && o.user.email !in db.accounts
    modifies db
    ensures db.Valid()
    ensures r == NewAccountOutcome(o, env, department)
    ensures db.accounts == old(db.accounts)[o.user.email := NewAccount(o, env, department)]
    ensures db.log == old(db.log) + NewAccountEffects(o, env)
  {
    var user := BuildNewAccount(o, env, department);
    db.accounts := db.accounts[o.user.email := user];
    var thrown := LogNewAccount(db, o, env);
    if thrown {
      return Err(TypeError);
    }
    r := Ok(user);
  }

  /** What follows the insert of a new account: the audit entry, then the
      notices and the webhook, unless building the JNP welcome throws. */
  method LogNewAccount(db: Backend, o: AddOptions, env: AddEnv) returns (thrown: bool)
    modifies db
    ensures thrown == JnpWelcomeThrows(o, env)
    ensures db.accounts == old(db.accounts)
    ensures db.log == old(db.log) + NewAccountEffects(o, env)
  {
    var stored: seq<Effect> := [Write(InsertRecord), Audit(UserCreated)];
    if o.isIrpAdd && JnpMatch(o.organization, env.jnpHospitalId) && o.session.None? {
      db.log := db.log + (stored + []);
      return true;
    }
    var email := o.user.email;
    var notices := [Notify(ActivationTemplate(o.isIrpAdd, o.session), email, ActivationQuery(env.freshToken, OrgOmitted))];
    if o.isIrpAdd && JnpMatch(o.organization, env.jnpHospitalId) {
      notices := notices + [Notify(JnpActivationWelcomeDay1, email, ActivationQuery(env.freshToken, OrgOmitted))];
    }
    var hook: seq<Effect> := [];
    if FiresAffiliationAdded(o) {
      hook := [Webhook(AffiliationAddedHook, o.organization.value.id)];
    }
    db.log := db.log + (stored + (notices + hook));
    return false;
  }

  /** The existing-account path without a session: rewrite the token (reused
      while unexpired, expiry reset to seven days), send the add-affiliation
      link, and end in the workflow error. */
  method AddToExistingWithoutSession(db: Backend, e: Professional, o: AddOptions, env: AddEnv) returns (r: Result<Professional>)
    requires db.Valid() && e.email in db.accounts && db.accounts[e.email] == e
    requires o.session.None?
    modifies db
    ensures db.Valid()
    ensures r == Err(ExistingAccountError(o))
    ensures db.accounts == old(db.accounts)[e.email := RefreshedAccount(e, o, env)]
    ensures db.log == old(db.log) + ExistingAccountEffects(e, o, env)
  {
    var token := TokenFor(e, env.now, env.freshToken);
    db.accounts := db.accounts[e.email := e.(verificationToken := token, verificationTokenExpiresAt := Some(env.now + 7 * Day))];
    db.log := db.log + [Write(TokenRefresh)];
    var rid := RecruiterQueryId(o);
    if rid.Err? {
      return Err(TypeError);
    }
    db.log := db.log + [Notify(AddBriefcaseAffiliation, e.email, AddAffiliationQuery(TokenText(token), OrgArgOf(o.organization), rid.value))];
    return Err(AddAffiliationRequired);
  }

  /** The existing-account path with a session: rewrite the token and attach
      the affiliation (or mark the account as marketplace), notify, and still
      end in the workflow error. */
  method AddToExistingWithSession(db: Backend, e: Professional, o: AddOptions, env: AddEnv) returns (r: Result<Professional>)
    requires db.Valid() && e.email in db.accounts && db.accounts[e.email] == e
    requires o.session.Some?
    modifies db
    ensures db.Valid()
    ensures r == Err(ExistingAccountError(o))
    ensures db.accounts == old(db.accounts)[e.email := RefreshedAccount(e, o, env)]
    ensures db.log == old(db.log) + ExistingAccountEffects(e, o, env)
  {
    var token := TokenFor(e, env.now, env.freshToken);
    var expiry := env.now + 7 * Day;
    var link := TokenText(token);
    var refreshed := e.(verificationToken := token, verificationTokenExpiresAt := Some(expiry));
    var writes: seq<Effect>;
    if o.organization.Some? {
      writes := [Write(TokenRefresh), Write(AttachAffiliation(o.organization.value.id))];
      if FiresAffiliationAdded(o) {
        writes := writes + [Webhook(AffiliationAddedHook, o.organization.value.id)];
      }
    } else {
      refreshed := refreshed.(isMarketplace := Some(true));
      writes := [Write(SetMarketplace)];
    }
    db.accounts := db.accounts[e.email := refreshed];

    var notice: Effect;
    if e.activatedAt.Some? {
      notice := Notify(EmailConfirmedNurse, e.email, "");
    } else {
      notice := Notify(AddBriefcaseAffiliation, e.email, AddAffiliationQuery(link, OrgOmitted, None));
    }
    var welcome: seq<Effect> := [];
    if o.isIrpAdd && JnpMatch(o.organization, env.jnpHospitalId) && e.activatedAt.None? {
      welcome := [Notify(JnpActivationWelcomeDay1, e.email, ActivationQuery(link, OrgOmitted))];
    }
    db.log := db.log + (writes + [notice] + welcome);
    r := Err(AddAffiliationRequired);
  }

  /** Fills the defaults of the work cities one by one. */
  method DefaultWorkCityCountries(cities: seq<WorkCity>) returns (out: seq<WorkCity>)
    ensures out == DefaultCountries(cities)
  {
    out := cities;
    var i := 0;
    while i < |out|
      invariant 0 <= i <= |out| == |cities|
      invariant forall j :: 0 <= j < i ==> out[j] == DefaultCountry(cities[j])
      invariant forall j :: i <= j < |out| ==> out[j] == cities[j]
    {
      if out[i].country == "" {
        out := out[i := out[i].(country := "US")];
      }
      i := i + 1;
    }
    assert out == DefaultCountries(cities);
  }

  /** Defaults the country of an address, then fills missing coordinates from the city table. */
  method CompleteAddress(address: Address, cities: map<(string, string, string), Coordinates>) returns (a: Address)
    ensures Some(a) == NormalizeAddress(Some(address), cities)
  {
    a := address;
    if a.country == "" {
      a := a.(country := "US");
    }
    if a.coordinates.None? && (a.city, a.state, a.country) in cities {
      a := a.(coordinates := Some(cities[(a.city, a.state, a.country)]));
    }
  }

  /** The new record, assembled field by field as `add` does. */
  method BuildNewAccount(o: AddOptions, env: AddEnv, department: Option<string>) returns (user: Professional)
    ensures user == NewAccount(o, env, department)
  {
    user := o.user.(
      id := env.freshId,
      createdBy := CreatedBy(o.session, env.freshId),
      verificationToken := Some(env.freshToken),
      verificationTokenExpiresAt := Some(env.now + 7 * Day));
    if user.emailCommunicationEnabled.None? {
      user := user.(emailCommunicationEnabled := Some(true));
    }
    if user.address.Some? {
      var a := CompleteAddress(user.address.value, env.cities);
      user := user.(address := Some(a));
    }
    var cities := DefaultWorkCityCountries(user.workCities);
    user := user.(workCities := cities);
    if user.briefcase.Some? && IsEmptyBriefcase(user.briefcase.value) {
      user := user.(briefcase := None);
    }
    if o.organization.Some? {
      user := user.(affiliations := Some([NewAffiliation(o, env, department)]));
    } else {
      user := user.(isMarketplace := Some(true));
    }
  }

  /** `addProfessional`: resolve the request, then `add`. A request that
      fails resolution changes nothing. */
  method AddProfessional(db: Backend, req: AddRequest, dir: Directory, env: AddEnv, passwordHash: string) returns (r: Result<Professional>)
    requires db.Valid()
    modifies db
    ensures db.Valid()
    ensures PrepareAdd(req, dir, passwordHash).Err? ==> r == Err(PrepareAdd(req, dir, passwordHash).error) && db.accounts == old(db.accounts) && db.log == old(db.log)
    ensures r.Ok? ==> PrepareAdd(req, dir, passwordHash).Ok? && req.item.email !in old(db.accounts)
                      && db.accounts == old(db.accounts)[req.item.email := r.value]
    // once the request resolves, the outcome is exactly `add`'s on the prepared options
    ensures PrepareAdd(req, dir, passwordHash).Ok? ==>
      var o := PrepareAdd(req, dir, passwordHash).value;
      var e := Lookup(old(db.accounts), o.user.email);
      (!(e.None? || PassesChecks(e.value, o)) ==> r.Err? && db.accounts == old(db.accounts))
      && (e.Some? && e.value.userType != Nurse ==> r == Err(AccountAlreadyExists) && db.log == old(db.log))
      && (e.Some? && e.value.userType == Nurse && e.value.deactivatedAt.Some?
          ==> r == Err(DeactivatedAccount) && db.log == old(db.log))
      && (e.Some? && e.value.userType == Nurse && e.value.deactivatedAt.None? && ProfessionClash(o.user.profession, e.value.profession)
          ==> r == Err(ProfessionAlreadyAssigned) && db.log == old(db.log))
      && (e.Some? && e.value.userType == Nurse && e.value.deactivatedAt.None? && !ProfessionClash(o.user.profession, e.value.profession)
          && AlreadyRegistered(e.value, o.organization, o.isIrpAdd)
          ==> r == Err(AccountAlreadyExists)
              && db.log == old(db.log) + (if e.value.activatedAt.None? then [ActivationNotice(e.value, o)] else []))
      && ((e.None? || PassesChecks(e.value, o)) && ResolveDepartment(o, env.departments).Err?
          ==> r == Err(DepartmentNotFound) && db.accounts == old(db.accounts) && db.log == old(db.log))
      && (e.Some? && PassesChecks(e.value, o) && ResolveDepartment(o, env.departments).Ok?
          ==> r == Err(ExistingAccountError(o))
              && db.accounts == old(db.accounts)[o.user.email := RefreshedAccount(e.value, o, env)]
              && db.log == old(db.log) + ExistingAccountEffects(e.value, o, env))
      && (e.None? && ResolveDepartment(o, env.departments).Ok?
          ==> r == NewAccountOutcome(o, env, ResolveDepartment(o, env.departments).value)
              && db.accounts == old(db.accounts)[o.user.email := NewAccount(o, env, ResolveDepartment(o, env.departments).value)]
              && db.log == old(db.log) + NewAccountEffects(o, env))
  {
    var prepared := PrepareAdd(req, dir, passwordHash);
    if prepared.Err? {
      return Err(prepared.error);
    }
    assert prepared.value.user.email == req.item.email;
    r := Add(db, prepared.value, env);
  }
}
