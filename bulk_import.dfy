/** `bulkAddProfessional` (src/add/add.ts): the session user and its
    organization are resolved once, then every CSV row is decoded, its
    affiliation columns are taken off, its work cities are located, its
    profession is taken from its first license, and it is handed to `add`.
    Each row gets a result numbered from 1 holding either the added user or
    the errors that stopped it; one row's failure never stops the next. */
module BulkImport {
  import opened Domain
  import opened ImportTables
  import opened ImportValidate
  import opened AddRules
  import opened AddAccount
  import opened Repository
  import UpdateAccess

  /** A CSV row, column name to cell text. */
  type Row = map<string, string>

  /** What the field configuration makes of a row before the whole-item hook:
      the decoded item with the per-field errors, or an error it throws. The
      decoding itself is done by a library and enters as a parameter. */
  datatype Decoded = Parsed(item: ImportedUser, fieldErrors: seq<FieldError>) | Thrown(error: ErrorKind)

  /** An entry of a row's `errors`. */
  datatype RowError = FieldFailure(field: FieldError) | Raised(error: ErrorKind)

  /** `{ row, user?, errors? }`. */
  datatype RowResult = RowResult(row: nat, user: Option<Professional>, errors: seq<RowError>)

  datatype Unflattened = Item(item: ImportedUser) | Rejected(errors: seq<RowError>)

  function AsRowErrors(es: seq<FieldError>): (r: seq<RowError>)
    ensures |r| == |es|
    ensures forall k :: 0 <= k < |es| ==> r[k] == FieldFailure(es[k])
  {
    seq(|es|, k requires 0 <= k < |es| => FieldFailure(es[k]))
  }

  /** `unflatten`: the field errors and the hook's errors together reject the
      row (as the inner errors of one `MultipleErrors`); an error thrown by
      the decoding or by the hook is the row's only error. */
  function Unflatten(d: Decoded, t: Tables): (u: Unflattened)
    ensures d.Thrown? ==> u == Rejected([Raised(d.error)])
    ensures u.Rejected? ==> u.errors != []
    ensures u.Item? ==> d.Parsed? && d.fieldErrors == [] && Validate(d.item, t) == Ok([])
                        && u.item == WithCertifyingBodies(d.item, t.certifications)
  {
    if d.Thrown? then Rejected([Raised(d.error)])
    else
      var v := Validate(d.item, t);
      if v.Err? then Rejected([Raised(v.error)])
      else if d.fieldErrors + v.value != [] then Rejected(AsRowErrors(d.fieldErrors + v.value))
      else Item(WithCertifyingBodies(d.item, t.certifications))
  }

  /** An accepted row names a recruiter and references that can be reached,
      and licenses of known types with the details their type demands. */
  lemma AcceptedRowIsComplete(d: Decoded, t: Tables)
    requires Unflatten(d, t).Item?
    ensures var item := d.item;
      (item.affiliation.Some? && item.affiliation.value.recruiter.Some? ==>
         !LacksContact(item.affiliation.value.recruiter.value.phoneNumber, item.affiliation.value.recruiter.value.email))
      && (forall i :: 0 <= i < |References(item)| ==> !ReferenceLacksContact(References(item)[i]))
      && (forall i :: 0 <= i < |Licenses(item)| ==>
            LicenseTypeOf(Licenses(item)[i].licenseType, t.licenseTypes).Some?
            && !MissingDetails(Licenses(item)[i], LicenseTypeOf(Licenses(item)[i].licenseType, t.licenseTypes).value))
  {
    var item := d.item;
    var ls := LicenseErrorsFrom(Licenses(item), t.licenseTypes, 0);
    LicenseErrorsThrowIffUnknownType(Licenses(item), t.licenseTypes, 0);
    assert ls.Ok? && ls.value == [];
    forall i | 0 <= i < |References(item)| ensures !ReferenceLacksContact(References(item)[i]) {
      ReferenceErrorsExact(References(item), 0, i, "email");
    }
    forall i | 0 <= i < |Licenses(item)|
      ensures LicenseTypeOf(Licenses(item)[i].licenseType, t.licenseTypes).Some?
              && !MissingDetails(Licenses(item)[i], LicenseTypeOf(Licenses(item)[i].licenseType, t.licenseTypes).value)
    {
      LicenseErrorsExact(Licenses(item), t.licenseTypes, 0, i);
    }
  }

  /** The city lookup key of a work city. */
  function CityKey(w: WorkCity): (string, string, string)
  {
    (w.city, w.state, w.country)
  }

  /** The work cities that the city table knows, in order, with their coordinates. */
  function Located(ws: seq<WorkCity>, cities: map<(string, string, string), Coordinates>): (r: seq<WorkCity>)
    ensures |r| <= |ws|
  {
    if |ws| == 0 then []
    else
      var last := ws[|ws| - 1];
      Located(ws[..|ws| - 1], cities)
      + (if CityKey(last) in cities then [last.(coordinates := Some(cities[CityKey(last)]))] else [])
  }

  /** A located city is a known input city carrying the table's coordinates,
      and every known input city is located. */
  lemma {:induction false} LocatedExactly(ws: seq<WorkCity>, cities: map<(string, string, string), Coordinates>, w: WorkCity)
    ensures w in Located(ws, cities) <==>
            CityKey(w) in cities && w.coordinates == Some(cities[CityKey(w)])
            && exists v :: v in ws && CityKey(v) == CityKey(w) && w == v.(coordinates := w.coordinates)
  {
    if |ws| > 0 {
      var front := ws[..|ws| - 1];
      LocatedExactly(front, cities, w);
      assert ws == front + [ws[|ws| - 1]];
      if w in Located(ws, cities) && w !in Located(front, cities) {
        assert w == ws[|ws| - 1].(coordinates := w.coordinates);
      }
      if CityKey(w) in cities && w.coordinates == Some(cities[CityKey(w)]) {
        if v :| v in ws && CityKey(v) == CityKey(w) && w == v.(coordinates := w.coordinates) {
          if v !in front {
            assert v == ws[|ws| - 1];
          }
        }
      }
    }
  }

  /** The coordinates loop of the import: a located city gets its
      coordinates, an unknown one is spliced out and the index stays put. */
  method LocateWorkCities(ws: seq<WorkCity>, cities: map<(string, string, string), Coordinates>) returns (out: seq<WorkCity>)
    ensures out == Located(ws, cities)
  {
    out := ws;
    var i := 0;
    ghost var consumed := 0;
    while i < |out|
      invariant 0 <= i <= |out| && 0 <= consumed <= |ws|
      invariant out[..i] == Located(ws[..consumed], cities)
      invariant out[i..] == ws[consumed..]
      decreases |out| - i
    {
      assert ws[..consumed + 1][..consumed] == ws[..consumed];
      assert ws[consumed] == out[i];
      var key := CityKey(out[i]);
      if key in cities {
        out := out[i := out[i].(coordinates := Some(cities[key]))];
        assert out[..i + 1] == out[..i] + [out[i]];
        i := i + 1;
      } else {
        out := out[..i] + out[i + 1..];
      }
      consumed := consumed + 1;
    }
    assert ws[..consumed] == ws;
    assert out[..i] == out;
  }

  /** The first license type whose abbreviation is exactly `abbr`. */
  function ExactLicenseType(abbr: string, types: seq<LicenseTypeRow>): (r: Option<LicenseTypeRow>)
    ensures r.Some? ==> r.value in types && r.value.abbr == abbr
    ensures r.None? ==> forall j :: 0 <= j < |types| ==> types[j].abbr != abbr
  {
    if |types| == 0 then None
    else if types[0].abbr == abbr then Some(types[0])
    else ExactLicenseType(abbr, types[1..])
  }

  /** Whether some license type of `profession` has abbreviation `abbr`. */
  predicate OfProfession(abbr: string, profession: string, types: seq<LicenseTypeRow>)
  {
    exists j :: 0 <= j < |types| && types[j].profession == profession && types[j].abbr == abbr
  }

  function FilterLicenses(ls: seq<License>, profession: string, types: seq<LicenseTypeRow>): (r: seq<License>)
    ensures |r| <= |ls|
    ensures forall l :: l in r <==> l in ls && OfProfession(l.licenseType, profession, types)
  {
    if |ls| == 0 then []
    else
      var rest := FilterLicenses(ls[1..], profession, types);
      assert forall l :: l in ls <==> l == ls[0] || l in ls[1..];
      if OfProfession(ls[0].licenseType, profession, types) then [ls[0]] + rest else rest
  }

  /** Filtering a concatenation filters each half and keeps them in order;
      with the one-license cases this fixes the order and the multiplicity
      of the kept licenses, as `filter` does. */
  lemma {:induction false} FilterLicensesConcat(a: seq<License>, b: seq<License>, profession: string, types: seq<LicenseTypeRow>)
    ensures FilterLicenses(a + b, profession, types) == FilterLicenses(a, profession, types) + FilterLicenses(b, profession, types)
    decreases |a|
  {
    if |a| > 0 {
      assert (a + b)[1..] == a[1..] + b;
      FilterLicensesConcat(a[1..], b, profession, types);
    } else {
      assert a + b == b;
    }
  }

  /** The profession of an imported user is the profession of its first
      license's type, and only licenses of that profession are kept; a user
      whose briefcase has no license, or whose first license type is unknown,
      loses the whole briefcase. */
  function ByLicenseType(u: Professional, types: seq<LicenseTypeRow>): (r: Professional)
  {
    if u.briefcase.Some? && |u.briefcase.value.licenses| > 0 then
      var first := ExactLicenseType(u.briefcase.value.licenses[0].licenseType, types);
      if first.Some? then
        var b := u.briefcase.value;
        u.(profession := first.value.profession,
           briefcase := Some(b.(licenses := FilterLicenses(b.licenses, first.value.profession, types))))
      else u.(briefcase := None)
    else u.(briefcase := None)
  }

  /** The briefcase survives exactly when its first license type is known;
      then the profession is that type's, the first license is kept, and a
      license is kept exactly when its type belongs to the profession. Other
      fields are untouched. */
  lemma ByLicenseTypeSpec(u: Professional, types: seq<LicenseTypeRow>)
    ensures var r := ByLicenseType(u, types);
      r.email == u.email && r.workCities == u.workCities && r.signupChannel == u.signupChannel
      && (r.briefcase.Some? <==>
            u.briefcase.Some? && |u.briefcase.value.licenses| > 0
            && ExactLicenseType(u.briefcase.value.licenses[0].licenseType, types).Some?)
      && (r.briefcase.None? ==> r.profession == u.profession)
      && (r.briefcase.Some? ==>
            var first := ExactLicenseType(u.briefcase.value.licenses[0].licenseType, types).value;
            r.profession == first.profession
            && u.briefcase.value.licenses[0] in r.briefcase.value.licenses
            && (forall l :: l in r.briefcase.value.licenses <==>
                  l in u.briefcase.value.licenses && OfProfession(l.licenseType, r.profession, types))
            && r.briefcase.value.specialties == u.briefcase.value.specialties)
  {
    var r := ByLicenseType(u, types);
    if r.briefcase.Some? {
      var first := ExactLicenseType(u.briefcase.value.licenses[0].licenseType, types).value;
      var j :| 0 <= j < |types| && types[j] == first;
      assert OfProfession(u.briefcase.value.licenses[0].licenseType, first.profession, types);
    }
  }

  /** The user a row hands to `add`. */
  function ImportedRecord(item: ImportedUser, cities: map<(string, string, string), Coordinates>, types: seq<LicenseTypeRow>): (p: Professional)
    ensures p.email == item.user.email
  {
    ByLicenseType(item.user.(signupChannel := "IMPORT", workCities := Located(item.user.workCities, cities)), types)
  }

  method PrepareRecord(item: ImportedUser, cities: map<(string, string, string), Coordinates>, types: seq<LicenseTypeRow>)
    returns (user: Professional)
    ensures user == ImportedRecord(item, cities, types)
  {
    user := item.user.(signupChannel := "IMPORT");
    var located := LocateWorkCities(user.workCities, cities);
    user := user.(workCities := located);
    user := ByLicenseType(user, types);
  }

  /** The options `add` receives for an imported row: the session user, its
      organization, the affiliation columns, and an IRP add only when the row
      says so. */
  function ImportOptions(session: SessionUser, organization: Option<Organization>, user: Professional, a: Option<ImportedAffiliation>): (o: AddOptions)
    ensures o.session == Some(session) && o.organization == organization && o.user == user && !o.external
    ensures o.isIrpAdd <==> a.Some? && a.value.isIrp == Some(true)
    ensures o.recruiter.Some? ==> o.recruiter.value.RecruiterPayload? && o.recruiter.value.id.None?
  {
    var recruiter :=
      if a.Some? && a.value.recruiter.Some? then
        var c := a.value.recruiter.value;
        Some(RecruiterPayload(None, c.firstName, c.lastName, c.email, c.phoneNumber))
      else None;
    AddOptions(
      Some(session), organization, user, recruiter,
      if a.Some? then a.value.thirdPartyId else "",
      None,
      if a.Some? then a.value.department else "",
      if a.Some? then a.value.notes else "",
      a.Some? && a.value.isIrp == Some(true),
      false)
  }

  /** The options `add` receives for an accepted row. */
  function RowOptions(session: SessionUser, organization: Option<Organization>, t: Tables, item: ImportedUser, env: AddEnv): AddOptions
  {
    ImportOptions(session, organization, ImportedRecord(item, env.cities, t.licenseTypes), item.affiliation)
  }

  /** The result of an accepted row: the added user, or the error `add` raised. */
  function AddedRow(row: nat, r: Result<Professional>): (res: RowResult)
    ensures res.row == row && (res.user.Some? <==> res.errors == [])
    ensures r.Ok? ==> res.user == Some(r.value)
    ensures r.Err? ==> res.errors == [Raised(r.error)]
  {
    match r
    case Ok(p) => RowResult(row, Some(p), [])
    case Err(e) => RowResult(row, None, [Raised(e)])
  }

  /** The results of a stretch of rows, the accounts they leave, and the
      effects they append to the log. */
  datatype ImportRun = ImportRun(results: seq<RowResult>, accounts: map<string, Professional>, effects: seq<Effect>)

  /** One decoded row on the accounts `accounts`: a rejected row changes
      nothing; an accepted row is whatever `add` makes of its options. */
  function RowRun(accounts: map<string, Professional>, session: SessionUser, organization: Option<Organization>,
                  t: Tables, u: Unflattened, env: AddEnv, row: nat): (rr: ImportRun)
    ensures |rr.results| == 1
    ensures u.Rejected? ==> rr == ImportRun([RowResult(row, None, u.errors)], accounts, [])
  {
    if u.Rejected? then ImportRun([RowResult(row, None, u.errors)], accounts, [])
    else
      var run := AddRunOf(accounts, RowOptions(session, organization, t, u.item, env), env);
      ImportRun([AddedRow(row, run.result)], run.accounts, run.effects)
  }

  /** The decoded rows in order, row k numbered k + 1, each run on the
      accounts the rows before it left. */
  function RowsRun(accounts: map<string, Professional>, session: SessionUser, organization: Option<Organization>,
                   t: Tables, us: seq<Unflattened>, envs: seq<AddEnv>): (rr: ImportRun)
    requires |envs| == |us|
    ensures |rr.results| == |us|
    decreases |us|
  {
    if |us| == 0 then ImportRun([], accounts, [])
    else
      var n := |us| - 1;
      var before := RowsRun(accounts, session, organization, t, us[..n], envs[..n]);
      var last := RowRun(before.accounts, session, organization, t, us[n], envs[n], n + 1);
      ImportRun(before.results + last.results, last.accounts, before.effects + last.effects)
  }

  /** Each row decoded and checked. */
  function UnflattenAll(ds: seq<Decoded>, t: Tables): (us: seq<Unflattened>)
    ensures |us| == |ds|
    ensures forall k :: 0 <= k < |ds| ==> us[k] == Unflatten(ds[k], t)
  {
    seq(|ds|, k requires 0 <= k < |ds| => Unflatten(ds[k], t))
  }

  /** Running the first i + 1 rows is running the first i, then row i + 1. */
  lemma RowsRunSnoc(accounts: map<string, Professional>, session: SessionUser, organization: Option<Organization>,
                    t: Tables, us: seq<Unflattened>, envs: seq<AddEnv>, i: nat)
    requires |envs| == |us| && i < |us|
    ensures var before := RowsRun(accounts, session, organization, t, us[..i], envs[..i]);
      var last := RowRun(before.accounts, session, organization, t, us[i], envs[i], i + 1);
      RowsRun(accounts, session, organization, t, us[..i + 1], envs[..i + 1])
        == ImportRun(before.results + last.results, last.accounts, before.effects + last.effects)
  {
    assert us[..i + 1][..i] == us[..i] && envs[..i + 1][..i] == envs[..i];
  }

  /** Running all the first |us| rows is running the rows. */
  lemma RowsRunWhole(accounts: map<string, Professional>, session: SessionUser, organization: Option<Organization>,
                     t: Tables, us: seq<Unflattened>, envs: seq<AddEnv>)
    requires |envs| == |us|
    ensures RowsRun(accounts, session, organization, t, us[..|us|], envs[..|envs|])
            == RowsRun(accounts, session, organization, t, us, envs)
  {
    assert us[..|us|] == us && envs[..|envs|] == envs;
  }

  /** Whether a decoded row is accepted and carries `email`. */
  predicate AddsEmail(u: Unflattened, email: string)
  {
    u.Item? && u.item.user.email == email
  }

  /** One row leaves every account filed under another email as it was. */
  lemma RowRunKeepsOtherAccounts(accounts: map<string, Professional>, session: SessionUser, organization: Option<Organization>,
                                 t: Tables, u: Unflattened, env: AddEnv, row: nat, email: string)
    requires !AddsEmail(u, email)
    ensures var after := RowRun(accounts, session, organization, t, u, env, row).accounts;
      accounts.Keys <= after.Keys && (email in after <==> email in accounts)
      && (email in accounts ==> after[email] == accounts[email])
  {
    if u.Item? {
      var o := RowOptions(session, organization, t, u.item, env);
      assert o.user.email == u.item.user.email != email;
    }
  }

  /** An import never removes an account, and an account whose email no
      accepted row carries is left as it was. */
  lemma {:induction false} RowsRunKeepsOtherAccounts(accounts: map<string, Professional>, session: SessionUser,
                                                     organization: Option<Organization>, t: Tables,
                                                     us: seq<Unflattened>, envs: seq<AddEnv>, email: string)
    requires |envs| == |us|
    requires forall k :: 0 <= k < |us| ==> !AddsEmail(us[k], email)
    ensures var after := RowsRun(accounts, session, organization, t, us, envs).accounts;
      accounts.Keys <= after.Keys && (email in after <==> email in accounts)
      && (email in accounts ==> after[email] == accounts[email])
    decreases |us|
  {
    if |us| > 0 {
      var n := |us| - 1;
      assert forall k :: 0 <= k < n ==> us[..n][k] == us[k];
      RowsRunKeepsOtherAccounts(accounts, session, organization, t, us[..n], envs[..n], email);
      var before := RowsRun(accounts, session, organization, t, us[..n], envs[..n]);
      RowRunKeepsOtherAccounts(before.accounts, session, organization, t, us[n], envs[n], n + 1, email);
    }
  }

  /** What a row's result says: its number, exactly one of a user and errors,
      the decoding errors of a rejected row, and for an added row the new
      record drawn from the row's fresh id, with the row's email and the
      import channel. */
  predicate Reports(res: RowResult, row: nat, d: Decoded, t: Tables, env: AddEnv)
  {
    res.row == row
    && (res.user.Some? <==> res.errors == [])
    && (Unflatten(d, t).Rejected? ==> res == RowResult(row, None, Unflatten(d, t).errors))
    && (res.user.Some? ==>
          Unflatten(d, t).Item? && res.user.value.id == env.freshId
          && res.user.value.email == d.item.user.email && res.user.value.signupChannel == "IMPORT")
  }

  /** The import: `sessionUser` is the session user found by id (if any),
      `decode` the field configuration, and `envs[k]` the clock, fresh values
      and lookups of row k. */
  method BulkAdd(db: Backend, sessionUser: Option<SessionUser>, t: Tables, rows: seq<Row>, decode: Row -> Decoded, envs: seq<AddEnv>)
    returns (r: Result<seq<RowResult>>)
    requires db.Valid() && |envs| == |rows|
    modifies db
    ensures db.Valid()
    ensures sessionUser.None? ==> r == Err(UserNotFound)
    ensures sessionUser.Some? && GetOrganization(sessionUser, "", map[]).Err?
            ==> r == Err(GetOrganization(sessionUser, "", map[]).error)
    ensures sessionUser.Some? && GetOrganization(sessionUser, "", map[]).Ok? && sessionUser.value.organization.None?
            ==> r == Err(TypeError)
    ensures r.Err? ==> db.accounts == old(db.accounts) && db.log == old(db.log)
    ensures r.Ok? ==> sessionUser.Some? && sessionUser.value.organization.Some? && |r.value| == |rows|
    ensures r.Ok? ==> forall k :: 0 <= k < |rows| ==> Reports(r.value[k], k + 1, decode(rows[k]), t, envs[k])
    ensures r.Ok? ==>
      var ds := seq(|rows|, k requires 0 <= k < |rows| => decode(rows[k]));
      var run := RowsRun(old(db.accounts), sessionUser.value, GetOrganization(sessionUser, "", map[]).value, t,
                         UnflattenAll(ds, t), envs);
      r.value == run.results && db.accounts == run.accounts && db.log == old(db.log) + run.effects
  {
    if sessionUser.None? {
      return Err(UserNotFound);
    }
    var organization := GetOrganization(sessionUser, "", map[]);
    if organization.Err? {
      return Err(organization.error);
    }
    if sessionUser.value.organization.None? {
      return Err(TypeError);
    }
    var ds := seq(|rows|, k requires 0 <= k < |rows| => decode(rows[k]));
    var results := ImportRows(db, sessionUser.value, organization.value, t, ds, envs);
    r := Ok(results);
  }

  /** Reports for the first `index` rows and for row `index + 1` are reports
      for the first `index + 1` rows. */
  lemma ReportsSnoc(results: seq<RowResult>, res: RowResult, ds: seq<Decoded>, t: Tables, envs: seq<AddEnv>, index: nat)
    requires |results| == index < |ds| == |envs|
    requires forall k :: 0 <= k < index ==> Reports(results[k], k + 1, ds[k], t, envs[k])
    requires Reports(res, index + 1, ds[index], t, envs[index])
    ensures forall k :: 0 <= k < index + 1 ==> Reports((results + [res])[k], k + 1, ds[k], t, envs[k])
  {
    forall k | 0 <= k < index + 1
      ensures Reports((results + [res])[k], k + 1, ds[k], t, envs[k])
    {
      if k < index {
        assert (results + [res])[k] == results[k];
      }
    }
  }

  /** The rows in order, each through `ImportRow`. */
  method ImportRows(db: Backend, session: SessionUser, organization: Option<Organization>, t: Tables,
                    ds: seq<Decoded>, envs: seq<AddEnv>)
    returns (results: seq<RowResult>)
    requires db.Valid() && |envs| == |ds|
    modifies db
    ensures db.Valid() && |results| == |ds|
    ensures forall k :: 0 <= k < |ds| ==> Reports(results[k], k + 1, ds[k], t, envs[k])
    ensures var run := RowsRun(old(db.accounts), session, organization, t, UnflattenAll(ds, t), envs);
      results == run.results && db.accounts == run.accounts && db.log == old(db.log) + run.effects
  {
    ghost var us := UnflattenAll(ds, t);
    results := [];
    var index := 0;
    assert us[..0] == [] && envs[..0] == [];
    while index < |ds|
      invariant db.Valid() && 0 <= index <= |ds| && |results| == index
      invariant forall k :: 0 <= k < index ==> Reports(results[k], k + 1, ds[k], t, envs[k])
      invariant var run := RowsRun(old(db.accounts), session, organization, t, us[..index], envs[..index]);
        results == run.results && db.accounts == run.accounts && db.log == old(db.log) + run.effects
    {
      var res := ImportNext(db, session, organization, t, ds, envs, us, old(db.accounts), old(db.log), results, index);
      results := results + [res];
      index := index + 1;
    }
    RowsRunWhole(old(db.accounts), session, organization, t, us, envs);
  }

  /** Row `index + 1` of an import whose first `index` rows ran from the
      accounts `accounts0` and the log `log0`: the store afterwards is the
      first `index + 1` rows run from there. */
  method ImportNext(db: Backend, session: SessionUser, organization: Option<Organization>, t: Tables,
                    ds: seq<Decoded>, envs: seq<AddEnv>, ghost us: seq<Unflattened>,
                    ghost accounts0: map<string, Professional>, ghost log0: seq<Effect>,
                    results: seq<RowResult>, index: nat)
    returns (res: RowResult)
    requires db.Valid() && |envs| == |ds| && us == UnflattenAll(ds, t) && |results| == index < |ds|
    requires forall k :: 0 <= k < index ==> Reports(results[k], k + 1, ds[k], t, envs[k])
    requires var run := RowsRun(accounts0, session, organization, t, us[..index], envs[..index]);
      results == run.results && db.accounts == run.accounts && db.log == log0 + run.effects
    modifies db
    ensures db.Valid() && Reports(res, index + 1, ds[index], t, envs[index])
    ensures forall k :: 0 <= k < index + 1 ==> Reports((results + [res])[k], k + 1, ds[k], t, envs[k])
    ensures var run := RowsRun(accounts0, session, organization, t, us[..index + 1], envs[..index + 1]);
      results + [res] == run.results && db.accounts == run.accounts && db.log == log0 + run.effects
  {
    ghost var before := RowsRun(accounts0, session, organization, t, us[..index], envs[..index]);
    ghost var logBefore := db.log;
    res := ImportRow(db, session, organization, t, ds[index], envs[index], index + 1);
    ghost var last := RowRun(before.accounts, session, organization, t, us[index], envs[index], index + 1);
    assert db.log == logBefore + last.effects;
    RowsRunSnoc(accounts0, session, organization, t, us, envs, index);
    UpdateAccess.AppendAssoc(log0, before.effects, last.effects);
    ReportsSnoc(results, res, ds, t, envs, index);
  }

  /** One row of the import: decode and check it, prepare the record, add it,
      and catch whatever it raises into the row's errors. */
  method ImportRow(db: Backend, session: SessionUser, organization: Option<Organization>, t: Tables, d: Decoded, env: AddEnv, row: nat)
    returns (res: RowResult)
    requires db.Valid()
    modifies db
    ensures db.Valid()
    ensures Reports(res, row, d, t, env)
    ensures Unflatten(d, t).Rejected? ==> db.accounts == old(db.accounts) && db.log == old(db.log)
    ensures Unflatten(d, t).Item? ==>
      var run := AddRunOf(old(db.accounts), RowOptions(session, organization, t, Unflatten(d, t).item, env), env);
      (run.result.Err? ==> res.errors == [Raised(run.result.error)])
      && (res.user.Some? ==> db.accounts == old(db.accounts)[Unflatten(d, t).item.user.email := res.user.value])
    ensures var rr := RowRun(old(db.accounts), session, organization, t, Unflatten(d, t), env, row);
      rr.results == [res] && db.accounts == rr.accounts && db.log == old(db.log) + rr.effects
  {
    var u := Unflatten(d, t);
    if u.Rejected? {
      return RowResult(row, None, u.errors);
    }
    var user := PrepareRecord(u.item, env.cities, t.licenseTypes);
    ByLicenseTypeSpec(u.item.user.(signupChannel := "IMPORT", workCities := Located(u.item.user.workCities, env.cities)), t.licenseTypes);
    var o := ImportOptions(session, organization, user, u.item.affiliation);
    var added := Add(db, o, env);
    if added.Err? {
      return RowResult(row, None, [Raised(added.error)]);
    }
    res := RowResult(row, Some(added.value), []);
  }
}
