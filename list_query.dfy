/** `listProfessionals` (src/list/list.ts): the filter, status clause and
    sort order of a listing of professionals, built step by step from the
    request, and what the listing then answers. The filter is modelled by
    what it means: `Matches(w, p)` says whether record `p` passes filter `w`. */
module ProfessionalList {
  import opened Domain
  import opened Strings
  import opened ReadSide
  import opened StatusCounts

  /** `recruiterId`: absent, `null` (no recruiter), or an id ("" counts as absent). */
  datatype RecruiterFilter = AnyRecruiter | NoRecruiter | RecruiterIs(id: string)

  datatype ListStatus = NotActive | ActivatedStatus | IssuesStatus | ActiveStatus | LicensedStatus | CompletedStatus

  /** `search.specialty`: absent, a prefix, or a list of exact names. */
  datatype Specialty = AnySpecialty | SpecialtyPrefix(text: string) | SpecialtyIn(names: seq<string>)

  datatype ThirdPartyFilter = ThirdPartyFilter(systemId: string, organizationId: string)

  /** The advanced search object; "" stands for an absent text field. */
  datatype AdvancedSearch = AdvancedSearch(
    text: Option<string>, firstName: string, lastName: string, email: string, city: string,
    state: string, zip: string, licenseBody: string, licenseNumber: string, licenseType: string,
    specialty: Specialty, certification: string, additionalCertification: string,
    thirdPartySystem: Option<ThirdPartyFilter>)

  datatype Search = NoSearch | TextSearch(text: string) | Advanced(fields: AdvancedSearch)

  /** The listing request; "" stands for an absent id or profession, and
      `select` is the projection's keys, when one is given. */
  datatype ListOptions = ListOptions(
    profession: string, organizationId: string, departmentId: string, recruiter: RecruiterFilter,
    isIrp: Option<bool>, isMarketplace: Option<bool>, isDeactivated: Option<bool>, isSuspended: Option<bool>,
    status: Option<ListStatus>, orderBy: string, statusCounts: bool, search: Search,
    select: Option<set<string>>)

  /** A row of the state collection. */
  datatype StateRow = StateRow(name: string, abbr: string)

  // ---------------------------------------------------------------------
  // Filters and what they mean

  /** The record fields the text conditions read. */
  datatype Field =
    | FirstNameField | LastNameField | EmailField | Address1Field | CityField | StateField | ZipField
    | PhoneField | LicenseNumberField | LicenseTypeField | LicenseBodyField | SpecialtyField
    | CertificationField | AdditionalCertificationField

  /** Case-insensitive regular expressions on an escaped text: `^t`, `t`, `^t$`. */
  datatype Pattern = Prefix | Anywhere | Whole

  /** One condition of an `$and` entry. */
  datatype Cond =
    | Like(field: Field, pattern: Pattern, text: string)
    | Equals(field: Field, value: string)
    | IntIdIs(n: int)
    | ThirdPartyIs(systemId: string, organization: string)
    | ActivatedIs(present: bool)
    | LicensedIs(present: bool)
    | SuspendedIs(present: bool)
    | SomeAffiliationSuspended

  /** An entry of the `$and` list: an `$or` of its conditions (a single
      condition is a one-element clause). */
  type Clause = seq<Cond>

  /** The `$elemMatch` on affiliations; `Some(b)` on a date is `{ $exists: b }`. */
  datatype AffiliationWhere = AffiliationWhere(
    organization: Option<string>, department: Option<string>, accepted: Option<bool>,
    recruiter: RecruiterFilter, rejected: Option<bool>, suspended: Option<bool>)

  const NoAffiliationCriteria := AffiliationWhere(None, None, None, AnyRecruiter, None, None)

  /** The `where` object; `{ userType: Nurse }` is always part of it. */
  datatype Where = Where(
    profession: Option<string>, isMarketplace: Option<bool>, deactivated: Option<bool>,
    suspended: Option<bool>, activated: Option<bool>, licensed: Option<bool>, completed: Option<bool>,
    affiliations: Option<AffiliationWhere>, and: seq<Clause>)

  const NursesOnly := Where(None, None, None, None, None, None, None, None, [])

  predicate ExistsAs(criterion: Option<bool>, present: bool)
  {
    criterion.None? || criterion.value == present
  }

  function LicenseValues(ls: seq<License>, f: Field): seq<string>
  {
    if |ls| == 0 then []
    else
      var l := ls[|ls| - 1];
      LicenseValues(ls[..|ls| - 1], f)
      + (if f == LicenseNumberField then [l.licenseNumber]
         else if f == LicenseTypeField then [l.licenseType]
         else [l.licenseBody])
  }

  function CertificationNames(cs: seq<Certification>): seq<string>
  {
    if |cs| == 0 then [] else CertificationNames(cs[..|cs| - 1]) + [cs[|cs| - 1].name]
  }

  /** The `name` of each item that has one. */
  function ItemNames(items: seq<BriefcaseItem>): seq<string>
  {
    if |items| == 0 then []
    else
      var it := items[|items| - 1];
      ItemNames(items[..|items| - 1]) + (if "name" in it.fields then [it.fields["name"]] else [])
  }

  /** The values a field path reaches in a record (arrays reach every element). */
  function FieldValues(p: Professional, f: Field): seq<string>
  {
    match f
    case FirstNameField => [p.firstName]
    case LastNameField => [p.lastName]
    case EmailField => [p.email]
    case PhoneField => [p.phoneNumber]
    case Address1Field => if p.address.Some? then [p.address.value.address1] else []
    case CityField => if p.address.Some? then [p.address.value.city] else []
    case StateField => if p.address.Some? then [p.address.value.state] else []
    case ZipField => if p.address.Some? then [p.address.value.zip] else []
    case LicenseNumberField => if p.briefcase.Some? then LicenseValues(p.briefcase.value.licenses, f) else []
    case LicenseTypeField => if p.briefcase.Some? then LicenseValues(p.briefcase.value.licenses, f) else []
    case LicenseBodyField => if p.briefcase.Some? then LicenseValues(p.briefcase.value.licenses, f) else []
    case SpecialtyField => if p.briefcase.Some? then p.briefcase.value.specialties else []
    case CertificationField => if p.briefcase.Some? then CertificationNames(p.briefcase.value.certifications) else []
    case AdditionalCertificationField =>
      if p.briefcase.Some? then ItemNames(p.briefcase.value.additionalCertifications) else []
  }

  predicate TextMatches(pattern: Pattern, value: string, text: string)
  {
    match pattern
    case Prefix => StartsWith(Lower(value), Lower(text))
    case Anywhere => Contains(Lower(value), Lower(text))
    case Whole => Lower(value) == Lower(text)
  }

  predicate HasLink(a: Affiliation, systemId: string)
  {
    a.thirdPartySystems.Some? && exists l :: l in a.thirdPartySystems.value && l.id == systemId
  }

  predicate CondHolds(c: Cond, p: Professional)
  {
    match c
    case Like(f, pattern, text) => exists v :: v in FieldValues(p, f) && TextMatches(pattern, v, text)
    case Equals(f, value) => value in FieldValues(p, f)
    case IntIdIs(n) => p.intId == n
    // two independent array conditions, not one `$elemMatch`
    case ThirdPartyIs(systemId, organization) =>
      (exists a :: a in AffiliationsOf(p) && HasLink(a, systemId))
      && (exists a :: a in AffiliationsOf(p) && a.organization == organization)
    case ActivatedIs(present) => p.activatedAt.Some? == present
    case LicensedIs(present) => Licensed(p) == present
    case SuspendedIs(present) => p.suspendedAt.Some? == present
    case SomeAffiliationSuspended => exists a :: a in AffiliationsOf(p) && a.suspendedAt.Some?
  }

  predicate ClauseHolds(c: Clause, p: Professional)
  {
    exists k :: 0 <= k < |c| && CondHolds(c[k], p)
  }

  predicate AffiliationMatches(w: AffiliationWhere, a: Affiliation)
  {
    (w.organization.None? || a.organization == w.organization.value)
    && (w.department.None? || a.department == w.department)
    && ExistsAs(w.accepted, a.acceptedAt.Some?)
    && (match w.recruiter
        case AnyRecruiter => true
        case NoRecruiter => a.recruiter.None?
        case RecruiterIs(id) => a.recruiter == Some(RecruiterRef(id)))
    && ExistsAs(w.rejected, a.rejectedAt.Some?)
    && ExistsAs(w.suspended, a.suspendedAt.Some?)
  }

  /** Whether a record passes a filter. */
  predicate Matches(w: Where, p: Professional)
  {
    p.userType == Nurse
    && (w.profession.None? || p.profession == w.profession.value)
    && (w.isMarketplace.None? || p.isMarketplace == w.isMarketplace)
    && ExistsAs(w.deactivated, p.deactivatedAt.Some?)
    && ExistsAs(w.suspended, p.suspendedAt.Some?)
    && ExistsAs(w.activated, p.activatedAt.Some?)
    && ExistsAs(w.licensed, Licensed(p))
    && ExistsAs(w.completed, Completed(p))
    && (w.affiliations.None? || exists a :: a in AffiliationsOf(p) && AffiliationMatches(w.affiliations.value, a))
    && forall k :: 0 <= k < |w.and| ==> ClauseHolds(w.and[k], p)
  }

  // ---------------------------------------------------------------------
  // The criteria taken from the request

  /** The organization the listing is scoped to: a hospital acting user's
      own, whatever was asked; one without an organization fails. */
  function ScopedOrganization(opts: ListOptions, su: SessionUser): (r: Result<string>)
    ensures su.isHospitalUser ==> (r.Ok? <==> su.organization.Some?)
    ensures su.isHospitalUser && r.Ok? ==> r.value == su.organization.value.id
    ensures !su.isHospitalUser ==> r == Ok(opts.organizationId)
    ensures r.Err? ==> r.error == TypeError
  {
    if su.isHospitalUser then
      if su.organization.None? then Err(TypeError) else Ok(su.organization.value.id)
    else Ok(opts.organizationId)
  }

  /** The affiliation criteria of the request, for the scoped organization. */
  function AffiliationCriteria(opts: ListOptions, organization: string): AffiliationWhere
  {
    AffiliationWhere(
      if organization != "" then Some(organization) else None,
      if opts.departmentId != "" then Some(opts.departmentId) else None,
      opts.isIrp,
      if opts.recruiter == RecruiterIs("") then AnyRecruiter else opts.recruiter,
      None, None)
  }

  predicate HasCriteria(w: AffiliationWhere)
  {
    w != NoAffiliationCriteria
  }

  /** The record criteria of the request. */
  function RecordCriteria(opts: ListOptions): Where
  {
    NursesOnly.(profession := if opts.profession != "" then Some(opts.profession) else None,
                isMarketplace := opts.isMarketplace, deactivated := opts.isDeactivated,
                suspended := opts.isSuspended)
  }

  /** Whether the projection names the affiliations. */
  predicate SelectsAffiliations(select: Option<set<string>>)
  {
    select.Some? && exists k :: k in select.value && (k == "affiliations" || StartsWith(k, "affiliations."))
  }

  // ---------------------------------------------------------------------
  // Search

  function LowerAll(xs: seq<string>): (r: seq<string>)
    ensures |r| == |xs|
    ensures forall i :: 0 <= i < |xs| ==> r[i] == Lower(xs[i])
  {
    if |xs| == 0 then [] else LowerAll(xs[..|xs| - 1]) + [Lower(xs[|xs| - 1])]
  }

  /** `text.split(' ').filter(Boolean)`, each term lower-cased. */
  function Terms(text: string): seq<string>
  {
    LowerAll(NonEmpty(Split(text, ' ')))
  }

  /** The abbreviations of the states whose name starts with the text, ignoring case. */
  function AbbreviationsNamed(table: seq<StateRow>, text: string): (abbrs: seq<string>)
    ensures |abbrs| <= |table|
  {
    if |table| == 0 then []
    else
      var row := table[|table| - 1];
      AbbreviationsNamed(table[..|table| - 1], text)
      + (if StartsWith(Lower(row.name), Lower(text)) then [row.abbr] else [])
  }

  /** `.filter((v, i, a) => a.indexOf(v) === i)`: the first occurrence of each value, in order. */
  function Distinct(xs: seq<string>): (ds: seq<string>)
    ensures forall v :: v in ds ==> v in xs
  {
    if |xs| == 0 then []
    else
      var n := |xs| - 1;
      Distinct(xs[..n]) + (if xs[n] in xs[..n] then [] else [xs[n]])
  }

  /** The state candidates of a text: its upper-cased form, then the
      abbreviations of the states named like it. */
  function StateCandidates(text: string, table: seq<StateRow>): seq<string>
  {
    [Upper(text)] + AbbreviationsNamed(table, text)
  }

  function StateConds(abbrs: seq<string>): (cs: seq<Cond>)
    ensures |cs| == |abbrs|
    ensures forall i :: 0 <= i < |abbrs| ==> cs[i] == Equals(StateField, abbrs[i])
  {
    if |abbrs| == 0 then [] else StateConds(abbrs[..|abbrs| - 1]) + [Equals(StateField, abbrs[|abbrs| - 1])]
  }

  /** The conditions every term is tried against. */
  function TextConds(term: string): Clause
  {
    [Like(FirstNameField, Prefix, term), Like(LastNameField, Prefix, term), Like(EmailField, Prefix, term),
     Like(Address1Field, Anywhere, term), Like(CityField, Prefix, term),
     Like(LicenseNumberField, Whole, term), Like(LicenseTypeField, Whole, term)]
  }

  /** The conditions an integer term is tried against as well. */
  function NumberConds(term: string): Clause
    requires IsInteger(term)
  {
    [Like(PhoneField, Whole, term), IntIdIs(DigitsValue(term)), Equals(ZipField, term)]
  }

  /** The one `$or` a search term adds. */
  function TermClause(term: string, table: seq<StateRow>): Clause
  {
    TextConds(term) + (if IsInteger(term) then NumberConds(term) else [])
    + StateConds(Distinct(StateCandidates(term, table)))
  }

  function TermClauses(terms: seq<string>, table: seq<StateRow>): (cs: seq<Clause>)
    ensures |cs| == |terms|
    ensures forall i :: 0 <= i < |terms| ==> cs[i] == TermClause(terms[i], table)
  {
    if |terms| == 0 then [] else TermClauses(terms[..|terms| - 1], table) + [TermClause(terms[|terms| - 1], table)]
  }

  /** The free text of a search: the search string itself (when non-empty)
      or the `text` of the advanced search. */
  function TextOf(search: Search): Option<string>
  {
    match search
    case NoSearch => None
    case TextSearch(t) => if t != "" then Some(t) else None
    case Advanced(a) => a.text
  }

  function SpecialtyConds(names: seq<string>): (cs: seq<Cond>)
    ensures |cs| == |names|
  {
    if |names| == 0 then [] else SpecialtyConds(names[..|names| - 1]) + [Like(SpecialtyField, Whole, names[|names| - 1])]
  }

  function SpecialtyClauses(s: Specialty): seq<Clause>
  {
    match s
    case AnySpecialty => []
    case SpecialtyPrefix(t) => [[Like(SpecialtyField, Prefix, t)]]
    case SpecialtyIn(names) => if |names| > 0 then [SpecialtyConds(names)] else []
  }

  /** A one-condition clause when the field was given. */
  function When(given: bool, c: Cond): seq<Clause>
  {
    if given then [[c]] else []
  }

  /** The name, email and city fields. */
  function PersonClauses(a: AdvancedSearch): seq<Clause>
  {
    When(a.firstName != "", Like(FirstNameField, Prefix, a.firstName))
    + When(a.lastName != "", Like(LastNameField, Prefix, a.lastName))
    + When(a.email != "", Like(EmailField, Prefix, a.email))
    + When(a.city != "", Like(CityField, Prefix, a.city))
  }

  /** The state (an `$or` of its candidate abbreviations) and the zip, taken only when it is an integer. */
  function PlaceClauses(a: AdvancedSearch, table: seq<StateRow>): seq<Clause>
  {
    (if a.state != "" then [StateConds(Distinct(StateCandidates(a.state, table)))] else [])
    + When(a.zip != "" && IsInteger(a.zip), Equals(ZipField, a.zip))
  }

  /** The specialty, certification, additional certification and third-party system fields. */
  function ItemClauses(a: AdvancedSearch): seq<Clause>
  {
    SpecialtyClauses(a.specialty)
    + When(a.certification != "", Like(CertificationField, Whole, a.certification))
    + When(a.additionalCertification != "", Like(AdditionalCertificationField, Whole, a.additionalCertification))
    + (if a.thirdPartySystem.Some?
       then [[ThirdPartyIs(a.thirdPartySystem.value.systemId, a.thirdPartySystem.value.organizationId)]] else [])
  }

  /** The clauses of the advanced search fields, in the order they are pushed. */
  function AdvancedClauses(a: AdvancedSearch, table: seq<StateRow>): seq<Clause>
  {
    PersonClauses(a) + PlaceClauses(a, table)
    + When(a.licenseBody != "", Like(LicenseBodyField, Whole, a.licenseBody))
    + When(a.licenseNumber != "", Like(LicenseNumberField, Whole, a.licenseNumber))
    + When(a.licenseType != "", Like(LicenseTypeField, Whole, a.licenseType))
    + ItemClauses(a)
  }

  /** Every clause of the search, the term clauses first. */
  function SearchClauses(search: Search, table: seq<StateRow>): seq<Clause>
  {
    (if TextOf(search).Some? then TermClauses(Terms(TextOf(search).value), table) else [])
    + (if search.Advanced? then AdvancedClauses(search.fields, table) else [])
  }

  // ---------------------------------------------------------------------
  // The status clause and the order

  const IssuesClause: Clause := [ActivatedIs(false), LicensedIs(false), SuspendedIs(true), SomeAffiliationSuspended]

  /** The status clause added to a filter. ACTIVE writes into the affiliation
      `$elemMatch`, which is undefined without an affiliation criterion. */
  function WithStatus(w: Where, status: Option<ListStatus>): Result<Where>
  {
    match status
    case None => Ok(w)
    case Some(NotActive) => Ok(w.(activated := Some(false)))
    case Some(ActivatedStatus) => Ok(w.(activated := Some(true), licensed := Some(false)))
    case Some(IssuesStatus) => Ok(w.(and := w.and + [IssuesClause]))
    case Some(ActiveStatus) =>
      if w.affiliations.None? then Err(TypeError)
      else Ok(w.(activated := Some(true), suspended := Some(false), licensed := Some(true),
                 affiliations := Some(w.affiliations.value.(suspended := Some(false)))))
    case Some(LicensedStatus) => Ok(w.(activated := Some(true), licensed := Some(true), completed := Some(false)))
    case Some(CompletedStatus) => Ok(w.(activated := Some(true), licensed := Some(true), completed := Some(true)))
  }

  datatype SortKey = SortKey(field: string, direction: int)

  function Directed(fields: seq<string>, direction: int): (keys: seq<SortKey>)
    ensures |keys| == |fields|
    ensures forall i :: 0 <= i < |fields| ==> keys[i] == SortKey(fields[i], direction)
  {
    if |fields| == 0 then [] else Directed(fields[..|fields| - 1], direction) + [SortKey(fields[|fields| - 1], direction)]
  }

  const StatusFields := ["suspendedAt", "briefcase.completedAt", "briefcase.licensedAt", "activatedAt", "lastName", "firstName"]
  const NameFields := ["lastName", "firstName"]
  const LicenseTypeFields := ["briefcase.licenses.0.licenseType"]

  /** The `orderBy` switch; anything else keeps `{ intId: -1 }`. */
  function OrderOf(orderBy: string): (keys: seq<SortKey>)
  {
    if orderBy == "intId" then Directed(["intId"], 1)
    else if orderBy == "!intId" then Directed(["intId"], -1)
    else if orderBy == "status" then Directed(StatusFields, 1)
    else if orderBy == "!status" then Directed(StatusFields, -1)
    else if orderBy == "name" then Directed(NameFields, 1)
    else if orderBy == "!name" then Directed(NameFields, -1)
    else if orderBy == "phoneNumber" then Directed(["phoneNumber"], 1)
    else if orderBy == "!phoneNumber" then Directed(["phoneNumber"], -1)
    else if orderBy == "email" then Directed(["email"], 1)
    else if orderBy == "!email" then Directed(["email"], -1)
    else if orderBy == "licenseType" then Directed(LicenseTypeFields, 1)
    else if orderBy == "!licenseType" then Directed(LicenseTypeFields, -1)
    else [SortKey("intId", -1)]
  }

  // ---------------------------------------------------------------------
  // The query

  /** Which affiliations the listing shows: all of them, or (when the
      projection names them) the live ones, of the scope organization if given. */
  datatype AffiliationView = AllAffiliations | KeptOnly(scope: Option<string>)

  datatype Query = Query(
    where: Where, countWhere: Where, order: seq<SortKey>, view: AffiliationView,
    organization: string, withCounts: bool)

  /** The query of a listing request, for the acting user `sessionUser`
      (None when it was not found) and the state collection `table`. */
  function ListQuery(opts: ListOptions, sessionUser: Option<SessionUser>, table: seq<StateRow>): (r: Result<Query>)
  {
    if sessionUser.None? then Err(UserNotFound)
    else
      var su := sessionUser.value;
      match ScopedOrganization(opts, su)
      case Err(e) => Err(e)
      case Ok(org) =>
        var criteria := AffiliationCriteria(opts, org);
        var base := RecordCriteria(opts).(and := SearchClauses(opts.search, table));
        var countWhere := if HasCriteria(criteria) then base.(affiliations := Some(criteria.(rejected := Some(false)))) else base;
        var view := if SelectsAffiliations(opts.select) then KeptOnly(if su.isHospitalUser then Some(org) else None) else AllAffiliations;
        match WithStatus(countWhere, opts.status)
        case Err(e) => Err(e)
        case Ok(where) => Ok(Query(where, countWhere, OrderOf(opts.orderBy), view, org, opts.statusCounts && org != ""))
  }

  /** The clauses of one term's state candidates, each abbreviation once. */
  method StateConditions(candidates: seq<string>) returns (conds: seq<Cond>)
    ensures conds == StateConds(Distinct(candidates))
  {
    conds := [];
    var i := 0;
    while i < |candidates|
      invariant 0 <= i <= |candidates|
      invariant conds == StateConds(Distinct(candidates[..i]))
    {
      conds := StateConditionStep(candidates, i, conds);
      i := i + 1;
    }
    assert candidates[..i] == candidates;
  }

  /** One pass of the state candidates loop: a clause for a new abbreviation. */
  method StateConditionStep(candidates: seq<string>, i: int, conds: seq<Cond>) returns (next: seq<Cond>)
    requires 0 <= i < |candidates|
    requires conds == StateConds(Distinct(candidates[..i]))
    ensures next == StateConds(Distinct(candidates[..i + 1]))
  {
    DistinctStep(candidates, i);
    if candidates[i] !in candidates[..i] {
      StateCondsStep(Distinct(candidates[..i]), candidates[i]);
      next := conds + [Equals(StateField, candidates[i])];
    } else {
      next := conds;
    }
  }

  /** One more candidate extends the distinct list only when it is new. */
  lemma DistinctStep(xs: seq<string>, i: int)
    requires 0 <= i < |xs|
    ensures Distinct(xs[..i + 1]) == Distinct(xs[..i]) + (if xs[i] in xs[..i] then [] else [xs[i]])
  {
    assert xs[..i + 1][..i] == xs[..i];
  }

  /** One more abbreviation appends its clause. */
  lemma StateCondsStep(d: seq<string>, abbr: string)
    ensures StateConds(d + [abbr]) == StateConds(d) + [Equals(StateField, abbr)]
  {
    assert (d + [abbr])[..|d|] == d;
  }

  /** The per-term loop: one `$or` per term. */
  method SearchTermClauses(text: string, table: seq<StateRow>) returns (clauses: seq<Clause>)
    ensures clauses == TermClauses(Terms(text), table)
  {
    var terms := Terms(text);
    clauses := [];
    var i := 0;
    while i < |terms|
      invariant 0 <= i <= |terms|
      invariant clauses == TermClauses(terms[..i], table)
    {
      var or := TermConditions(terms[i], table);
      clauses := clauses + [or];
      assert terms[..i + 1][..i] == terms[..i];
      i := i + 1;
    }
    assert terms[..i] == terms;
  }

  /** The `$or` of one term, built as the loop body builds it. */
  method TermConditions(term: string, table: seq<StateRow>) returns (or: Clause)
    ensures or == TermClause(term, table)
  {
    or := TextConds(term);
    if IsInteger(term) {
      or := or + NumberConds(term);
    } else {
      or := or + [];
    }
    var states := StateConditions(StateCandidates(term, table));
    or := or + states;
  }

  /** The specialty names loop. */
  method SpecialtyConditions(names: seq<string>) returns (conds: seq<Cond>)
    ensures conds == SpecialtyConds(names)
  {
    conds := [];
    var i := 0;
    while i < |names|
      invariant 0 <= i <= |names|
      invariant conds == SpecialtyConds(names[..i])
    {
      conds := conds + [Like(SpecialtyField, Whole, names[i])];
      assert names[..i + 1][..i] == names[..i];
      i := i + 1;
    }
    assert names[..i] == names;
  }

  method PlaceConditions(a: AdvancedSearch, table: seq<StateRow>) returns (and: seq<Clause>)
    ensures and == PlaceClauses(a, table)
  {
    and := [];
    if a.state != "" {
      var or := StateConditions(StateCandidates(a.state, table));
      and := [or];
    }
    and := and + When(a.zip != "" && IsInteger(a.zip), Equals(ZipField, a.zip));
  }

  method ItemConditions(a: AdvancedSearch) returns (and: seq<Clause>)
    ensures and == ItemClauses(a)
  {
    and := [];
    match a.specialty {
      case AnySpecialty =>
      case SpecialtyPrefix(t) => and := [[Like(SpecialtyField, Prefix, t)]];
      case SpecialtyIn(names) =>
        if |names| > 0 {
          var or := SpecialtyConditions(names);
          and := [or];
        }
    }
    and := and + When(a.certification != "", Like(CertificationField, Whole, a.certification));
    and := and + When(a.additionalCertification != "", Like(AdditionalCertificationField, Whole, a.additionalCertification));
    if a.thirdPartySystem.Some? {
      and := and + [[ThirdPartyIs(a.thirdPartySystem.value.systemId, a.thirdPartySystem.value.organizationId)]];
    }
  }

  /** The advanced search fields, pushed one after the other. */
  method AdvancedSearchClauses(a: AdvancedSearch, table: seq<StateRow>) returns (and: seq<Clause>)
    ensures and == AdvancedClauses(a, table)
  {
    and := When(a.firstName != "", Like(FirstNameField, Prefix, a.firstName));
    and := and + When(a.lastName != "", Like(LastNameField, Prefix, a.lastName));
    and := and + When(a.email != "", Like(EmailField, Prefix, a.email));
    and := and + When(a.city != "", Like(CityField, Prefix, a.city));
    var place := PlaceConditions(a, table);
    and := and + place;
    and := and + When(a.licenseBody != "", Like(LicenseBodyField, Whole, a.licenseBody));
    and := and + When(a.licenseNumber != "", Like(LicenseNumberField, Whole, a.licenseNumber));
    and := and + When(a.licenseType != "", Like(LicenseTypeField, Whole, a.licenseType));
    var items := ItemConditions(a);
    and := and + items;
  }

  /** The search block: the free-text terms, then the advanced fields. */
  method SearchConditions(search: Search, table: seq<StateRow>) returns (and: seq<Clause>)
    ensures and == SearchClauses(search, table)
  {
    var terms: seq<Clause> := [];
    var text := TextOf(search);
    if text.Some? {
      terms := SearchTermClauses(text.value, table);
    }
    var advanced: seq<Clause> := [];
    if search.Advanced? {
      advanced := AdvancedSearchClauses(search.fields, table);
    }
    and := terms + advanced;
  }

  /** The affiliation criteria, set one by one. */
  method AffiliationConditions(opts: ListOptions, organizationId: string) returns (aff: AffiliationWhere)
    ensures aff == AffiliationCriteria(opts, organizationId)
  {
    aff := NoAffiliationCriteria;
    if organizationId != "" {
      aff := aff.(organization := Some(organizationId));
    }
    if opts.departmentId != "" {
      aff := aff.(department := Some(opts.departmentId));
    }
    if opts.isIrp.Some? {
      aff := aff.(accepted := opts.isIrp);
    }
    if opts.recruiter.NoRecruiter? {
      aff := aff.(recruiter := NoRecruiter);
    } else if opts.recruiter.RecruiterIs? && opts.recruiter.id != "" {
      aff := aff.(recruiter := opts.recruiter);
    }
  }

  /** A criterion already set to the opposite of `wanted`. */
  predicate Contradicts(current: Option<bool>, wanted: bool)
  {
    current.Some? && current.value != wanted
  }

  /** The record criteria, set one by one; `noResults` is raised when the
      suspension criterion would contradict one already set, and none is. */
  method RecordConditions(opts: ListOptions) returns (where: Where, noResults: bool)
    ensures where == RecordCriteria(opts)
    ensures !noResults
  {
    noResults := false;
    where := NursesOnly;
    if opts.profession != "" {
      where := where.(profession := Some(opts.profession));
    }
    if opts.isMarketplace.Some? {
      where := where.(isMarketplace := opts.isMarketplace);
    }
    if opts.isDeactivated.Some? {
      where := where.(deactivated := opts.isDeactivated);
    }
    if opts.isSuspended.Some? {
      if Contradicts(where.suspended, opts.isSuspended.value) {
        noResults := true;
      }
      where := where.(suspended := opts.isSuspended);
    }
  }

  /** The status switch, then `where.$and = and`. */
  method ApplyStatus(w: Where, and: seq<Clause>, status: Option<ListStatus>) returns (r: Result<Where>)
    ensures r == WithStatus(w.(and := and), status)
  {
    var where := w;
    var and := and;
    match status {
      case None =>
      case Some(NotActive) =>
        where := where.(activated := Some(false));
      case Some(ActivatedStatus) =>
        where := where.(activated := Some(true));
        where := where.(licensed := Some(false));
      case Some(IssuesStatus) =>
        and := and + [IssuesClause];
      case Some(ActiveStatus) =>
        where := where.(activated := Some(true));
        where := where.(suspended := Some(false));
        where := where.(licensed := Some(true));
        if where.affiliations.None? {
          return Err(TypeError);
        }
        where := where.(affiliations := Some(where.affiliations.value.(suspended := Some(false))));
      case Some(LicensedStatus) =>
        where := where.(activated := Some(true));
        where := where.(licensed := Some(true));
        where := where.(completed := Some(false));
      case Some(CompletedStatus) =>
        where := where.(activated := Some(true));
        where := where.(licensed := Some(true));
        where := where.(completed := Some(true));
    }
    r := Ok(where.(and := and));
  }

  /** The construction as the source runs it: the filter, the affiliation
      criteria and the `$and` list are changed block by block. `noResults` is
      the source's early-out flag, which nothing can raise. */
  method BuildListQuery(opts: ListOptions, sessionUser: Option<SessionUser>, table: seq<StateRow>)
    returns (r: Result<Query>, noResults: bool)
    ensures r == ListQuery(opts, sessionUser, table)
    ensures !noResults
  {
    noResults := false;
    if sessionUser.None? {
      return Err(UserNotFound), noResults;
    }
    var su := sessionUser.value;
    var organizationId := opts.organizationId;
    if su.isHospitalUser {
      if su.organization.None? {
        return Err(TypeError), noResults;
      }
      organizationId := su.organization.value.id;
    }
    var aff := AffiliationConditions(opts, organizationId);
    var where;
    where, noResults := RecordConditions(opts);
    var view := AllAffiliations;
    if SelectsAffiliations(opts.select) {
      view := KeptOnly(if su.isHospitalUser then Some(organizationId) else None);
    }
    var and := SearchConditions(opts.search, table);
    if aff != NoAffiliationCriteria {
      aff := aff.(rejected := Some(false));
      where := where.(affiliations := Some(aff));
    }
    var countWhere := where.(and := and);
    var status := ApplyStatus(where, and, opts.status);
    if status.Err? {
      return Err(status.error), noResults;
    }
    r := Ok(Query(status.value, countWhere, OrderOf(opts.orderBy), view, organizationId, opts.statusCounts && organizationId != ""));
  }

  // ---------------------------------------------------------------------
  // The answer

  datatype ListResponse = ListResponse(list: seq<Professional>, count: nat, counts: Option<ListCounts>)

  /** The records of the collection that pass a filter, in collection order. */
  function MatchingRecords(records: seq<Professional>, w: Where): (ms: seq<Professional>)
    ensures |ms| <= |records|
  {
    if |records| == 0 then []
    else
      var p := records[|records| - 1];
      MatchingRecords(records[..|records| - 1], w) + (if Matches(w, p) then [p] else [])
  }

  /** A listed record as the affiliation view shows it: every affiliation,
      or exactly the live ones in the view's scope, in their order. */
  function Shown(p: Professional, view: AffiliationView): (r: Professional)
    ensures r == p.(affiliations := r.affiliations)
    ensures r.affiliations.Some? <==> p.affiliations.Some?
    ensures view.AllAffiliations? ==> r == p
    ensures view.KeptOnly? && r.affiliations.Some? ==> r.affiliations.value == Kept(p.affiliations.value, view.scope)
    ensures view.KeptOnly? && r.affiliations.Some? ==>
      forall a :: a in r.affiliations.value <==>
        (a in p.affiliations.value && a.rejectedAt.None? && (view.scope.Some? ==> a.organization == view.scope.value))
  {
    match view
    case AllAffiliations => p
    case KeptOnly(scope) =>
      if p.affiliations.Some? then
        var kept := Kept(p.affiliations.value, scope);
        assert forall a :: a in kept <==>
          (a in p.affiliations.value && a.rejectedAt.None? && (scope.Some? ==> a.organization == scope.value)) by {
          forall a ensures a in kept <==>
            (a in p.affiliations.value && a.rejectedAt.None? && (scope.Some? ==> a.organization == scope.value)) {
            KeptExact(p.affiliations.value, scope, a);
          }
        }
        p.(affiliations := Some(kept))
      else p
  }

  function ShownAll(ps: seq<Professional>, view: AffiliationView): (rs: seq<Professional>)
    ensures |rs| == |ps|
    ensures forall i :: 0 <= i < |ps| ==> rs[i] == Shown(ps[i], view)
  {
    if |ps| == 0 then [] else ShownAll(ps[..|ps| - 1], view) + [Shown(ps[|ps| - 1], view)]
  }

  function AllWithLicenseStates(ps: seq<Professional>, lookup: map<string, string>): (rs: seq<Professional>)
    ensures |rs| == |ps|
    ensures forall i :: 0 <= i < |ps| ==> rs[i] == WithLicenseStates(ps[i], lookup)
  {
    if |ps| == 0 then [] else AllWithLicenseStates(ps[..|ps| - 1], lookup) + [WithLicenseStates(ps[|ps| - 1], lookup)]
  }

  /** The answer to query `q` over the professional collection `records`,
      with `lookup` the state of each license body. Reading the projection's
      license key fails when no projection was given and something was found. */
  function Answer(q: Query, select: Option<set<string>>, records: seq<Professional>, lookup: map<string, string>)
    : (r: Result<ListResponse>)
  {
    var found := MatchingRecords(records, q.where);
    var list := ShownAll(found, q.view);
    var counts := if q.withCounts then Some(GetCounts(MatchingRecords(records, q.countWhere), q.organization)) else None;
    if |list| > 0 && select.None? then Err(TypeError)
    else if |list| > 0 && "briefcase.licenses" in select.value
    then Ok(ListResponse(AllWithLicenseStates(list, lookup), |found|, counts))
    else Ok(ListResponse(list, |found|, counts))
  }

  /** The listing: its query, then the answer to it. */
  function ListOutcome(opts: ListOptions, sessionUser: Option<SessionUser>, table: seq<StateRow>,
                       records: seq<Professional>, lookup: map<string, string>): (r: Result<ListResponse>)
  {
    match ListQuery(opts, sessionUser, table)
    case Err(e) => Err(e)
    case Ok(q) => Answer(q, opts.select, records, lookup)
  }

  /** The loop over the listed records setting each license's state. */
  method FillListLicenseStates(list: seq<Professional>, lookup: map<string, string>) returns (out: seq<Professional>)
    ensures out == AllWithLicenseStates(list, lookup)
  {
    out := list;
    var i := 0;
    while i < |out|
      invariant 0 <= i <= |out| == |list|
      invariant forall j :: 0 <= j < i ==> out[j] == WithLicenseStates(list[j], lookup)
      invariant forall j :: i <= j < |out| ==> out[j] == list[j]
    {
      var item := FillLicenseStates(out[i], lookup);
      out := out[i := item];
      i := i + 1;
    }
  }

  /** The listing as the source runs it: the query, then (unless `noResults`)
      the list, the count and the status counts, then the license states. */
  method ListProfessionals(opts: ListOptions, sessionUser: Option<SessionUser>, table: seq<StateRow>,
                           records: seq<Professional>, lookup: map<string, string>)
    returns (r: Result<ListResponse>)
    ensures r == ListOutcome(opts, sessionUser, table, records, lookup)
  {
    var query, noResults := BuildListQuery(opts, sessionUser, table);
    if query.Err? {
      return Err(query.error);
    }
    var q := query.value;
    var list: seq<Professional> := [];
    var count := 0;
    var counts: Option<ListCounts> := None;
    if !noResults {
      var found := MatchingRecords(records, q.where);
      list := ShownAll(found, q.view);
      count := |found|;
      if q.withCounts {
        counts := Some(GetCounts(MatchingRecords(records, q.countWhere), q.organization));
      }
      if |list| > 0 && opts.select.None? {
        return Err(TypeError);
      }
      if |list| > 0 && "briefcase.licenses" in opts.select.value {
        list := FillListLicenseStates(list, lookup);
      }
    }
    r := Ok(ListResponse(list, count, counts));
  }
}
