/** What the listing's query means (src/list/list.ts): the organization it is
    scoped to, the live affiliation it demands, what each status selects,
    the order names, and what a search term finds. */
module ListRules {
  import opened Domain
  import opened Strings
  import opened ReadSide
  import opened StatusCounts
  import opened ProfessionalList

  // ---------------------------------------------------------------------
  // Scope and affiliation criteria

  /** The status clause leaves the affiliation criteria as they are, except
      for the suspension test ACTIVE adds. */
  lemma StatusKeepsAffiliationCriteria(w: Where, status: Option<ListStatus>)
    requires WithStatus(w, status).Ok?
    ensures var s := WithStatus(w, status).value;
      (s.affiliations.Some? <==> w.affiliations.Some?)
      && (s.affiliations.Some? ==> s.affiliations.value == w.affiliations.value.(suspended := s.affiliations.value.suspended))
      && s.and[..|w.and|] == w.and
  {
  }

  /** With any affiliation criterion, the counted and the listed records are
      exactly those with a non-rejected affiliation meeting it; without one,
      the count filter tests no affiliation at all. */
  lemma LiveAffiliationRequired(opts: ListOptions, su: SessionUser, table: seq<StateRow>, p: Professional)
    requires ListQuery(opts, Some(su), table).Ok?
    ensures var q := ListQuery(opts, Some(su), table).value;
      var criteria := AffiliationCriteria(opts, q.organization);
      (q.countWhere.affiliations.Some? <==> HasCriteria(criteria))
      && (HasCriteria(criteria) && (Matches(q.where, p) || Matches(q.countWhere, p)) ==>
            exists a :: a in AffiliationsOf(p) && a.rejectedAt.None? && AffiliationMatches(criteria, a))
  {
    var q := ListQuery(opts, Some(su), table).value;
    var criteria := AffiliationCriteria(opts, q.organization);
    StatusKeepsAffiliationCriteria(q.countWhere, opts.status);
    if HasCriteria(criteria) && Matches(q.where, p) {
      var a :| a in AffiliationsOf(p) && AffiliationMatches(q.where.affiliations.value, a);
      assert AffiliationMatches(criteria, a);
    }
    if HasCriteria(criteria) && Matches(q.countWhere, p) {
      var a :| a in AffiliationsOf(p) && AffiliationMatches(q.countWhere.affiliations.value, a);
      assert AffiliationMatches(criteria, a);
    }
  }

  /** A hospital user's listing is scoped to their own organization whatever
      organization the request names: everything it lists or counts has a
      live affiliation to it, and the affiliations it shows are theirs. */
  lemma HospitalListIsScoped(opts: ListOptions, su: SessionUser, table: seq<StateRow>, other: string, p: Professional)
    requires su.isHospitalUser && su.organization.Some? && su.organization.value.id != ""
    requires ListQuery(opts, Some(su), table).Ok?
    ensures var q := ListQuery(opts, Some(su), table).value;
      q.organization == su.organization.value.id
      && ListQuery(opts.(organizationId := other), Some(su), table) == ListQuery(opts, Some(su), table)
      && (Matches(q.where, p) || Matches(q.countWhere, p) ==>
            exists a :: a in AffiliationsOf(p) && a.rejectedAt.None? && a.organization == q.organization)
      && (SelectsAffiliations(opts.select) ==> q.view == KeptOnly(Some(q.organization)))
  {
    var q := ListQuery(opts, Some(su), table).value;
    LiveAffiliationRequired(opts, su, table, p);
    assert HasCriteria(AffiliationCriteria(opts, q.organization));
  }

  /** Any other acting user lists the organization the request names, and a
      request naming none is not scoped to an organization and has no counts. */
  lemma OtherUsersChooseOrganization(opts: ListOptions, su: SessionUser, table: seq<StateRow>)
    requires !su.isHospitalUser
    requires ListQuery(opts, Some(su), table).Ok?
    ensures var q := ListQuery(opts, Some(su), table).value;
      q.organization == opts.organizationId
      && (opts.organizationId == "" ==> !q.withCounts && (SelectsAffiliations(opts.select) ==> q.view == KeptOnly(None)))
  {
  }

  /** No acting user, no listing. */
  lemma UnknownUserRefused(opts: ListOptions, table: seq<StateRow>, records: seq<Professional>, lookup: map<string, string>)
    ensures ListOutcome(opts, None, table, records, lookup) == Err(UserNotFound)
  {
  }

  // ---------------------------------------------------------------------
  // Status

  /** What each status means on a record. */
  predicate StatusHolds(s: ListStatus, p: Professional)
  {
    match s
    case NotActive => p.activatedAt.None?
    case ActivatedStatus => p.activatedAt.Some? && !Licensed(p)
    case IssuesStatus =>
      p.activatedAt.None? || !Licensed(p) || p.suspendedAt.Some?
      || exists a :: a in AffiliationsOf(p) && a.suspendedAt.Some?
    case ActiveStatus => p.activatedAt.Some? && Licensed(p) && p.suspendedAt.None?
    case LicensedStatus => p.activatedAt.Some? && Licensed(p) && !Completed(p)
    case CompletedStatus => p.activatedAt.Some? && Licensed(p) && Completed(p)
  }

  /** The ISSUES `$or` holds exactly on the records in trouble. */
  lemma IssuesClauseMeaning(p: Professional)
    ensures ClauseHolds(IssuesClause, p) <==> StatusHolds(IssuesStatus, p)
  {
    if ClauseHolds(IssuesClause, p) {
      var k :| 0 <= k < |IssuesClause| && CondHolds(IssuesClause[k], p);
      assert k == 0 || k == 1 || k == 2 || k == 3;
    }
    if StatusHolds(IssuesStatus, p) {
      if p.activatedAt.None? {
        assert CondHolds(IssuesClause[0], p);
      } else if !Licensed(p) {
        assert CondHolds(IssuesClause[1], p);
      } else if p.suspendedAt.Some? {
        assert CondHolds(IssuesClause[2], p);
      } else {
        assert CondHolds(IssuesClause[3], p);
      }
    }
  }

  /** A filter with one more clause matches what the filter and the clause both match. */
  lemma {:induction false} MatchesWithClause(w: Where, c: Clause, p: Professional)
    ensures Matches(w.(and := w.and + [c]), p) <==> Matches(w, p) && ClauseHolds(c, p)
  {
    var and := w.and + [c];
    assert and[|w.and|] == c;
    assert forall k :: 0 <= k < |w.and| ==> and[k] == w.and[k];
  }

  /** Every status but ACTIVE narrows a filter that has no onboarding
      criteria to the records with that status. */
  lemma StatusNarrows(w: Where, s: ListStatus, p: Professional)
    requires w.activated.None? && w.licensed.None? && w.completed.None?
    requires s != ActiveStatus
    ensures WithStatus(w, Some(s)).Ok?
    ensures Matches(WithStatus(w, Some(s)).value, p) <==> Matches(w, p) && StatusHolds(s, p)
  {
    if s == IssuesStatus {
      MatchesWithClause(w, IssuesClause, p);
      IssuesClauseMeaning(p);
    }
  }

  /** ACTIVE replaces the record suspension criterion and asks for an
      affiliation meeting the criteria that is not suspended. */
  lemma ActiveNarrows(w: Where, p: Professional)
    requires w.affiliations.Some? && w.affiliations.value.suspended.None?
    requires w.activated.None? && w.licensed.None?
    ensures WithStatus(w, Some(ActiveStatus)).Ok?
    ensures var a := WithStatus(w, Some(ActiveStatus)).value;
      a.suspended == Some(false)
      && (Matches(a, p) <==>
            Matches(w.(suspended := None), p) && StatusHolds(ActiveStatus, p)
            && exists x :: x in AffiliationsOf(p) && AffiliationMatches(w.affiliations.value, x) && x.suspendedAt.None?)
  {
    var a := WithStatus(w, Some(ActiveStatus)).value;
    if Matches(a, p) {
      var x :| x in AffiliationsOf(p) && AffiliationMatches(a.affiliations.value, x);
      assert AffiliationMatches(w.affiliations.value, x);
    }
    if exists x :: x in AffiliationsOf(p) && AffiliationMatches(w.affiliations.value, x) && x.suspendedAt.None? {
      var x :| x in AffiliationsOf(p) && AffiliationMatches(w.affiliations.value, x) && x.suspendedAt.None?;
      assert AffiliationMatches(a.affiliations.value, x);
    }
  }

  /** The listing's status: none lists what is counted, and every status but
      ACTIVE lists the counted records that have it. */
  lemma StatusMeaning(opts: ListOptions, su: SessionUser, table: seq<StateRow>, p: Professional)
    requires ListQuery(opts, Some(su), table).Ok?
    requires opts.status != Some(ActiveStatus)
    ensures var q := ListQuery(opts, Some(su), table).value;
      (opts.status.None? ==> q.where == q.countWhere)
      && (opts.status.Some? ==> (Matches(q.where, p) <==> Matches(q.countWhere, p) && StatusHolds(opts.status.value, p)))
  {
    var q := ListQuery(opts, Some(su), table).value;
    if opts.status.Some? {
      StatusNarrows(q.countWhere, opts.status.value, p);
    }
  }

  /** ACTIVE lists active records with a live, unsuspended affiliation
      meeting the criteria, whatever suspension the request asked for. */
  lemma ActiveMeaning(opts: ListOptions, su: SessionUser, table: seq<StateRow>, p: Professional)
    requires ListQuery(opts, Some(su), table).Ok?
    requires opts.status == Some(ActiveStatus)
    ensures var q := ListQuery(opts, Some(su), table).value;
      q.where.suspended == Some(false)
      && (Matches(q.where, p) <==>
            Matches(q.countWhere.(suspended := None), p) && StatusHolds(ActiveStatus, p)
            && exists a :: a in AffiliationsOf(p) && a.rejectedAt.None? && a.suspendedAt.None?
                 && AffiliationMatches(AffiliationCriteria(opts, q.organization), a))
  {
    var q := ListQuery(opts, Some(su), table).value;
    var criteria := AffiliationCriteria(opts, q.organization);
    ActiveNarrows(q.countWhere, p);
    assert q.countWhere.affiliations == Some(criteria.(rejected := Some(false)));
    if exists a :: a in AffiliationsOf(p) && AffiliationMatches(q.countWhere.affiliations.value, a) && a.suspendedAt.None? {
      var a :| a in AffiliationsOf(p) && AffiliationMatches(q.countWhere.affiliations.value, a) && a.suspendedAt.None?;
      assert AffiliationMatches(criteria, a);
    }
    if exists a :: a in AffiliationsOf(p) && a.rejectedAt.None? && a.suspendedAt.None? && AffiliationMatches(criteria, a) {
      var a :| a in AffiliationsOf(p) && a.rejectedAt.None? && a.suspendedAt.None? && AffiliationMatches(criteria, a);
      assert AffiliationMatches(q.countWhere.affiliations.value, a);
    }
  }

  /** ACTIVE fails exactly when the request has no affiliation criterion:
      the source writes into an affiliation filter that was never created. */
  lemma ActiveNeedsAffiliationCriterion(opts: ListOptions, su: SessionUser, table: seq<StateRow>)
    requires ScopedOrganization(opts, su).Ok?
    requires opts.status == Some(ActiveStatus)
    ensures var r := ListQuery(opts, Some(su), table);
      (r.Err? <==> !HasCriteria(AffiliationCriteria(opts, ScopedOrganization(opts, su).value)))
      && (r.Err? ==> r.error == TypeError)
  {
  }

  /** The status changes only what is listed: the count filter, the order,
      the view and whether counts are taken do not depend on it. */
  lemma CountsIgnoreStatus(opts: ListOptions, su: SessionUser, table: seq<StateRow>, status: Option<ListStatus>)
    requires ListQuery(opts, Some(su), table).Ok?
    requires ListQuery(opts.(status := status), Some(su), table).Ok?
    ensures var q, q' := ListQuery(opts, Some(su), table).value, ListQuery(opts.(status := status), Some(su), table).value;
      q.countWhere == q'.countWhere && q.order == q'.order && q.view == q'.view
      && q.organization == q'.organization && q.withCounts == q'.withCounts
  {
  }

  // ---------------------------------------------------------------------
  // The order

  /** The names `orderBy` understands; each also comes with a leading `!`. */
  const OrderNames: seq<string> := ["intId", "status", "name", "phoneNumber", "email", "licenseType"]

  /** The same fields, once ascending and once descending. */
  lemma DirectedOpposite(fields: seq<string>)
    ensures var up, down := Directed(fields, 1), Directed(fields, -1);
      |up| == |down| == |fields|
      && forall i :: 0 <= i < |up| ==> up[i].direction == 1 && down[i] == SortKey(up[i].field, -1)
  {
  }

  /** Each name the order understands sorts its keys ascending. */
  lemma AscendingOrders()
    ensures OrderOf("intId") == Directed(["intId"], 1)
    ensures OrderOf("status") == Directed(StatusFields, 1)
    ensures OrderOf("name") == Directed(NameFields, 1)
    ensures OrderOf("phoneNumber") == Directed(["phoneNumber"], 1)
    ensures OrderOf("email") == Directed(["email"], 1)
    ensures OrderOf("licenseType") == Directed(LicenseTypeFields, 1)
  {
  }

  /** The same name with a leading `!` sorts the same keys descending. */
  lemma DescendingOrders()
    ensures OrderOf("!intId") == Directed(["intId"], -1)
    ensures OrderOf("!status") == Directed(StatusFields, -1)
    ensures OrderOf("!name") == Directed(NameFields, -1)
    ensures OrderOf("!phoneNumber") == Directed(["phoneNumber"], -1)
    ensures OrderOf("!email") == Directed(["email"], -1)
    ensures OrderOf("!licenseType") == Directed(LicenseTypeFields, -1)
  {
  }

  /** Any other `orderBy` lists the newest records first. */
  lemma UnknownOrderNewestFirst(orderBy: string)
    requires orderBy !in OrderNames
    requires forall name :: name in OrderNames ==> orderBy != "!" + name
    ensures OrderOf(orderBy) == [SortKey("intId", -1)]
  {
    assert "!" + OrderNames[0] == "!intId";
    assert "!" + OrderNames[1] == "!status";
    assert "!" + OrderNames[2] == "!name";
    assert "!" + OrderNames[3] == "!phoneNumber";
    assert "!" + OrderNames[4] == "!email";
    assert "!" + OrderNames[5] == "!licenseType";
  }

  // ---------------------------------------------------------------------
  // Search

  /** The candidates are kept once each, in their first position. */
  lemma {:induction false} DistinctExact(xs: seq<string>, v: string)
    ensures v in Distinct(xs) <==> v in xs
  {
    if |xs| > 0 {
      var n := |xs| - 1;
      DistinctExact(xs[..n], v);
      assert xs == xs[..n] + [xs[n]];
    }
  }

  lemma {:induction false} DistinctUnique(xs: seq<string>)
    ensures forall i, j :: 0 <= i < j < |Distinct(xs)| ==> Distinct(xs)[i] != Distinct(xs)[j]
  {
    if |xs| > 0 {
      var n := |xs| - 1;
      DistinctUnique(xs[..n]);
      if xs[n] !in xs[..n] {
        DistinctExact(xs[..n], xs[n]);
      }
    }
  }

  /** The licenses of a record. */
  function Licenses(p: Professional): seq<License>
  {
    if p.briefcase.Some? then p.briefcase.value.licenses else []
  }

  function LicenseField(l: License, f: Field): string
  {
    if f == LicenseNumberField then l.licenseNumber
    else if f == LicenseTypeField then l.licenseType
    else l.licenseBody
  }

  lemma {:induction false} LicenseValuesExact(ls: seq<License>, f: Field, v: string)
    ensures v in LicenseValues(ls, f) <==> exists l :: l in ls && LicenseField(l, f) == v
  {
    if |ls| > 0 {
      var n := |ls| - 1;
      LicenseValuesExact(ls[..n], f, v);
      assert ls == ls[..n] + [ls[n]];
      assert LicenseValues(ls, f) == LicenseValues(ls[..n], f) + [LicenseField(ls[n], f)];
    }
  }

  /** A license text condition holds when one of the record's licenses matches. */
  lemma LicenseLike(p: Professional, f: Field, pattern: Pattern, t: string)
    requires f == LicenseNumberField || f == LicenseTypeField || f == LicenseBodyField
    ensures CondHolds(Like(f, pattern, t), p) <==> exists l :: l in Licenses(p) && TextMatches(pattern, LicenseField(l, f), t)
  {
    if CondHolds(Like(f, pattern, t), p) {
      var v :| v in FieldValues(p, f) && TextMatches(pattern, v, t);
      LicenseValuesExact(Licenses(p), f, v);
    }
    if exists l :: l in Licenses(p) && TextMatches(pattern, LicenseField(l, f), t) {
      var l :| l in Licenses(p) && TextMatches(pattern, LicenseField(l, f), t);
      LicenseValuesExact(Licenses(p), f, LicenseField(l, f));
      assert LicenseField(l, f) in FieldValues(p, f);
    }
  }

  /** What a term finds as text, ignoring case: the start of a name, email
      or city, a part of the street address, a license number or type. */
  predicate TextHit(t: string, p: Professional)
  {
    StartsWith(Lower(p.firstName), Lower(t)) || StartsWith(Lower(p.lastName), Lower(t))
    || StartsWith(Lower(p.email), Lower(t))
    || (p.address.Some?
        && (Contains(Lower(p.address.value.address1), Lower(t)) || StartsWith(Lower(p.address.value.city), Lower(t))))
    || (exists l :: l in Licenses(p) && (Lower(l.licenseNumber) == Lower(t) || Lower(l.licenseType) == Lower(t)))
  }

  /** What an integer term finds as a number: the phone number, the numeric
      id or the zip code. */
  predicate NumberHit(t: string, p: Professional)
  {
    IsInteger(t)
    && (Lower(p.phoneNumber) == Lower(t) || p.intId == DigitsValue(t) || (p.address.Some? && p.address.value.zip == t))
  }

  /** A state the term names or abbreviates. */
  predicate StateHit(t: string, table: seq<StateRow>, p: Professional)
  {
    p.address.Some? && p.address.value.state in StateCandidates(t, table)
  }

  /** What one search term finds in a record. */
  predicate TermFinds(t: string, table: seq<StateRow>, p: Professional)
  {
    TextHit(t, p) || NumberHit(t, p) || StateHit(t, table, p)
  }

  lemma {:induction false} ClauseHoldsAppend(a: Clause, b: Clause, p: Professional)
    ensures ClauseHolds(a + b, p) <==> ClauseHolds(a, p) || ClauseHolds(b, p)
  {
    if ClauseHolds(a + b, p) {
      var k :| 0 <= k < |a + b| && CondHolds((a + b)[k], p);
      if k < |a| {
        assert (a + b)[k] == a[k];
      } else {
        assert (a + b)[k] == b[k - |a|];
      }
    }
    if ClauseHolds(a, p) {
      var k :| 0 <= k < |a| && CondHolds(a[k], p);
      assert (a + b)[k] == a[k];
    }
    if ClauseHolds(b, p) {
      var k :| 0 <= k < |b| && CondHolds(b[k], p);
      assert (a + b)[|a| + k] == b[k];
    }
  }

  /** A text condition on a field that holds one value tests that value. */
  lemma LikeOneValue(p: Professional, f: Field, pattern: Pattern, t: string, v: string)
    requires FieldValues(p, f) == [v]
    ensures CondHolds(Like(f, pattern, t), p) <==> TextMatches(pattern, v, t)
  {
    if TextMatches(pattern, v, t) {
      assert v in FieldValues(p, f);
    }
  }

  /** An address text condition tests the address's value, and fails without an address. */
  lemma LikeAddress(p: Professional, f: Field, pattern: Pattern, t: string)
    requires f == Address1Field || f == CityField
    ensures CondHolds(Like(f, pattern, t), p) <==>
      p.address.Some? && TextMatches(pattern, if f == Address1Field then p.address.value.address1 else p.address.value.city, t)
  {
    if p.address.Some? {
      LikeOneValue(p, f, pattern, t, if f == Address1Field then p.address.value.address1 else p.address.value.city);
    }
  }

  lemma NameCondsMeaning(t: string, p: Professional)
    ensures ClauseHolds([Like(FirstNameField, Prefix, t), Like(LastNameField, Prefix, t), Like(EmailField, Prefix, t)], p) <==>
      StartsWith(Lower(p.firstName), Lower(t)) || StartsWith(Lower(p.lastName), Lower(t))
      || StartsWith(Lower(p.email), Lower(t))
  {
    var cs := [Like(FirstNameField, Prefix, t), Like(LastNameField, Prefix, t), Like(EmailField, Prefix, t)];
    LikeOneValue(p, FirstNameField, Prefix, t, p.firstName);
    LikeOneValue(p, LastNameField, Prefix, t, p.lastName);
    LikeOneValue(p, EmailField, Prefix, t, p.email);
    if ClauseHolds(cs, p) {
      var k :| 0 <= k < |cs| && CondHolds(cs[k], p);
      assert k == 0 || k == 1 || k == 2;
    }
    if StartsWith(Lower(p.firstName), Lower(t)) {
      assert CondHolds(cs[0], p);
    } else if StartsWith(Lower(p.lastName), Lower(t)) {
      assert CondHolds(cs[1], p);
    } else if StartsWith(Lower(p.email), Lower(t)) {
      assert CondHolds(cs[2], p);
    }
  }

  lemma AddressCondsMeaning(t: string, p: Professional)
    ensures ClauseHolds([Like(Address1Field, Anywhere, t), Like(CityField, Prefix, t)], p) <==>
      p.address.Some?
      && (Contains(Lower(p.address.value.address1), Lower(t)) || StartsWith(Lower(p.address.value.city), Lower(t)))
  {
    var cs := [Like(Address1Field, Anywhere, t), Like(CityField, Prefix, t)];
    LikeAddress(p, Address1Field, Anywhere, t);
    LikeAddress(p, CityField, Prefix, t);
    if ClauseHolds(cs, p) {
      var k :| 0 <= k < |cs| && CondHolds(cs[k], p);
      assert k == 0 || k == 1;
    }
    if p.address.Some? && Contains(Lower(p.address.value.address1), Lower(t)) {
      assert CondHolds(cs[0], p);
    } else if p.address.Some? && StartsWith(Lower(p.address.value.city), Lower(t)) {
      assert CondHolds(cs[1], p);
    }
  }

  lemma LicenseCondsMeaning(t: string, p: Professional)
    ensures ClauseHolds([Like(LicenseNumberField, Whole, t), Like(LicenseTypeField, Whole, t)], p) <==>
      exists l :: l in Licenses(p) && (Lower(l.licenseNumber) == Lower(t) || Lower(l.licenseType) == Lower(t))
  {
    var cs := [Like(LicenseNumberField, Whole, t), Like(LicenseTypeField, Whole, t)];
    LicenseLike(p, LicenseNumberField, Whole, t);
    LicenseLike(p, LicenseTypeField, Whole, t);
    if ClauseHolds(cs, p) {
      var k :| 0 <= k < |cs| && CondHolds(cs[k], p);
      assert k == 0 || k == 1;
    }
    if exists l :: l in Licenses(p) && (Lower(l.licenseNumber) == Lower(t) || Lower(l.licenseType) == Lower(t)) {
      var l :| l in Licenses(p) && (Lower(l.licenseNumber) == Lower(t) || Lower(l.licenseType) == Lower(t));
      assert CondHolds(cs[0], p) || CondHolds(cs[1], p);
    }
  }

  lemma TextCondsMeaning(t: string, p: Professional)
    ensures ClauseHolds(TextConds(t), p) <==> TextHit(t, p)
  {
    var names := [Like(FirstNameField, Prefix, t), Like(LastNameField, Prefix, t), Like(EmailField, Prefix, t)];
    var places := [Like(Address1Field, Anywhere, t), Like(CityField, Prefix, t)];
    var licenses := [Like(LicenseNumberField, Whole, t), Like(LicenseTypeField, Whole, t)];
    assert TextConds(t) == names + places + licenses;
    ClauseHoldsAppend(names + places, licenses, p);
    ClauseHoldsAppend(names, places, p);
    NameCondsMeaning(t, p);
    AddressCondsMeaning(t, p);
    LicenseCondsMeaning(t, p);
  }

  lemma NumberCondsMeaning(t: string, p: Professional)
    requires IsInteger(t)
    ensures ClauseHolds(NumberConds(t), p) <==> NumberHit(t, p)
  {
    var cs := NumberConds(t);
    if ClauseHolds(cs, p) {
      var k :| 0 <= k < |cs| && CondHolds(cs[k], p);
      assert k == 0 || k == 1 || k == 2;
    }
    if Lower(p.phoneNumber) == Lower(t) {
      assert p.phoneNumber in FieldValues(p, PhoneField) && TextMatches(Whole, p.phoneNumber, t);
      assert CondHolds(cs[0], p);
    } else if p.intId == DigitsValue(t) {
      assert CondHolds(cs[1], p);
    } else if p.address.Some? && p.address.value.zip == t {
      assert CondHolds(cs[2], p);
    }
  }

  lemma StateCondsMeaning(abbrs: seq<string>, p: Professional)
    ensures ClauseHolds(StateConds(abbrs), p) <==> p.address.Some? && p.address.value.state in abbrs
  {
    var cs := StateConds(abbrs);
    if ClauseHolds(cs, p) {
      var k :| 0 <= k < |cs| && CondHolds(cs[k], p);
      assert cs[k] == Equals(StateField, abbrs[k]);
    }
    if p.address.Some? && p.address.value.state in abbrs {
      var k :| 0 <= k < |abbrs| && abbrs[k] == p.address.value.state;
      assert CondHolds(cs[k], p);
    }
  }

  /** A term's `$or` holds exactly where the term finds the record. */
  lemma TermClauseMeaning(t: string, table: seq<StateRow>, p: Professional)
    ensures ClauseHolds(TermClause(t, table), p) <==> TermFinds(t, table, p)
  {
    var number: Clause := if IsInteger(t) then NumberConds(t) else [];
    var states := Distinct(StateCandidates(t, table));
    ClauseHoldsAppend(TextConds(t) + number, StateConds(states), p);
    ClauseHoldsAppend(TextConds(t), number, p);
    TextCondsMeaning(t, p);
    if IsInteger(t) {
      NumberCondsMeaning(t, p);
    } else {
      assert !ClauseHolds(number, p) && !NumberHit(t, p);
    }
    StateCondsMeaning(states, p);
    if p.address.Some? {
      DistinctExact(StateCandidates(t, table), p.address.value.state);
    }
    assert ClauseHolds(StateConds(states), p) <==> StateHit(t, table, p);
  }

  /** Every clause of a list holds. */
  predicate AllHold(cs: seq<Clause>, p: Professional)
  {
    forall k :: 0 <= k < |cs| ==> ClauseHolds(cs[k], p)
  }

  /** Every term finds the record. */
  predicate AllFound(ts: seq<string>, table: seq<StateRow>, p: Professional)
  {
    forall t :: t in ts ==> TermFinds(t, table, p)
  }

  lemma FoundTermsHold(ts: seq<string>, table: seq<StateRow>, p: Professional)
    requires AllFound(ts, table, p)
    ensures AllHold(TermClauses(ts, table), p)
  {
    forall k | 0 <= k < |TermClauses(ts, table)|
      ensures ClauseHolds(TermClauses(ts, table)[k], p)
    {
      assert ts[k] in ts;
      TermClauseMeaning(ts[k], table, p);
    }
  }

  lemma HoldingTermsFound(ts: seq<string>, table: seq<StateRow>, p: Professional)
    requires AllHold(TermClauses(ts, table), p)
    ensures AllFound(ts, table, p)
  {
    forall t | t in ts
      ensures TermFinds(t, table, p)
    {
      var k :| 0 <= k < |ts| && ts[k] == t;
      assert ClauseHolds(TermClauses(ts, table)[k], p);
      TermClauseMeaning(ts[k], table, p);
    }
  }

  /** The term clauses all hold exactly where every term finds the record. */
  lemma TermClausesMeaning(ts: seq<string>, table: seq<StateRow>, p: Professional)
    ensures AllHold(TermClauses(ts, table), p) <==> AllFound(ts, table, p)
  {
    if AllFound(ts, table, p) {
      FoundTermsHold(ts, table, p);
    }
    if AllHold(TermClauses(ts, table), p) {
      HoldingTermsFound(ts, table, p);
    }
  }

  /** A filter holds when its clauses do and the rest of it does. */
  lemma MatchesSplit(w: Where, p: Professional)
    ensures Matches(w, p) <==> Matches(w.(and := []), p) && AllHold(w.and, p)
  {
  }

  /** A text search adds one clause per term. */
  lemma TextSearchClauses(text: string, table: seq<StateRow>)
    ensures SearchClauses(TextSearch(text), table) == TermClauses(Terms(text), table)
  {
    if text == "" {
      assert Terms(text) == [];
    }
  }

  /** A text search lists the records in which every term of the text finds
      something; a text of spaces only searches nothing. */
  lemma TextSearchMeaning(w: Where, text: string, table: seq<StateRow>, p: Professional)
    requires w.and == SearchClauses(TextSearch(text), table)
    ensures Matches(w, p) <==> Matches(w.(and := []), p) && AllFound(Terms(text), table, p)
  {
    MatchesSplit(w, p);
    TextSearchClauses(text, table);
    TermClausesMeaning(Terms(text), table, p);
  }

  /** An integer term also looks at the phone number, the numeric id and the
      zip code; any other term does not. */
  lemma IntegerTermsReachNumbers(t: string, table: seq<StateRow>)
    ensures IsInteger(t) ==>
      Like(PhoneField, Whole, t) in TermClause(t, table) && IntIdIs(DigitsValue(t)) in TermClause(t, table)
      && Equals(ZipField, t) in TermClause(t, table)
    ensures !IsInteger(t) ==>
      Like(PhoneField, Whole, t) !in TermClause(t, table) && forall n :: IntIdIs(n) !in TermClause(t, table)
  {
    var states := StateConds(Distinct(StateCandidates(t, table)));
    if IsInteger(t) {
      var numbers := NumberConds(t);
      assert TermClause(t, table) == TextConds(t) + numbers + states;
      assert numbers[0] == Like(PhoneField, Whole, t) && numbers[1] == IntIdIs(DigitsValue(t)) && numbers[2] == Equals(ZipField, t);
    } else {
      assert TermClause(t, table) == TextConds(t) + states;
      forall c | c in states
        ensures c.Equals?
      {
        var k :| 0 <= k < |states| && states[k] == c;
      }
    }
  }

  // ---------------------------------------------------------------------
  // The answer

  lemma {:induction false} MatchingExact(records: seq<Professional>, w: Where, p: Professional)
    ensures p in MatchingRecords(records, w) <==> p in records && Matches(w, p)
  {
    if |records| > 0 {
      var n := |records| - 1;
      MatchingExact(records[..n], w, p);
      assert records == records[..n] + [records[n]];
    }
  }

  /** The answer lists one record for each record the filter matches, in
      collection order, and `count` counts them all; the status counts are
      those of the records the count filter matches. */
  lemma ListAnswer(q: Query, select: Option<set<string>>, records: seq<Professional>, lookup: map<string, string>)
    requires Answer(q, select, records, lookup).Ok?
    ensures var r := Answer(q, select, records, lookup).value;
      var found := MatchingRecords(records, q.where);
      r.count == |r.list| == |found|
      && (forall i :: 0 <= i < |found| ==> Matches(q.where, found[i]) && found[i] in records)
      && (r.counts.Some? <==> q.withCounts)
      && (r.counts.Some? ==> Total(r.counts.value) == |Unwound(MatchingRecords(records, q.countWhere), q.organization)|)
  {
    var found := MatchingRecords(records, q.where);
    forall i | 0 <= i < |found|
      ensures Matches(q.where, found[i]) && found[i] in records
    {
      MatchingExact(records, q.where, found[i]);
    }
  }

  /** Each listed record is the matched record, with only its affiliations
      (as the view shows them) and its license states changed; the license
      states are attached exactly when the projection names `briefcase.licenses`. */
  lemma ListedRecords(q: Query, select: Option<set<string>>, records: seq<Professional>, lookup: map<string, string>, i: int)
    requires Answer(q, select, records, lookup).Ok?
    requires 0 <= i < |Answer(q, select, records, lookup).value.list|
    ensures var r := Answer(q, select, records, lookup).value;
      var found := MatchingRecords(records, q.where);
      i < |found|
      && r.list[i] == found[i].(affiliations := r.list[i].affiliations, briefcase := r.list[i].briefcase)
      && r.list[i].affiliations == Shown(found[i], q.view).affiliations
      && (r.list[i].briefcase.Some? <==> found[i].briefcase.Some?)
      && select.Some?
      && ("briefcase.licenses" in select.value ==> r.list[i].briefcase == WithLicenseStates(found[i], lookup).briefcase)
      && ("briefcase.licenses" !in select.value ==> r.list[i].briefcase == found[i].briefcase)
  {
  }

  /** A hospital user who asks for the affiliations sees only the live
      affiliations of their own organization. */
  lemma HospitalSeesOwnAffiliations(opts: ListOptions, su: SessionUser, table: seq<StateRow>,
                                    records: seq<Professional>, lookup: map<string, string>)
    requires su.isHospitalUser && SelectsAffiliations(opts.select)
    requires ListOutcome(opts, Some(su), table, records, lookup).Ok?
    ensures var r := ListOutcome(opts, Some(su), table, records, lookup).value;
      forall i, a :: 0 <= i < |r.list| && r.list[i].affiliations.Some? && a in r.list[i].affiliations.value ==>
        a.rejectedAt.None? && a.organization == su.organization.value.id
  {
    var q := ListQuery(opts, Some(su), table).value;
    assert q.view == KeptOnly(Some(su.organization.value.id));
    var r := Answer(q, opts.select, records, lookup).value;
    forall i | 0 <= i < |r.list|
      ensures r.list[i].affiliations.Some? ==>
        forall a :: a in r.list[i].affiliations.value ==> a.rejectedAt.None? && a.organization == su.organization.value.id
    {
      ListedRecords(q, opts.select, records, lookup, i);
    }
  }
}
