/** The whole-item `validate` hook of the bulk-import configuration
    (src/add/add.ts): it copies each certification's certifying body from the
    certification table, and reports a recruiter or a reference that has
    neither a phone number nor an email, and a license whose type demands
    details it lacks. A license type missing from the table makes the hook
    read a property of `undefined` and throw. */
module ImportValidate {
  import opened Domain
  import opened Strings
  import opened ImportTables

  /** `UnflattenFieldRequiredError(path, message)`. */
  datatype FieldError = FieldError(path: string, message: string)

  const ContactRequired: string := "Phone number or email address is required."
  const LicenseDetailsRequired: string := "License requires additional fields: License Body, License Number and Expiration Date."

  /** A recruiter as typed in the affiliation columns. */
  datatype Contact = Contact(firstName: string, lastName: string, email: string, phoneNumber: string)

  /** The `affiliation.*` columns, taken off the user before it is added. */
  datatype ImportedAffiliation = ImportedAffiliation(
    thirdPartyId: string, isIrp: Option<bool>, recruiter: Option<Contact>, department: string, notes: string)

  /** One decoded row: the user record and its affiliation columns. */
  datatype ImportedUser = ImportedUser(user: Professional, affiliation: Option<ImportedAffiliation>)

  /** A text field of a briefcase item, "" when absent. */
  function ItemField(item: BriefcaseItem, key: string): string
  {
    if key in item.fields then item.fields[key] else ""
  }

  /** Neither a phone number nor an email. */
  predicate LacksContact(phoneNumber: string, email: string)
  {
    phoneNumber == "" && email == ""
  }

  predicate ReferenceLacksContact(r: BriefcaseItem)
  {
    LacksContact(ItemField(r, "phoneNumber"), ItemField(r, "email"))
  }

  /** `briefcase.references.<i>.<field>`. */
  function ReferencePath(i: nat, field: string): string
  {
    "briefcase.references." + (NatToString(i) + ("." + field))
  }

  /** `briefcase.licenses.<i>.licenseType`. */
  function LicensePath(i: nat): string
  {
    "briefcase.licenses." + (NatToString(i) + ".licenseType")
  }

  /** The two errors a recruiter without phone and email gets. */
  function RecruiterErrors(a: Option<ImportedAffiliation>): (es: seq<FieldError>)
    ensures es != [] <==> a.Some? && a.value.recruiter.Some?
                          && LacksContact(a.value.recruiter.value.phoneNumber, a.value.recruiter.value.email)
    ensures es != [] ==> es == [FieldError("affiliation.recruiter.email", ContactRequired),
                                FieldError("affiliation.recruiter.phoneNumber", ContactRequired)]
  {
    if a.Some? && a.value.recruiter.Some? && LacksContact(a.value.recruiter.value.phoneNumber, a.value.recruiter.value.email)
    then [FieldError("affiliation.recruiter.email", ContactRequired),
          FieldError("affiliation.recruiter.phoneNumber", ContactRequired)]
    else []
  }

  /** The errors of references `from` onwards, two per reference without contact. */
  function ReferenceErrorsFrom(refs: seq<BriefcaseItem>, from: nat): seq<FieldError>
    decreases |refs| - from
  {
    if from >= |refs| then []
    else
      (if ReferenceLacksContact(refs[from])
       then [FieldError(ReferencePath(from, "email"), ContactRequired),
             FieldError(ReferencePath(from, "phoneNumber"), ContactRequired)]
       else [])
      + ReferenceErrorsFrom(refs, from + 1)
  }

  function ReferenceErrors(refs: seq<BriefcaseItem>): seq<FieldError>
  {
    ReferenceErrorsFrom(refs, 0)
  }

  /** The references loop of the hook. */
  method CollectReferenceErrors(refs: seq<BriefcaseItem>) returns (errors: seq<FieldError>)
    ensures errors == ReferenceErrors(refs)
  {
    errors := [];
    var i := 0;
    while i < |refs|
      invariant 0 <= i <= |refs|
      invariant errors + ReferenceErrorsFrom(refs, i) == ReferenceErrors(refs)
    {
      if ReferenceLacksContact(refs[i]) {
        errors := errors + [FieldError(ReferencePath(i, "email"), ContactRequired),
                            FieldError(ReferencePath(i, "phoneNumber"), ContactRequired)];
      }
      i := i + 1;
    }
  }

  lemma {:induction false} SuffixCancel(a: string, b: string, suffix: string)
    requires a + suffix == b + suffix
    ensures a == b
  {
    assert |a| == |b|;
    assert a == (a + suffix)[..|a|];
    assert b == (b + suffix)[..|b|];
  }

  /** Different references get different paths, and a reference's email path
      is never its phone path. */
  lemma ReferencePathInjective(i: nat, j: nat, f: string, g: string)
    requires f in {"email", "phoneNumber"} && g in {"email", "phoneNumber"}
    ensures ReferencePath(i, f) == ReferencePath(j, g) ==> i == j && f == g
  {
    var prefix := "briefcase.references.";
    if ReferencePath(i, f) == ReferencePath(j, g) {
      var si := NatToString(i) + ("." + f);
      var sj := NatToString(j) + ("." + g);
      assert prefix + si == ReferencePath(i, f);
      assert prefix + sj == ReferencePath(j, g);
      assert si == (prefix + si)[|prefix|..];
      assert si == sj;
      assert si[|si| - 1] == f[|f| - 1];
      assert sj[|sj| - 1] == g[|g| - 1];
      assert f == g;
      SuffixCancel(NatToString(i), NatToString(j), "." + f);
      NatToStringInjective(i, j);
    }
  }

  /** Exactly the references without phone and email are reported, each
      under its own index. */
  lemma {:induction false} ReferenceErrorsExact(refs: seq<BriefcaseItem>, from: nat, i: nat, f: string)
    requires f in {"email", "phoneNumber"}
    ensures FieldError(ReferencePath(i, f), ContactRequired) in ReferenceErrorsFrom(refs, from)
            <==> from <= i < |refs| && ReferenceLacksContact(refs[i])
    ensures forall e :: e in ReferenceErrorsFrom(refs, from) ==> e.message == ContactRequired
    decreases |refs| - from
  {
    if from < |refs| {
      ReferenceErrorsExact(refs, from + 1, i, f);
      ReferencePathInjective(i, from, f, "email");
      ReferencePathInjective(i, from, f, "phoneNumber");
      if i == from && ReferenceLacksContact(refs[i]) {
        assert f == "email" || f == "phoneNumber";
      }
    }
  }

  /** Two errors per reference without contact, none for the others. */
  lemma {:induction false} ReferenceErrorCount(refs: seq<BriefcaseItem>, from: nat)
    ensures |ReferenceErrorsFrom(refs, from)| == 2 * |set i | from <= i < |refs| && ReferenceLacksContact(refs[i])|
    decreases |refs| - from
  {
    var s := set i | from <= i < |refs| && ReferenceLacksContact(refs[i]);
    if from >= |refs| {
      assert s == {};
    } else {
      ReferenceErrorCount(refs, from + 1);
      var s' := set i | from + 1 <= i < |refs| && ReferenceLacksContact(refs[i]);
      if ReferenceLacksContact(refs[from]) {
        assert s == s' + {from};
      } else {
        assert s == s';
      }
    }
  }

  /** The table row whose abbreviation the license type names, ignoring case. */
  function LicenseTypeOf(licenseType: string, types: seq<LicenseTypeRow>): (r: Option<LicenseTypeRow>)
    ensures r.Some? <==> exists j :: 0 <= j < |types| && EqualsIgnoreCase(licenseType, types[j].abbr)
    ensures r.Some? ==> r.value in types && EqualsIgnoreCase(licenseType, r.value.abbr)
  {
    if |types| == 0 then None
    else if EqualsIgnoreCase(licenseType, types[0].abbr) then Some(types[0])
    else
      var r := LicenseTypeOf(licenseType, types[1..]);
      assert forall j :: 1 <= j < |types| ==> types[j] == types[1..][j - 1];
      r
  }

  /** A license of a type that requires details is missing its number, its
      body or its expiration date. */
  predicate MissingDetails(l: License, t: LicenseTypeRow)
  {
    t.detailsRequired && !(l.licenseNumber != "" && l.licenseBody != "" && l.expirationDate.Some?)
  }

  /** The license errors of licenses `from` onwards; an unknown type throws. */
  function LicenseErrorsFrom(ls: seq<License>, types: seq<LicenseTypeRow>, from: nat): (r: Result<seq<FieldError>>)
    decreases |ls| - from
  {
    if from >= |ls| then Ok([])
    else
      var t := LicenseTypeOf(ls[from].licenseType, types);
      if t.None? then Err(TypeError)
      else
        var rest := LicenseErrorsFrom(ls, types, from + 1);
        if rest.Err? then rest
        else Ok(OwnLicenseErrors(ls, t.value, from) + rest.value)
  }

  /** One license's contribution to the hook's result. */
  function OwnLicenseErrors(ls: seq<License>, t: LicenseTypeRow, i: nat): seq<FieldError>
    requires i < |ls|
  {
    if MissingDetails(ls[i], t) then [FieldError(LicensePath(i), LicenseDetailsRequired)] else []
  }

  lemma LicenseErrorsStep(ls: seq<License>, types: seq<LicenseTypeRow>, i: nat)
    requires i < |ls|
    ensures LicenseTypeOf(ls[i].licenseType, types).None? ==> LicenseErrorsFrom(ls, types, i) == Err(TypeError)
    ensures LicenseTypeOf(ls[i].licenseType, types).Some? && LicenseErrorsFrom(ls, types, i + 1).Err?
            ==> LicenseErrorsFrom(ls, types, i) == LicenseErrorsFrom(ls, types, i + 1)
    ensures LicenseTypeOf(ls[i].licenseType, types).Some? && LicenseErrorsFrom(ls, types, i + 1).Ok?
            ==> LicenseErrorsFrom(ls, types, i)
                == Ok(OwnLicenseErrors(ls, LicenseTypeOf(ls[i].licenseType, types).value, i) + LicenseErrorsFrom(ls, types, i + 1).value)
  {
  }

  /** The errors gathered so far followed by the result of the rest. */
  function Combine(before: seq<FieldError>, rest: Result<seq<FieldError>>): Result<seq<FieldError>>
  {
    if rest.Err? then rest else Ok(before + rest.value)
  }

  lemma CombineStep(ls: seq<License>, types: seq<LicenseTypeRow>, i: nat, before: seq<FieldError>)
    requires i < |ls| && LicenseTypeOf(ls[i].licenseType, types).Some?
    ensures Combine(before, LicenseErrorsFrom(ls, types, i))
            == Combine(before + OwnLicenseErrors(ls, LicenseTypeOf(ls[i].licenseType, types).value, i), LicenseErrorsFrom(ls, types, i + 1))
  {
    LicenseErrorsStep(ls, types, i);
    var rest := LicenseErrorsFrom(ls, types, i + 1);
    if rest.Ok? {
      var own := OwnLicenseErrors(ls, LicenseTypeOf(ls[i].licenseType, types).value, i);
      assert before + (own + rest.value) == (before + own) + rest.value;
    }
  }

  /** The licenses loop of the hook. */
  method CollectLicenseErrors(ls: seq<License>, types: seq<LicenseTypeRow>) returns (r: Result<seq<FieldError>>)
    ensures r == LicenseErrorsFrom(ls, types, 0)
  {
    var errors: seq<FieldError> := [];
    var i := 0;
    assert Combine([], LicenseErrorsFrom(ls, types, 0)) == LicenseErrorsFrom(ls, types, 0) by {
      assert LicenseErrorsFrom(ls, types, 0).Ok? ==> [] + LicenseErrorsFrom(ls, types, 0).value == LicenseErrorsFrom(ls, types, 0).value;
    }
    while i < |ls|
      invariant 0 <= i <= |ls|
      invariant Combine(errors, LicenseErrorsFrom(ls, types, i)) == LicenseErrorsFrom(ls, types, 0)
    {
      var t := LicenseTypeOf(ls[i].licenseType, types);
      if t.None? {
        LicenseErrorsStep(ls, types, i);
        return Err(TypeError);
      }
      CombineStep(ls, types, i, errors);
      errors := errors + OwnLicenseErrors(ls, t.value, i);
      i := i + 1;
    }
    assert errors + [] == errors;
    r := Ok(errors);
  }

  /** The hook throws exactly when some license's type is not in the table. */
  lemma {:induction false} LicenseErrorsThrowIffUnknownType(ls: seq<License>, types: seq<LicenseTypeRow>, from: nat)
    ensures LicenseErrorsFrom(ls, types, from).Err? <==>
            exists i :: from <= i < |ls| && LicenseTypeOf(ls[i].licenseType, types).None?
    ensures LicenseErrorsFrom(ls, types, from).Err? ==> LicenseErrorsFrom(ls, types, from).error == TypeError
    decreases |ls| - from
  {
    if from < |ls| {
      LicenseErrorsThrowIffUnknownType(ls, types, from + 1);
    }
  }

  /** With known types, a license is reported exactly when it misses details. */
  lemma {:induction false} LicenseErrorsExact(ls: seq<License>, types: seq<LicenseTypeRow>, from: nat, i: nat)
    requires LicenseErrorsFrom(ls, types, from).Ok?
    ensures FieldError(LicensePath(i), LicenseDetailsRequired) in LicenseErrorsFrom(ls, types, from).value
            <==> from <= i < |ls| && LicenseTypeOf(ls[i].licenseType, types).Some?
                 && MissingDetails(ls[i], LicenseTypeOf(ls[i].licenseType, types).value)
    decreases |ls| - from
  {
    if from < |ls| {
      LicenseErrorsExact(ls, types, from + 1, i);
      if LicensePath(i) == LicensePath(from) {
        var p := "briefcase.licenses.";
        assert NatToString(from) + ".licenseType" == (p + (NatToString(from) + ".licenseType"))[|p|..];
        assert NatToString(i) + ".licenseType" == (p + (NatToString(i) + ".licenseType"))[|p|..];
        SuffixCancel(NatToString(i), NatToString(from), ".licenseType");
        NatToStringInjective(i, from);
      }
    }
  }

  /** Some loaded certification has exactly this name. */
  predicate Listed(name: string, table: seq<CertificationRow>)
  {
    exists j :: 0 <= j < |table| && table[j].name == name
  }

  /** The hook copies `certifyingBody` from the first loaded row with this
      name. The loaded rows carry no body, so a listed certification loses
      its body and an unlisted one is left as it is. */
  function CertifyingBodyOf(c: Certification, table: seq<CertificationRow>): (r: Certification)
    ensures r.name == c.name
    ensures r.certifyingBody == if Listed(c.name, table) then None else c.certifyingBody
  {
    if |table| == 0 then c
    else if table[0].name == c.name then c.(certifyingBody := None)
    else
      assert forall j :: 1 <= j < |table| ==> table[j] == table[1..][j - 1];
      assert Listed(c.name, table[1..]) ==> Listed(c.name, table);
      CertifyingBodyOf(c, table[1..])
  }

  /** The pass never gives a certification a body it did not bring, and
      running it again changes nothing. */
  lemma {:induction false} CertificationPassAddsNoBody(cs: seq<Certification>, table: seq<CertificationRow>)
    ensures forall k :: 0 <= k < |cs| && CertifyingBodies(cs, table)[k].certifyingBody.Some?
              ==> CertifyingBodies(cs, table)[k] == cs[k] && !Listed(cs[k].name, table)
    ensures CertifyingBodies(CertifyingBodies(cs, table), table) == CertifyingBodies(cs, table)
  {
    var once := CertifyingBodies(cs, table);
    forall k | 0 <= k < |cs|
      ensures CertifyingBodyOf(once[k], table) == once[k]
    {
      assert once[k].name == cs[k].name;
    }
  }

  function CertifyingBodies(cs: seq<Certification>, table: seq<CertificationRow>): (r: seq<Certification>)
    ensures |r| == |cs|
    ensures forall k :: 0 <= k < |cs| ==> r[k] == CertifyingBodyOf(cs[k], table)
  {
    seq(|cs|, k requires 0 <= k < |cs| => CertifyingBodyOf(cs[k], table))
  }

  /** The certifications loop of the hook: it updates each certification in place. */
  method CopyCertifyingBodies(cs: seq<Certification>, table: seq<CertificationRow>) returns (out: seq<Certification>)
    ensures out == CertifyingBodies(cs, table)
  {
    out := cs;
    var i := 0;
    while i < |out|
      invariant 0 <= i <= |out| == |cs|
      invariant forall k :: 0 <= k < i ==> out[k] == CertifyingBodyOf(cs[k], table)
      invariant forall k :: i <= k < |out| ==> out[k] == cs[k]
    {
      out := out[i := CertifyingBodyOf(out[i], table)];
      i := i + 1;
    }
  }

  /** The item after the hook's certification pass. */
  function WithCertifyingBodies(item: ImportedUser, table: seq<CertificationRow>): (r: ImportedUser)
    ensures r.affiliation == item.affiliation
    ensures r.user.email == item.user.email && r.user.workCities == item.user.workCities
    ensures r.user.briefcase.Some? <==> item.user.briefcase.Some?
    ensures r.user.briefcase.Some? ==> r.user.briefcase.value.licenses == item.user.briefcase.value.licenses
  {
    if item.user.briefcase.None? then item
    else
      var b := item.user.briefcase.value;
      item.(user := item.user.(briefcase := Some(b.(certifications := CertifyingBodies(b.certifications, table)))))
  }

  function Licenses(item: ImportedUser): seq<License>
  {
    if item.user.briefcase.Some? then item.user.briefcase.value.licenses else []
  }

  function References(item: ImportedUser): seq<BriefcaseItem>
  {
    if item.user.briefcase.Some? then item.user.briefcase.value.references else []
  }

  /** The hook's errors in order (recruiter, references, licenses), or the
      error it throws. */
  function Validate(item: ImportedUser, t: Tables): (r: Result<seq<FieldError>>)
    ensures r.Err? <==> exists i :: 0 <= i < |Licenses(item)| && LicenseTypeOf(Licenses(item)[i].licenseType, t.licenseTypes).None?
    ensures r.Ok? && item.affiliation.Some? && item.affiliation.value.recruiter.Some?
            && LacksContact(item.affiliation.value.recruiter.value.phoneNumber, item.affiliation.value.recruiter.value.email)
            ==> FieldError("affiliation.recruiter.email", ContactRequired) in r.value
  {
    LicenseErrorsThrowIffUnknownType(Licenses(item), t.licenseTypes, 0);
    var licenseErrors := LicenseErrorsFrom(Licenses(item), t.licenseTypes, 0);
    if licenseErrors.Err? then Err(licenseErrors.error)
    else
      var es := RecruiterErrors(item.affiliation) + ReferenceErrors(References(item)) + licenseErrors.value;
      assert RecruiterErrors(item.affiliation) != [] ==> es[0] == RecruiterErrors(item.affiliation)[0];
      Ok(es)
  }

  /** The hook as a method: the three loops, then the certification copy. */
  method RunValidate(item: ImportedUser, t: Tables) returns (r: Result<seq<FieldError>>, updated: ImportedUser)
    ensures r == Validate(item, t)
    ensures updated == WithCertifyingBodies(item, t.certifications)
  {
    updated := item;
    if item.user.briefcase.Some? {
      var b := item.user.briefcase.value;
      var cs := CopyCertifyingBodies(b.certifications, t.certifications);
      updated := item.(user := item.user.(briefcase := Some(b.(certifications := cs))));
    }
    var recruiterErrors := RecruiterErrors(item.affiliation);
    var referenceErrors := CollectReferenceErrors(References(item));
    var licenseErrors := CollectLicenseErrors(Licenses(item), t.licenseTypes);
    if licenseErrors.Err? {
      return Err(licenseErrors.error), updated;
    }
    r := Ok(recruiterErrors + referenceErrors + licenseErrors.value);
  }
}
