/** What the read operations (src/get/get.ts, src/get/get-by-token.ts and the
    listing of src/list/list.ts) do to a fetched record before returning it:
    hide its secrets, keep only the affiliations the reader may see, and
    attach each license's state from the license-body lookup. */
module ReadSide {
  import opened Domain

  /** `if (user.dateOfBirth) user.dateOfBirth = true` (likewise `ssn`): a
      present, non-empty value is replaced by the marker. */
  function Mask(s: Secret): (r: Secret)
    ensures !(r.Plain? && r.text != "")
    ensures r == s || r == Masked
    ensures s.Hidden? ==> r.Hidden?
    ensures s.Plain? && s.text != "" ==> r != s
  {
    if s.Plain? && s.text != "" then Masked else s
  }

  /** The record with its date of birth and SSN masked, nothing else changed. */
  function MaskSecrets(p: Professional): (r: Professional)
    ensures r == p.(dateOfBirth := r.dateOfBirth, ssn := r.ssn)
    ensures !(r.dateOfBirth.Plain? && r.dateOfBirth.text != "") && !(r.ssn.Plain? && r.ssn.text != "")
    ensures p.dateOfBirth.Hidden? ==> r.dateOfBirth.Hidden?
    ensures p.ssn.Hidden? ==> r.ssn.Hidden?
  {
    p.(dateOfBirth := Mask(p.dateOfBirth), ssn := Mask(p.ssn))
  }

  /** Masking twice is masking once. */
  lemma MaskIdempotent(s: Secret)
    ensures Mask(Mask(s)) == Mask(s)
  {
  }

  /** The affiliations a reader sees: the non-rejected ones, and, when
      `organization` is given, only those of that organization; order kept. */
  function Kept(affs: seq<Affiliation>, organization: Option<string>): (r: seq<Affiliation>)
    ensures |r| <= |affs|
    ensures forall a :: a in r ==> a.rejectedAt.None? && (organization.None? || a.organization == organization.value)
  {
    if |affs| == 0 then []
    else
      var a := affs[|affs| - 1];
      Kept(affs[..|affs| - 1], organization)
      + (if a.rejectedAt.None? && (organization.None? || a.organization == organization.value) then [a] else [])
  }

  /** An affiliation is kept exactly when it is one of the input's and passes both tests. */
  lemma {:induction false} KeptExact(affs: seq<Affiliation>, organization: Option<string>, a: Affiliation)
    ensures a in Kept(affs, organization) <==>
      a in affs && a.rejectedAt.None? && (organization.None? || a.organization == organization.value)
  {
    if |affs| > 0 {
      var n := |affs| - 1;
      KeptExact(affs[..n], organization, a);
      assert affs == affs[..n] + [affs[n]];
    }
  }

  /** `allLicenseBodies[lic.licenseBody]`: the state of the license's body,
      undefined when the lookup has no entry for it. */
  function StateOfBody(lookup: map<string, string>, body: string): (s: Option<string>)
    ensures s.Some? <==> body in lookup
    ensures s.Some? ==> s.value == lookup[body]
  {
    if body in lookup then Some(lookup[body]) else None
  }

  /** The licenses, each with the state of its body attached. */
  function LicensesWithStates(ls: seq<License>, lookup: map<string, string>): (r: seq<License>)
    ensures |r| == |ls|
    ensures forall i :: 0 <= i < |ls| ==>
      r[i] == ls[i].(licenseState := StateOfBody(lookup, ls[i].licenseBody))
  {
    if |ls| == 0 then []
    else
      var n := |ls| - 1;
      LicensesWithStates(ls[..n], lookup) + [ls[n].(licenseState := StateOfBody(lookup, ls[n].licenseBody))]
  }

  /** The record with the states of its licenses attached (a record without
      a briefcase is left as it is). */
  function WithLicenseStates(p: Professional, lookup: map<string, string>): (r: Professional)
    ensures r == p.(briefcase := r.briefcase)
    ensures r.briefcase.Some? <==> p.briefcase.Some?
    ensures r.briefcase.Some? ==> r.briefcase.value == p.briefcase.value.(licenses := r.briefcase.value.licenses)
  {
    if p.briefcase.Some?
    then p.(briefcase := Some(p.briefcase.value.(licenses := LicensesWithStates(p.briefcase.value.licenses, lookup))))
    else p
  }

  /** The loop over `user.briefcase.licenses` setting each `licenseState`. */
  method FillLicenseStates(p: Professional, lookup: map<string, string>) returns (r: Professional)
    ensures r == WithLicenseStates(p, lookup)
  {
    r := p;
    if p.briefcase.Some? {
      var ls := p.briefcase.value.licenses;
      var i := 0;
      while i < |ls|
        invariant 0 <= i <= |ls|
        invariant |ls| == |p.briefcase.value.licenses|
        invariant forall j :: 0 <= j < i ==>
          ls[j] == p.briefcase.value.licenses[j].(licenseState := StateOfBody(lookup, p.briefcase.value.licenses[j].licenseBody))
        invariant forall j :: i <= j < |ls| ==> ls[j] == p.briefcase.value.licenses[j]
      {
        ls := ls[i := ls[i].(licenseState := StateOfBody(lookup, ls[i].licenseBody))];
        i := i + 1;
      }
      assert ls == LicensesWithStates(p.briefcase.value.licenses, lookup);
      r := p.(briefcase := Some(p.briefcase.value.(licenses := ls)));
    }
  }

  /** Every license of the result carries its body's state, and the
      licenses are otherwise those of the record. */
  lemma LicenseStatesAttached(p: Professional, lookup: map<string, string>)
    requires p.briefcase.Some?
    ensures var ls := WithLicenseStates(p, lookup).briefcase.value.licenses;
      |ls| == |p.briefcase.value.licenses|
      && forall i :: 0 <= i < |ls| ==>
        (ls[i].licenseState.Some? <==> ls[i].licenseBody in lookup)
        && (ls[i].licenseState.Some? ==> ls[i].licenseState.value == lookup[ls[i].licenseBody])
        && ls[i] == p.briefcase.value.licenses[i].(licenseState := ls[i].licenseState)
  {
  }
}
