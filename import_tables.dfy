/** The per-column parsers of the bulk-import field configuration
    (`userConfig.fields` in src/add/add.ts): free text is trimmed and looked
    up in a reference table case-insensitively, the table's canonical value
    replaces it when a row matches, and the text is kept as typed otherwise;
    each looked-up column's `validate` then accepts exactly the table's
    canonical values. */
module ImportTables {
  import opened Domain
  import opened Strings

  datatype StateRow = StateRow(name: string, abbr: string)
  datatype LicenseBodyRow = LicenseBodyRow(name: string, state: string)
  datatype LicenseTypeRow = LicenseTypeRow(profession: string, abbr: string, detailsRequired: bool)
  datatype DepartmentRow = DepartmentRow(id: string, name: string)
  /** A certification as the import loads it: the query projects only
      `profession` and `name`, so a loaded row carries no certifying body. */
  datatype CertificationRow = CertificationRow(profession: string, name: string)

  /** The reference tables a bulk import reads once, before the rows. */
  datatype Tables = Tables(
    states: seq<StateRow>,
    licenseBodies: seq<LicenseBodyRow>,
    licenseTypes: seq<LicenseTypeRow>,
    specialties: seq<string>,
    certifications: seq<CertificationRow>,
    additionalCertifications: seq<string>,
    educationLevels: seq<string>,
    departments: seq<DepartmentRow>,
    genders: seq<string>,
    healthDocumentReasons: seq<string>)

  /** A lookup row: the texts it is found by, and the value it resolves to. */
  datatype Entry = Entry(keys: seq<string>, value: string)

  predicate Matches(v: string, e: Entry)
  {
    exists k :: 0 <= k < |e.keys| && EqualsIgnoreCase(v, e.keys[k])
  }

  /** The index of the first entry `v` matches, or -1 (`Array.find`). */
  function FirstMatch(v: string, entries: seq<Entry>): (k: int)
    ensures -1 <= k < |entries|
    ensures k >= 0 ==> Matches(v, entries[k]) && forall j :: 0 <= j < k ==> !Matches(v, entries[j])
    ensures k == -1 ==> forall j :: 0 <= j < |entries| ==> !Matches(v, entries[j])
  {
    if |entries| == 0 then -1
    else if Matches(v, entries[0]) then 0
    else
      var k := FirstMatch(v, entries[1..]);
      if k == -1 then -1 else k + 1
  }

  /** `table.find(matches)?.value || v`. */
  function Resolve(v: string, entries: seq<Entry>): (r: string)
    ensures (forall j :: 0 <= j < |entries| ==> !Matches(v, entries[j])) ==> r == v
    ensures r == v || (exists j :: 0 <= j < |entries| && Matches(v, entries[j]) && r == entries[j].value)
  {
    var k := FirstMatch(v, entries);
    if k >= 0 && entries[k].value != "" then entries[k].value else v
  }

  /** The field's `validate`: the value is one of the table's canonical values. */
  predicate Canonical(v: string, entries: seq<Entry>)
  {
    exists j :: 0 <= j < |entries| && entries[j].value == v
  }

  /** Every row resolves to a non-empty value that is also one of its keys
      (true of the state, license-type and name tables). */
  predicate SelfKeyed(entries: seq<Entry>)
  {
    forall j :: 0 <= j < |entries| ==> entries[j].value != "" && entries[j].value in entries[j].keys
  }

  /** On a self-keyed table a parsed value passes validation exactly when the
      typed text matched some row: unmatched text is kept and then rejected. */
  lemma ResolvedValidatesIffMatched(v: string, entries: seq<Entry>)
    requires SelfKeyed(entries)
    ensures Canonical(Resolve(v, entries), entries) <==> exists j :: 0 <= j < |entries| && Matches(v, entries[j])
  {
    var k := FirstMatch(v, entries);
    if k >= 0 {
      assert Resolve(v, entries) == entries[k].value;
    }
  }

  /** Resolution ignores letter case whenever the text matches: two spellings
      that differ only in case resolve to the same canonical value. */
  lemma {:induction false} ResolveIgnoresCase(a: string, b: string, entries: seq<Entry>)
    requires Lower(a) == Lower(b)
    ensures FirstMatch(a, entries) == FirstMatch(b, entries)
    ensures FirstMatch(a, entries) >= 0 && entries[FirstMatch(a, entries)].value != "" ==> Resolve(a, entries) == Resolve(b, entries)
    decreases |entries|
  {
    if |entries| > 0 {
      assert Matches(a, entries[0]) <==> Matches(b, entries[0]);
      ResolveIgnoresCase(a, b, entries[1..]);
    }
  }

  function StateEntries(states: seq<StateRow>): (es: seq<Entry>)
    ensures |es| == |states|
    ensures forall j :: 0 <= j < |es| ==> es[j] == Entry([states[j].abbr, states[j].name], states[j].abbr)
  {
    seq(|states|, j requires 0 <= j < |states| => Entry([states[j].abbr, states[j].name], states[j].abbr))
  }

  function LicenseBodyEntries(bodies: seq<LicenseBodyRow>): (es: seq<Entry>)
    ensures |es| == |bodies|
    ensures forall j :: 0 <= j < |es| ==> es[j] == Entry([bodies[j].name, bodies[j].state], bodies[j].name)
  {
    seq(|bodies|, j requires 0 <= j < |bodies| => Entry([bodies[j].name, bodies[j].state], bodies[j].name))
  }

  function LicenseTypeEntries(types: seq<LicenseTypeRow>): (es: seq<Entry>)
    ensures |es| == |types|
    ensures forall j :: 0 <= j < |es| ==> es[j] == Entry([types[j].abbr], types[j].abbr)
  {
    seq(|types|, j requires 0 <= j < |types| => Entry([types[j].abbr], types[j].abbr))
  }

  function NameEntries(names: seq<string>): (es: seq<Entry>)
    ensures |es| == |names|
    ensures forall j :: 0 <= j < |es| ==> es[j] == Entry([names[j]], names[j])
  {
    seq(|names|, j requires 0 <= j < |names| => Entry([names[j]], names[j]))
  }

  function DepartmentEntries(departments: seq<DepartmentRow>): (es: seq<Entry>)
    ensures |es| == |departments|
    ensures forall j :: 0 <= j < |es| ==> es[j] == Entry([departments[j].name], departments[j].id)
  {
    seq(|departments|, j requires 0 <= j < |departments| => Entry([departments[j].name], departments[j].id))
  }

  /** `address.state`, `briefcase.driversLicense.state`, `briefcase.facilities.state`. */
  function ParseState(raw: string, t: Tables): string
  {
    Resolve(Trim(raw), StateEntries(t.states))
  }

  /** `briefcase.licenses.licenseBody`: a state name or abbreviation first
      becomes the abbreviation, then the license body found by name or by
      state replaces it. */
  function ParseLicenseBody(raw: string, t: Tables): string
  {
    Resolve(Resolve(Trim(raw), StateEntries(t.states)), LicenseBodyEntries(t.licenseBodies))
  }

  /** `briefcase.licenses.licenseType`. */
  function ParseLicenseType(raw: string, t: Tables): string
  {
    Resolve(Trim(raw), LicenseTypeEntries(t.licenseTypes))
  }

  /** `affiliation.department`: a department name of the session's
      organization becomes its id. */
  function ParseDepartment(raw: string, t: Tables): string
  {
    Resolve(Trim(raw), DepartmentEntries(t.departments))
  }

  /** `gender`, `briefcase.educationLevel`, `briefcase.additionalCertifications.name`,
      `briefcase.healthDocuments.reason`: a name table. */
  function ParseNamed(raw: string, names: seq<string>): string
  {
    Resolve(Trim(raw), NameEntries(names))
  }

  /** A typed state abbreviation or name validates exactly when some state has it. */
  lemma ParsedStateValidates(raw: string, t: Tables)
    requires forall j :: 0 <= j < |t.states| ==> t.states[j].abbr != ""
    ensures Canonical(ParseState(raw, t), StateEntries(t.states)) <==>
            exists j :: 0 <= j < |t.states| &&
              (EqualsIgnoreCase(Trim(raw), t.states[j].abbr) || EqualsIgnoreCase(Trim(raw), t.states[j].name))
  {
    var es := StateEntries(t.states);
    StateEntriesSelfKeyed(t.states);
    ResolvedValidatesIffMatched(Trim(raw), es);
    StateMatches(Trim(raw), t.states);
  }

  lemma StateEntriesSelfKeyed(states: seq<StateRow>)
    requires forall j :: 0 <= j < |states| ==> states[j].abbr != ""
    ensures SelfKeyed(StateEntries(states))
  {
    var es := StateEntries(states);
    forall j | 0 <= j < |es| ensures es[j].value != "" && es[j].value in es[j].keys {
      assert es[j].keys[0] == es[j].value;
    }
  }

  lemma StateMatches(v: string, states: seq<StateRow>)
    ensures (exists j :: 0 <= j < |states| && Matches(v, StateEntries(states)[j])) <==>
            exists j :: 0 <= j < |states| &&
              (EqualsIgnoreCase(v, states[j].abbr) || EqualsIgnoreCase(v, states[j].name))
  {
    var es := StateEntries(states);
    forall j | 0 <= j < |states|
      ensures Matches(v, es[j]) <==> (EqualsIgnoreCase(v, states[j].abbr) || EqualsIgnoreCase(v, states[j].name))
    {
      assert es[j].keys == [states[j].abbr, states[j].name];
      if EqualsIgnoreCase(v, states[j].abbr) {
        assert EqualsIgnoreCase(v, es[j].keys[0]);
      }
      if EqualsIgnoreCase(v, states[j].name) {
        assert EqualsIgnoreCase(v, es[j].keys[1]);
      }
    }
  }

  /** A department is accepted by name (any case) or by its id typed exactly. */
  lemma ParsedDepartmentValidates(raw: string, t: Tables)
    requires forall j :: 0 <= j < |t.departments| ==> t.departments[j].id != ""
    ensures Canonical(ParseDepartment(raw, t), DepartmentEntries(t.departments)) <==>
            (exists j :: 0 <= j < |t.departments| && EqualsIgnoreCase(Trim(raw), t.departments[j].name))
            || (exists j :: 0 <= j < |t.departments| && t.departments[j].id == Trim(raw))
  {
    var es := DepartmentEntries(t.departments);
    var v := Trim(raw);
    var k := FirstMatch(v, es);
    if k >= 0 {
      assert es[k].keys == [t.departments[k].name];
      assert EqualsIgnoreCase(v, t.departments[k].name);
      assert ParseDepartment(raw, t) == t.departments[k].id;
    } else {
      assert ParseDepartment(raw, t) == v;
      forall j | 0 <= j < |t.departments| ensures !EqualsIgnoreCase(v, t.departments[j].name) {
        assert es[j].keys[0] == t.departments[j].name;
      }
    }
  }

  /** `value.replace(/\D/g, '')` (phone numbers). */
  function ParsePhone(raw: string): (r: string)
    ensures forall k :: 0 <= k < |r| ==> IsDigit(r[k])
  {
    DigitsOnly(raw)
  }

  /** `ssn`: the digits, of which `substr(-4)` keeps the last four (all of them when fewer). */
  function ParseSsn(raw: string): (r: string)
    ensures |r| == if |DigitsOnly(raw)| < 4 then |DigitsOnly(raw)| else 4
    ensures r == DigitsOnly(raw)[|DigitsOnly(raw)| - |r|..]
    ensures forall k :: 0 <= k < |r| ==> IsDigit(r[k])
  {
    var d := DigitsOnly(raw);
    SubstringFrom(d, |d| - 4)
  }

  /** `briefcase.ehrSkills`, `languages`: split on commas, drop empty parts,
      then trim (so a part of blanks survives as ""). */
  function ParseList(raw: string): (r: seq<string>)
  {
    TrimAll(NonEmpty(Split(raw, ',')))
  }

  /** The list cell's entries are exactly the trimmed non-empty parts
      between its commas. */
  lemma ParseListMembers(raw: string, x: string)
    ensures x in ParseList(raw) <==> exists p :: p in Split(raw, ',') && p != "" && Trim(p) == x
  {
    var kept := NonEmpty(Split(raw, ','));
    if x in ParseList(raw) {
      var m :| 0 <= m < |kept| && ParseList(raw)[m] == x;
      assert kept[m] in kept;
    }
    if p :| p in Split(raw, ',') && p != "" && Trim(p) == x {
      assert p in kept;
      var m :| 0 <= m < |kept| && kept[m] == p;
      assert ParseList(raw)[m] == x;
    }
  }

  /** A part made only of white space survives as "": `filter(Boolean)`
      runs before `trim`, so it sees the blanks and keeps the part. */
  lemma BlankListEntrySurvives(raw: string, p: string)
    requires p in Split(raw, ',') && p != ""
    requires forall k :: 0 <= k < |p| ==> IsWhitespace(p[k])
    ensures "" in ParseList(raw)
  {
    ParseListMembers(raw, "");
  }

  /** `briefcase.specialties`, specified: split on commas, trim each part,
      replace it by the specialty it names, drop the empty ones. */
  function SpecialtiesOf(raw: string, t: Tables): seq<string>
  {
    NonEmpty(ResolveAll(TrimAll(Split(raw, ',')), NameEntries(t.specialties)))
  }

  function ResolveAll(vs: seq<string>, entries: seq<Entry>): (r: seq<string>)
    ensures |r| == |vs|
    ensures forall k :: 0 <= k < |vs| ==> r[k] == Resolve(vs[k], entries)
  {
    seq(|vs|, k requires 0 <= k < |vs| => Resolve(vs[k], entries))
  }

  /** The specialties parser: rewrites the split parts in place, then filters. */
  method ParseSpecialties(raw: string, t: Tables) returns (r: seq<string>)
    ensures r == SpecialtiesOf(raw, t)
    ensures forall k :: 0 <= k < |r| ==> r[k] != ""
  {
    var parts := Split(raw, ',');
    parts := TrimResolveLoop(parts, NameEntries(t.specialties));
    r := NonEmpty(parts);
  }

  /** The rewriting loop: each part trimmed, then resolved, in place. */
  method TrimResolveLoop(values: seq<string>, entries: seq<Entry>) returns (parts: seq<string>)
    ensures parts == ResolveAll(TrimAll(values), entries)
  {
    parts := values;
    var i := 0;
    while i < |parts|
      invariant 0 <= i <= |parts| == |values|
      invariant forall k :: 0 <= k < i ==> parts[k] == Resolve(Trim(values[k]), entries)
      invariant forall k :: i <= k < |parts| ==> parts[k] == values[k]
    {
      parts := parts[i := Trim(parts[i])];
      parts := parts[i := Resolve(parts[i], entries)];
      i := i + 1;
    }
  }

  /** One `jobs.workCities` entry: "city, state" with the state resolved and
      the country set to "US". */
  function WorkCityOf(v: string, t: Tables): (w: WorkCity)
    ensures w.country == "US" && w.coordinates.None?
  {
    var cityState := Split(v, ',');
    var city := Trim(cityState[0]);
    var state := if |cityState| > 1 then Trim(cityState[1]) else "";
    WorkCity(city, Resolve(state, StateEntries(t.states)), "US", None)
  }

  /** `jobs.workCities`, specified: split on semicolons, drop empty parts, trim, parse each. */
  function WorkCitiesOf(raw: string, t: Tables): (ws: seq<WorkCity>)
    ensures |ws| == |NonEmpty(Split(raw, ';'))|
  {
    WorkCityList(TrimAll(NonEmpty(Split(raw, ';'))), t)
  }

  /** Each value parsed, in order; every entry is in the US. */
  function WorkCityList(values: seq<string>, t: Tables): (ws: seq<WorkCity>)
    ensures |ws| == |values|
    ensures forall k :: 0 <= k < |ws| ==> ws[k].country == "US"
  {
    if |values| == 0 then [] else WorkCityList(values[..|values| - 1], t) + [WorkCityOf(values[|values| - 1], t)]
  }

  /** The work-cities parser: one pushed entry per non-empty part. */
  method ParseWorkCities(raw: string, t: Tables) returns (result: seq<WorkCity>)
    ensures result == WorkCitiesOf(raw, t)
    ensures forall k :: 0 <= k < |result| ==> result[k].country == "US"
  {
    var values := TrimAll(NonEmpty(Split(raw, ';')));
    result := WorkCityLoop(values, t);
  }

  /** The loop of the work-cities parser over the trimmed parts. */
  method WorkCityLoop(values: seq<string>, t: Tables) returns (result: seq<WorkCity>)
    ensures result == WorkCityList(values, t)
  {
    result := [];
    var i := 0;
    while i < |values|
      invariant 0 <= i <= |values|
      invariant result == WorkCityList(values[..i], t)
    {
      assert values[..i + 1][..i] == values[..i];
      result := result + [WorkCityOf(values[i], t)];
      i := i + 1;
    }
    assert values[..i] == values;
  }

  /** `jobs.workStates`, specified: split on commas, drop empty parts, trim, resolve each. */
  function WorkStatesOf(raw: string, t: Tables): seq<string>
  {
    ResolveAll(TrimAll(NonEmpty(Split(raw, ','))), StateEntries(t.states))
  }

  /** The work-states parser: one pushed state per non-empty part. */
  method ParseWorkStates(raw: string, t: Tables) returns (result: seq<string>)
    ensures result == WorkStatesOf(raw, t)
    ensures |result| == |NonEmpty(Split(raw, ','))|
  {
    var values := TrimAll(NonEmpty(Split(raw, ',')));
    result := WorkStateLoop(values, StateEntries(t.states));
  }

  /** The loop of the work-states parser over the trimmed parts. */
  method WorkStateLoop(values: seq<string>, entries: seq<Entry>) returns (result: seq<string>)
    ensures result == ResolveAll(values, entries)
  {
    result := [];
    var i := 0;
    while i < |values|
      invariant 0 <= i <= |values|
      invariant result == ResolveAll(values[..i], entries)
    {
      result := result + [Resolve(values[i], entries)];
      i := i + 1;
    }
    assert values[..i] == values;
  }
}
