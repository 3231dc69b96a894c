/** `getCounts` (src/list/list.ts): the status buckets of a listing scoped to
    one organization. The matching professionals are paired with each of
    their affiliations to that organization, and every pair is classified:
    a pending (not accepted) affiliation by how far the professional's
    onboarding got, an accepted one as an issue or as active. */
module StatusCounts {
  import opened Domain

  datatype ListCounts = ListCounts(lead: nat, registered: nat, licensed: nat, completed: nat, issues: nat, active: nat)

  const NoCounts := ListCounts(0, 0, 0, 0, 0, 0)

  /** One document after `$unwind`: a professional with one of its affiliations. */
  datatype Row = Row(p: Professional, a: Affiliation)

  predicate Licensed(p: Professional)
  {
    p.briefcase.Some? && p.briefcase.value.licensedAt.Some?
  }

  predicate Completed(p: Professional)
  {
    p.briefcase.Some? && p.briefcase.value.completedAt.Some?
  }

  predicate IsLead(r: Row)
  {
    r.a.acceptedAt.None? && r.p.activatedAt.None?
  }

  predicate IsRegistered(r: Row)
  {
    r.a.acceptedAt.None? && r.p.activatedAt.Some? && !Licensed(r.p)
  }

  predicate IsLicensed(r: Row)
  {
    r.a.acceptedAt.None? && r.p.activatedAt.Some? && Licensed(r.p) && !Completed(r.p)
  }

  predicate IsCompleted(r: Row)
  {
    r.a.acceptedAt.None? && r.p.activatedAt.Some? && Licensed(r.p) && Completed(r.p)
  }

  predicate IsIssue(r: Row)
  {
    r.a.acceptedAt.Some? && (r.p.activatedAt.None? || !Licensed(r.p) || r.p.suspendedAt.Some?)
  }

  predicate IsActive(r: Row)
  {
    r.a.acceptedAt.Some? && r.p.activatedAt.Some? && Licensed(r.p) && r.p.suspendedAt.None?
  }

  function One(b: bool): nat
  {
    if b then 1 else 0
  }

  function Plus(x: ListCounts, y: ListCounts): ListCounts
  {
    ListCounts(x.lead + y.lead, x.registered + y.registered, x.licensed + y.licensed,
               x.completed + y.completed, x.issues + y.issues, x.active + y.active)
  }

  function Total(c: ListCounts): nat
  {
    c.lead + c.registered + c.licensed + c.completed + c.issues + c.active
  }

  /** What one row adds to each `$sum`. */
  function RowCounts(r: Row): ListCounts
  {
    ListCounts(One(IsLead(r)), One(IsRegistered(r)), One(IsLicensed(r)),
               One(IsCompleted(r)), One(IsIssue(r)), One(IsActive(r)))
  }

  /** Every row falls in exactly one bucket: a pending affiliation in one of
      lead, registered, licensed and completed, an accepted one in one of
      issues and active. */
  lemma RowInOneBucket(r: Row)
    ensures Total(RowCounts(r)) == 1
    ensures RowCounts(r).issues + RowCounts(r).active == One(r.a.acceptedAt.Some?)
    ensures r.a.acceptedAt.None? ==> RowCounts(r).issues == 0 && RowCounts(r).active == 0
    ensures r.a.acceptedAt.Some? ==>
      RowCounts(r).lead == 0 && RowCounts(r).registered == 0 && RowCounts(r).licensed == 0 && RowCounts(r).completed == 0
  {
    var accepted, activated, licensed, completed, suspended :=
      r.a.acceptedAt.Some?, r.p.activatedAt.Some?, Licensed(r.p), Completed(r.p), r.p.suspendedAt.Some?;
    BucketsOfFlags(accepted, activated, licensed, completed, suspended);
  }

  /** The bucket conditions over the five flags they read. */
  lemma BucketsOfFlags(accepted: bool, activated: bool, licensed: bool, completed: bool, suspended: bool)
    ensures One(!accepted && !activated) + One(!accepted && activated && !licensed)
      + One(!accepted && activated && licensed && !completed) + One(!accepted && activated && licensed && completed)
      + One(accepted && (!activated || !licensed || suspended)) + One(accepted && activated && licensed && !suspended) == 1
  {
  }

  /** The `$group` over all rows; no row gives every count zero. */
  function Tally(rows: seq<Row>): (c: ListCounts)
    ensures rows == [] ==> c == NoCounts
  {
    if |rows| == 0 then NoCounts
    else Plus(Tally(rows[..|rows| - 1]), RowCounts(rows[|rows| - 1]))
  }

  /** The rows whose affiliation is accepted. */
  function Accepted(rows: seq<Row>): nat
  {
    if |rows| == 0 then 0
    else Accepted(rows[..|rows| - 1]) + One(rows[|rows| - 1].a.acceptedAt.Some?)
  }

  /** Together the six counts count every row once. */
  lemma {:induction false} TallyTotal(rows: seq<Row>)
    ensures Total(Tally(rows)) == |rows|
  {
    if |rows| > 0 {
      var init, last := rows[..|rows| - 1], rows[|rows| - 1];
      TallyTotal(init);
      RowInOneBucket(last);
      assert Tally(rows) == Plus(Tally(init), RowCounts(last));
    }
  }

  /** The accepted rows are exactly the issues and the active ones. */
  lemma {:induction false} TallyAccepted(rows: seq<Row>)
    ensures Tally(rows).issues + Tally(rows).active == Accepted(rows)
  {
    if |rows| > 0 {
      var init, last := rows[..|rows| - 1], rows[|rows| - 1];
      TallyAccepted(init);
      RowInOneBucket(last);
      assert Tally(rows) == Plus(Tally(init), RowCounts(last));
    }
  }

  /** The six counts partition the rows: the pending rows are counted by
      lead, registered, licensed and completed, the accepted ones by issues
      and active. */
  lemma TallyPartitions(rows: seq<Row>)
    ensures Total(Tally(rows)) == |rows|
    ensures Tally(rows).issues + Tally(rows).active == Accepted(rows)
    ensures Tally(rows).lead + Tally(rows).registered + Tally(rows).licensed + Tally(rows).completed == |rows| - Accepted(rows)
  {
    TallyTotal(rows);
    TallyAccepted(rows);
    var t := Tally(rows);
    assert Total(t) == t.lead + t.registered + t.licensed + t.completed + (t.issues + t.active);
  }

  /** The rows of one professional: one per affiliation to the organization. */
  function RowsOf(p: Professional, affs: seq<Affiliation>, organization: string): (rows: seq<Row>)
    ensures |rows| <= |affs|
  {
    if |affs| == 0 then []
    else
      var a := affs[|affs| - 1];
      RowsOf(p, affs[..|affs| - 1], organization) + (if a.organization == organization then [Row(p, a)] else [])
  }

  /** The `$filter` to the organization then `$unwind`: a professional with no
      affiliation to it contributes no row, one with several contributes one each. */
  function Unwound(records: seq<Professional>, organization: string): seq<Row>
  {
    if |records| == 0 then []
    else
      var p := records[|records| - 1];
      Unwound(records[..|records| - 1], organization) + RowsOf(p, AffiliationsOf(p), organization)
  }

  lemma {:induction false} RowsOfExact(p: Professional, affs: seq<Affiliation>, organization: string, r: Row)
    ensures r in RowsOf(p, affs, organization) <==> r.p == p && r.a in affs && r.a.organization == organization
  {
    if |affs| > 0 {
      var n := |affs| - 1;
      RowsOfExact(p, affs[..n], organization, r);
      assert affs == affs[..n] + [affs[n]];
    }
  }

  /** A row is counted exactly when it pairs a matching professional with one
      of its affiliations to the organization, rejected affiliations included. */
  lemma {:induction false} UnwoundExact(records: seq<Professional>, organization: string, r: Row)
    ensures r in Unwound(records, organization) <==>
      r.p in records && r.a in AffiliationsOf(r.p) && r.a.organization == organization
  {
    if |records| > 0 {
      var n := |records| - 1;
      UnwoundExact(records[..n], organization, r);
      RowsOfExact(records[n], AffiliationsOf(records[n]), organization, r);
      assert records == records[..n] + [records[n]];
    }
  }

  /** `getCounts`: the buckets of the rows of the professionals `matching`
      the counts filter, for the organization. */
  function GetCounts(matching: seq<Professional>, organization: string): (c: ListCounts)
    ensures Total(c) == |Unwound(matching, organization)|
  {
    TallyPartitions(Unwound(matching, organization));
    Tally(Unwound(matching, organization))
  }
}
