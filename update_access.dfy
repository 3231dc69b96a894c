/** What the update operations of src/update/update.ts share: the acting
    user and access gate, and the fan-out of a webhook to the organizations
    of the professional's live affiliations. */
module UpdateAccess {
  import opened Domain
  import opened ProfilePatches
  import opened Repository

  /** A run of an operation: its outcome and the effects it issued, in order,
      including those issued before a failure. */
  datatype Run<T> = Run(result: Result<T>, effects: seq<Effect>)

  /** The acting user's type: the professional's own when the session is the
      professional, else that of the user the session names, if found. */
  function ActingType(session: Session, userId: string, stored: Option<Professional>, found: Option<UserType>): (t: Option<UserType>)
    ensures session.userId == userId ==> (t.Some? <==> stored.Some?)
    ensures session.userId != userId ==> t == found
  {
    if session.userId == userId then (if stored.Some? then Some(stored.value.userType) else None) else found
  }

  /** The gate every update runs first: a missing acting user or
      professional is UserNotFound, a professional the acting user may not
      access is Unauthorized (`hasAccess` is its outcome). */
  function AccessCheck(session: Session, userId: string, stored: Option<Professional>, found: Option<UserType>, hasAccess: bool): (r: Result<UserType>)
    ensures r == Err(UserNotFound) <==> stored.None? || ActingType(session, userId, stored, found).None?
    ensures r == Err(Unauthorized) <==> stored.Some? && ActingType(session, userId, stored, found).Some? && !hasAccess
    ensures r.Ok? ==> r == Ok(ActingType(session, userId, stored, found).value) && hasAccess
  {
    var acting := ActingType(session, userId, stored, found);
    if acting.None? || stored.None? then Err(UserNotFound)
    else if !hasAccess then Err(Unauthorized)
    else Ok(acting.value)
  }

  function HookOn(w: Webhooks, kind: WebhookKind): bool
  {
    match kind
    case AffiliationAddedHook => w.affiliationAdded
    case ProfessionalUpdatedHook => w.updated
    case ItemUpdatedHook => w.itemUpdated
    case ItemDeletedHook => w.itemDeleted
    case FileUploadedHook => w.fileUploaded
  }

  /** One publish per live affiliation whose organization configures the
      webhook, in affiliation order; `hooksOf` gives an organization's
      webhook configuration. */
  function HookEffects(affs: seq<Affiliation>, hooksOf: string -> Webhooks, kind: WebhookKind): (es: seq<Effect>)
    ensures |es| <= |affs|
    ensures forall e :: e in es ==> e.Webhook? && e.kind == kind
  {
    if |affs| == 0 then []
    else
      var a := affs[|affs| - 1];
      HookEffects(affs[..|affs| - 1], hooksOf, kind)
      + (if a.rejectedAt.None? && HookOn(hooksOf(a.organization), kind) then [Webhook(kind, a.organization)] else [])
  }

  /** An organization is called exactly when one of its live affiliations has the webhook. */
  lemma {:induction false} HookEffectsExact(affs: seq<Affiliation>, hooksOf: string -> Webhooks, kind: WebhookKind, org: string)
    ensures Webhook(kind, org) in HookEffects(affs, hooksOf, kind) <==>
      exists i :: 0 <= i < |affs| && affs[i].organization == org && affs[i].rejectedAt.None? && HookOn(hooksOf(org), kind)
  {
    if |affs| > 0 {
      var n := |affs| - 1;
      HookEffectsExact(affs[..n], hooksOf, kind, org);
      if exists i :: 0 <= i < |affs| && affs[i].organization == org && affs[i].rejectedAt.None? && HookOn(hooksOf(org), kind) {
        var i :| 0 <= i < |affs| && affs[i].organization == org && affs[i].rejectedAt.None? && HookOn(hooksOf(org), kind);
        if i < n {
          assert affs[..n][i] == affs[i];
        }
      }
      if exists i :: 0 <= i < n && affs[..n][i].organization == org && affs[..n][i].rejectedAt.None? && HookOn(hooksOf(org), kind) {
        var i :| 0 <= i < n && affs[..n][i].organization == org && affs[..n][i].rejectedAt.None? && HookOn(hooksOf(org), kind);
        assert affs[..n][i] == affs[i];
      }
    }
  }

  /** The webhooks of one kind, unless the user type the operation gates on is HospitalApi. */
  function HookPart(user: Professional, gate: UserType, hooksOf: string -> Webhooks, kind: WebhookKind): (es: seq<Effect>)
    ensures forall e :: e in es ==> e.Webhook? && e.kind == kind
    ensures gate == HospitalApi ==> es == []
  {
    if gate != HospitalApi then HookEffects(AffiliationsOf(user), hooksOf, kind) else []
  }

  /** The deletes of a list of keys, in order. */
  function S3Deletes(keys: seq<string>): (es: seq<Effect>)
    ensures |es| == |keys|
    ensures forall e :: e in es ==> e.S3Delete?
  {
    if |keys| == 0 then [] else S3Deletes(keys[..|keys| - 1]) + [S3Delete(keys[|keys| - 1])]
  }

  /** The delete at each position is that of the key at the same position. */
  lemma {:induction false} S3DeletesAt(keys: seq<string>)
    ensures forall i :: 0 <= i < |keys| ==> S3Deletes(keys)[i] == S3Delete(keys[i])
  {
    if |keys| > 0 {
      S3DeletesAt(keys[..|keys| - 1]);
    }
  }

  /** A key is deleted exactly when it is one of the keys. */
  lemma S3DeletesExact(keys: seq<string>, key: string)
    ensures S3Delete(key) in S3Deletes(keys) <==> key in keys
  {
    S3DeletesAt(keys);
    if key in keys {
      var j :| 0 <= j < |keys| && keys[j] == key;
      assert S3Deletes(keys)[j] == S3Delete(key);
    }
  }

  /** The S3 objects deleted one by one, in key order. */
  method DeleteObjects(db: Backend, keys: seq<string>)
    modifies db
    ensures db.log == old(db.log) + S3Deletes(keys)
    ensures db.accounts == old(db.accounts)
  {
    var i := 0;
    while i < |keys|
      invariant 0 <= i <= |keys|
      invariant db.log == old(db.log) + S3Deletes(keys[..i])
      invariant db.accounts == old(db.accounts)
    {
      db.log := db.log + [S3Delete(keys[i])];
      assert keys[..i + 1][..i] == keys[..i];
      i := i + 1;
    }
    assert keys[..i] == keys;
  }

  /** The first write of a log whose prefix writes nothing is the write after that prefix. */
  lemma FirstWriteAfter(prefix: seq<Effect>, w: WriteKind, rest: seq<Effect>)
    requires forall e :: e in prefix ==> !e.Write?
    ensures FirstWrite(prefix + [Write(w)] + rest) == |prefix|
    decreases |prefix|
  {
    if |prefix| > 0 {
      FirstWriteAfter(prefix[1..], w, rest);
      assert (prefix + [Write(w)] + rest)[1..] == prefix[1..] + [Write(w)] + rest;
    }
  }

  /** A log made of a prefix of copies, staging deletes and notices, one
      write, and a rest without copies: the write is the first write, every
      copy precedes it and every S3 delete follows it. */
  lemma WriteSplits(prefix: seq<Effect>, wk: WriteKind, rest: seq<Effect>)
    requires forall e :: e in prefix ==> e.S3Copy? || e.StagingDelete? || e.Notify?
    requires forall e :: e in rest ==> !e.S3Copy?
    ensures var es := prefix + [Write(wk)] + rest;
      FirstWrite(es) == |prefix| && es[..|prefix|] == prefix && es[|prefix|] == Write(wk)
      && (forall i :: 0 <= i < |es| && es[i].S3Delete? ==> |prefix| < i)
      && (forall i :: 0 <= i < |es| && es[i].S3Copy? ==> i < |prefix|)
  {
    var es := prefix + [Write(wk)] + rest;
    FirstWriteAfter(prefix, wk, rest);
    assert es[..|prefix|] == prefix;
    forall i | 0 <= i < |es| && (es[i].S3Delete? || es[i].S3Copy?)
      ensures (es[i].S3Delete? ==> |prefix| < i) && (es[i].S3Copy? ==> i < |prefix|)
    {
      if i < |prefix| {
        assert es[i] in prefix;
      } else if i > |prefix| {
        assert es[i] == rest[i - |prefix| - 1];
        assert es[i] in rest;
      }
    }
  }

  lemma AppendAssoc(a: seq<Effect>, b: seq<Effect>, c: seq<Effect>)
    ensures a + b + c == a + (b + c)
  {
  }

  /** A log extended by four pieces one after the other is the log extended by the four together. */
  lemma Extend4(log: seq<Effect>, a: seq<Effect>, b: seq<Effect>, c: seq<Effect>, d: seq<Effect>)
    ensures log + a + b + c + d == log + (a + b + c + d)
  {
    AppendAssoc(log, a, b);
    AppendAssoc(log, a + b, c);
    AppendAssoc(log, a + b + c, d);
  }

  /** A log extended piece by piece is the log extended by the pieces together. */
  lemma Regroup(log: seq<Effect>, f: seq<Effect>, n: seq<Effect>, w: seq<Effect>, r: seq<Effect>)
    ensures log + f + n + w + r == log + ((f + n) + w + r)
  {
    AppendAssoc(log, f, n);
    AppendAssoc(log, f + n, w);
    AppendAssoc(log, f + n + w, r);
  }
}
