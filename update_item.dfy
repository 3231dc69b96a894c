/** `updateItem` and `deleteItem` (src/update/update.ts): one briefcase
    item is added, updated or deleted. The staged files are settled first,
    a license goes through verification, the record is written, and only
    then are the follow-ups issued: suspension, completion notices,
    webhooks and the deletion of superseded S3 objects. */
module BriefcaseItems {
  import opened Domain
  import opened ProfilePatches
  import opened Repository
  import opened FileAssets
  import opened LicenseVerification
  import opened ThirdPartyLinks
  import opened Completion
  import opened UpdateAccess
  import opened Strings

  /** The item sent: a license, which is verified, or any other item. */
  datatype ItemValue = LicenseItem(license: License) | OtherItem(item: BriefcaseItem)

  function ItemId(v: ItemValue): string
  {
    if v.LicenseItem? then v.license.id else v.item.id
  }

  datatype ItemRequest = ItemRequest(session: Session, userId: string, item: ItemValue, add: bool)

  /** What the operation reads: the stored professional, the session's user
      type when the session is someone else, the access decision, the file
      values and upload time of `updateFiles`, the lookups of the license
      branch, the persisted licenses (for an update), the record re-read by
      the completion send, and the organizations' webhook configuration. */
  datatype ItemWorld = ItemWorld(
    stored: Option<Professional>,
    found: Option<UserType>,
    hasAccess: bool,
    s3: S3Settings,
    secs: nat,
    files: seq<FileValue>,
    verify: VerifyInputs,
    test: (string, string) -> bool,
    persisted: seq<License>,
    reread: Option<Professional>,
    isPrn: bool,
    shareToken: string,
    hooksOf: string -> Webhooks)

  /** The item written, the flag that disables the daily Nursys check, and
      the item returned, which shows the user-facing verification text. */
  datatype ItemOutcome = ItemOutcome(written: ItemValue, disableNursys: bool, result: ItemValue)

  /** The kind of the record write. */
  function WriteKindOf(add: bool): WriteKind
  {
    if add then AddItem else UpdateItemWrite
  }

  /** What follows the record write at once: an added item with an id has
      its staging records deleted, then the audit entry is written. */
  function AfterWrite(add: bool, id: string): (es: seq<Effect>)
    ensures forall e :: e in es ==> e.StagingDelete? || e.Audit?
    ensures StagingDelete(id) in es <==> add && id != ""
  {
    if add then (if id != "" then [StagingDelete(id)] else []) + [Audit(UserItemAdded)]
    else [Audit(UserItemUpdated)]
  }

  /** The returned item shows a non-empty user-facing text in place of the stored one. */
  function Shown(written: ItemValue, userText: Option<string>): ItemValue
  {
    if written.LicenseItem? && userText.Some? && userText.value != "" then LicenseItem(written.license.(verificationText := userText))
    else written
  }

  /** A notice of the license branch: one to support or to the configured address. */
  predicate VerificationNotice(e: Effect)
  {
    e.Notify? && (e.template == NursysSuccessVerifyLicense || e.template == NursysFailureVerifyLicense || e.template == NursysManualVerificationRequired)
  }

  /** The verdict of the license branch; `None` for other items. */
  function VerdictOf(req: ItemRequest, w: ItemWorld): (r: Result<Option<Verdict>>)
    ensures r.Ok? && r.value.Some? ==> req.item.LicenseItem? && forall e :: e in r.value.value.notices ==> VerificationNotice(e)
    ensures r.Err? <==> req.item.LicenseItem? && Verify(req.item.license, w.verify, w.test).Err?
  {
    if req.item.OtherItem? then Ok(None)
    else
      var v := Verify(req.item.license, w.verify, w.test);
      if v.Err? then Err(v.error) else Ok(Some(v.value))
  }

  /** The suspension of a professional whose license failed verification. */
  function SuspendPart(suspend: bool): (es: seq<Effect>)
    ensures forall e :: e in es ==> e == Suspend || e.Audit?
    ensures Suspend in es <==> suspend
  {
    if suspend then [Suspend, Audit(UserSuspended)] else []
  }

  /** The follow-ups after the write, in the order they are issued: the
      suspension, the completion notices, the item webhooks, and the
      deletes of superseded S3 objects. */
  function FollowUps(user: Professional, acting: UserType, suspend: bool, w: ItemWorld, deleteKeys: seq<string>): seq<Effect>
  {
    SuspendPart(suspend) + PendingCompletion(user, w.reread, w.isPrn, w.shareToken) + HookPart(user, acting, w.hooksOf, ItemUpdatedHook) + S3Deletes(deleteKeys)
  }

  /** What the follow-ups hold: no copy or staging delete, a suspension
      exactly when asked for, no webhook for a HospitalApi user, and no
      completion notice once the stored briefcase is completed. */
  lemma FollowUpsFacts(user: Professional, acting: UserType, suspend: bool, w: ItemWorld, deleteKeys: seq<string>)
    ensures var es := FollowUps(user, acting, suspend, w, deleteKeys);
      (forall e :: e in es ==> !e.S3Copy? && !e.StagingDelete?)
      && (Suspend in es <==> suspend)
      && (acting == HospitalApi ==> forall e :: e in es ==> !e.Webhook?)
      && (CompletedAt(user).Some? ==> forall e :: e in es ==> e != Write(ShareBriefcase) && !(e.Notify? && e.template == BriefcaseCompletedToRecruiter))
  {
    var s := SuspendPart(suspend);
    var c := PendingCompletion(user, w.reread, w.isPrn, w.shareToken);
    var h := HookPart(user, acting, w.hooksOf, ItemUpdatedHook);
    var d := S3Deletes(deleteKeys);
    FollowUpsShape(s, c, h, d, suspend, acting == HospitalApi, CompletedAt(user).Some?);
  }

  /** The same facts for any four parts of the right kinds. */
  lemma FollowUpsShape(s: seq<Effect>, c: seq<Effect>, h: seq<Effect>, d: seq<Effect>, suspend: bool, api: bool, completed: bool)
    requires forall e :: e in s ==> e == Suspend || e.Audit?
    requires Suspend in s <==> suspend
    requires forall e :: e in c ==> e.Notify? || e == Write(ShareBriefcase)
    requires completed ==> c == []
    requires forall e :: e in h ==> e.Webhook?
    requires api ==> h == []
    requires forall e :: e in d ==> e.S3Delete?
    ensures var es := s + c + h + d;
      (forall e :: e in es ==> !e.S3Copy? && !e.StagingDelete?)
      && (Suspend in es <==> suspend)
      && (api ==> forall e :: e in es ==> !e.Webhook?)
      && (completed ==> forall e :: e in es ==> e != Write(ShareBriefcase) && !(e.Notify? && e.template == BriefcaseCompletedToRecruiter))
  {
  }

  /** The effects of a successful run, from its pieces. */
  function ItemEffects(req: ItemRequest, w: ItemWorld, acting: UserType, user: Professional, files: UpdatedFiles, v: Option<Verdict>): seq<Effect>
  {
    (files.effects + (if v.Some? then v.value.notices else []))
    + [Write(WriteKindOf(req.add))]
    + (AfterWrite(req.add, ItemId(req.item)) + FollowUps(user, acting, v.Some? && v.value.suspend, w, files.deleteKeys))
  }

  /** The item written: the verified license, which on an update keeps the
      persisted license's third-party links, or the item as sent. */
  function Written(req: ItemRequest, w: ItemWorld, v: Option<Verdict>): ItemValue
  {
    var item := if v.Some? then LicenseItem(v.value.license) else req.item;
    if !req.add && item.LicenseItem? then LicenseItem(CopyLicenseLinks(item.license, w.persisted)) else item
  }

  /** The whole operation. */
  function UpdateItemRun(req: ItemRequest, w: ItemWorld): Run<ItemOutcome>
  {
    var access := AccessCheck(req.session, req.userId, w.stored, w.found, w.hasAccess);
    if access.Err? then Run(Err(access.error), [])
    else
      var files := ProcessFiles(w.s3, w.stored.value.id, w.secs, w.files);
      var verdict := VerdictOf(req, w);
      if verdict.Err? then Run(Err(verdict.error), files.effects)
      else
        var v := verdict.value;
        var written := Written(req, w, v);
        Run(Ok(ItemOutcome(written, v.Some? && v.value.disableNursys, Shown(written, if v.Some? then v.value.userText else None))),
            ItemEffects(req, w, access.value, w.stored.value, files, v))
  }

  /** The follow-ups, issued one group after the other. */
  method IssueFollowUps(user: Professional, acting: UserType, suspend: bool, w: ItemWorld, deleteKeys: seq<string>) returns (work: seq<Effect>)
    ensures work == FollowUps(user, acting, suspend, w, deleteKeys)
  {
    work := [];
    if suspend {
      work := work + [Suspend, Audit(UserSuspended)];
    }
    assert work == SuspendPart(suspend);
    if CompletedAt(user).None? {
      var sent := SendCompletedNotifications(w.reread, w.isPrn, w.shareToken);
      work := work + sent;
    } else {
      assert work + [] == work;
    }
    assert work == SuspendPart(suspend) + PendingCompletion(user, w.reread, w.isPrn, w.shareToken);
    if acting != HospitalApi {
      work := work + HookEffects(AffiliationsOf(user), w.hooksOf, ItemUpdatedHook);
    } else {
      assert work + [] == work;
    }
    assert work == SuspendPart(suspend) + PendingCompletion(user, w.reread, w.isPrn, w.shareToken) + HookPart(user, acting, w.hooksOf, ItemUpdatedHook);
    work := work + S3Deletes(deleteKeys);
  }

  /** The write and what follows it, for an item that passed verification. */
  method WriteAndFollowUp(db: Backend, req: ItemRequest, w: ItemWorld, acting: UserType, user: Professional, deleteKeys: seq<string>, suspend: bool)
    modifies db
    ensures db.log == old(db.log) + [Write(WriteKindOf(req.add))] + (AfterWrite(req.add, ItemId(req.item)) + FollowUps(user, acting, suspend, w, deleteKeys))
    ensures db.accounts == old(db.accounts)
  {
    db.log := db.log + [Write(WriteKindOf(req.add))];
    ghost var written := db.log;
    if req.add {
      if ItemId(req.item) != "" {
        db.log := db.log + [StagingDelete(ItemId(req.item))];
      }
      db.log := db.log + [Audit(UserItemAdded)];
    } else {
      db.log := db.log + [Audit(UserItemUpdated)];
    }
    assert db.log == written + AfterWrite(req.add, ItemId(req.item));
    var work := IssueFollowUps(user, acting, suspend, w, deleteKeys);
    db.log := db.log + work;
    AppendAssoc(written, AfterWrite(req.add, ItemId(req.item)), work);
  }

  /** `updateItem`, step by step, issuing its effects to the backend log. */
  method UpdateItem(db: Backend, req: ItemRequest, w: ItemWorld) returns (r: Result<ItemOutcome>)
    modifies db
    ensures r == UpdateItemRun(req, w).result
    ensures db.log == old(db.log) + UpdateItemRun(req, w).effects
    ensures db.accounts == old(db.accounts)
  {
    var access := AccessCheck(req.session, req.userId, w.stored, w.found, w.hasAccess);
    if access.Err? {
      return Err(access.error);
    }
    var user := w.stored.value;
    var files := UpdateFiles(w.s3, user.id, w.secs, w.files);
    db.log := db.log + files.effects;
    var item := req.item;
    var verdict: Option<Verdict> := None;
    var notices: seq<Effect> := [];
    if item.LicenseItem? {
      var decided := DecideVerification(item.license, w.verify, w.test);
      if decided.Err? {
        return Err(decided.error);
      }
      verdict := Some(decided.value);
      item := LicenseItem(decided.value.license);
      notices := decided.value.notices;
    }
    db.log := db.log + notices;
    if !req.add && item.LicenseItem? {
      item := LicenseItem(CopyLicenseLinks(item.license, w.persisted));
    }
    assert VerdictOf(req, w) == Ok(verdict);
    WriteAndFollowUp(db, req, w, access.value, user, files.deleteKeys, verdict.Some? && verdict.value.suspend);
    Regroup(old(db.log), files.effects, notices, [Write(WriteKindOf(req.add))],
      AfterWrite(req.add, ItemId(req.item)) + FollowUps(user, access.value, verdict.Some? && verdict.value.suspend, w, files.deleteKeys));
    var userText := if verdict.Some? then verdict.value.userText else None;
    r := Ok(ItemOutcome(item, verdict.Some? && verdict.value.disableNursys, Shown(item, userText)));
  }

  /** A failed access check issues nothing. */
  lemma ItemAccessFailureIssuesNothing(req: ItemRequest, w: ItemWorld)
    requires AccessCheck(req.session, req.userId, w.stored, w.found, w.hasAccess).Err?
    ensures UpdateItemRun(req, w).effects == []
    ensures UpdateItemRun(req, w).result.error in {UserNotFound, Unauthorized}
  {
  }

  /** The pieces of a successful run. */
  lemma ItemRunPieces(req: ItemRequest, w: ItemWorld) returns (acting: UserType, files: UpdatedFiles, v: Option<Verdict>)
    requires UpdateItemRun(req, w).result.Ok?
    ensures acting == AccessCheck(req.session, req.userId, w.stored, w.found, w.hasAccess).value
    ensures files == ProcessFiles(w.s3, w.stored.value.id, w.secs, w.files)
    ensures forall e :: e in files.effects ==> e.S3Copy? || e.StagingDelete?
    ensures VerdictOf(req, w) == Ok(v)
    ensures v.Some? ==> forall e :: e in v.value.notices ==> VerificationNotice(e)
    ensures UpdateItemRun(req, w).effects == ItemEffects(req, w, acting, w.stored.value, files, v)
  {
    acting := AccessCheck(req.session, req.userId, w.stored, w.found, w.hasAccess).value;
    files := ProcessFiles(w.s3, w.stored.value.id, w.secs, w.files);
    v := VerdictOf(req, w).value;
  }

  /** The order of the effects of any successful run, whatever its pieces. */
  lemma EffectsOrder(req: ItemRequest, w: ItemWorld, acting: UserType, user: Professional, files: UpdatedFiles, v: Option<Verdict>)
    requires forall e :: e in files.effects ==> e.S3Copy? || e.StagingDelete?
    requires v.Some? ==> forall e :: e in v.value.notices ==> VerificationNotice(e)
    ensures var es := ItemEffects(req, w, acting, user, files, v);
      var k := FirstWrite(es);
      k < |es| && es[k] == Write(WriteKindOf(req.add))
      && (forall i :: 0 <= i < |es| && es[i].S3Delete? ==> k < i)
      && (forall i :: 0 <= i < |es| && es[i].S3Copy? ==> i < k)
      && StagingDeletes(es[..k]) == StagingDeletes(files.effects)
  {
    var notices := if v.Some? then v.value.notices else [];
    var prefix := files.effects + notices;
    var rest := AfterWrite(req.add, ItemId(req.item)) + FollowUps(user, acting, v.Some? && v.value.suspend, w, files.deleteKeys);
    assert ItemEffects(req, w, acting, user, files, v) == prefix + [Write(WriteKindOf(req.add))] + rest;
    FollowUpsFacts(user, acting, v.Some? && v.value.suspend, w, files.deleteKeys);
    WriteSplits(prefix, WriteKindOf(req.add), rest);
    NoStagingDeletes(notices);
    StagingDeletesAppend(files.effects, notices);
  }

  /** Ordering: staged files are copied and their staging records deleted
      before the record write, and superseded S3 objects are deleted only
      after it. */
  lemma ItemWriteOrder(req: ItemRequest, w: ItemWorld)
    requires UpdateItemRun(req, w).result.Ok?
    ensures var es := UpdateItemRun(req, w).effects;
      var k := FirstWrite(es);
      k < |es| && es[k] == Write(WriteKindOf(req.add))
      && (forall i :: 0 <= i < |es| && es[i].S3Delete? ==> k < i)
      && (forall i :: 0 <= i < |es| && es[i].S3Copy? ==> i < k)
      && StagingDeletes(es[..k]) == UploadIds(w.files)
  {
    var acting, files, v := ItemRunPieces(req, w);
    EffectsOrder(req, w, acting, w.stored.value, files, v);
    EveryUploadIsCleared(w.s3, w.stored.value.id, w.secs, w.files);
  }

  /** Around a record write, a prefix of file effects and verification
      notices and the write's own staging delete and audit add no
      suspension, webhook, share or recruiter notice: those of the whole
      log are those of the follow-ups. */
  lemma GatesOf(prefix: seq<Effect>, wk: WriteKind, after: seq<Effect>, follow: seq<Effect>)
    requires forall e :: e in prefix ==> e.S3Copy? || e.StagingDelete? || VerificationNotice(e)
    requires forall e :: e in after ==> e.StagingDelete? || e.Audit?
    requires wk != ShareBriefcase
    ensures var es := prefix + [Write(wk)] + (after + follow);
      (Suspend in es <==> Suspend in follow)
      && ((forall e :: e in follow ==> !e.Webhook?) ==> forall e :: e in es ==> !e.Webhook?)
      && ((forall e :: e in follow ==> e != Write(ShareBriefcase) && !(e.Notify? && e.template == BriefcaseCompletedToRecruiter)) ==>
          forall e :: e in es ==> e != Write(ShareBriefcase) && !(e.Notify? && e.template == BriefcaseCompletedToRecruiter))
  {
  }

  /** The gates of any successful run, whatever its pieces. */
  lemma EffectsGates(req: ItemRequest, w: ItemWorld, acting: UserType, user: Professional, files: UpdatedFiles, v: Option<Verdict>)
    requires forall e :: e in files.effects ==> e.S3Copy? || e.StagingDelete?
    requires v.Some? ==> forall e :: e in v.value.notices ==> VerificationNotice(e)
    ensures var es := ItemEffects(req, w, acting, user, files, v);
      (Suspend in es <==> v.Some? && v.value.suspend)
      && (acting == HospitalApi ==> forall e :: e in es ==> !e.Webhook?)
      && (CompletedAt(user).Some? ==> forall e :: e in es ==> e != Write(ShareBriefcase) && !(e.Notify? && e.template == BriefcaseCompletedToRecruiter))
  {
    var notices := if v.Some? then v.value.notices else [];
    FollowUpsFacts(user, acting, v.Some? && v.value.suspend, w, files.deleteKeys);
    GatesOf(files.effects + notices, WriteKindOf(req.add), AfterWrite(req.add, ItemId(req.item)),
      FollowUps(user, acting, v.Some? && v.value.suspend, w, files.deleteKeys));
  }

  /** The professional is suspended only by the license branch, exactly when its verdict says so. */
  lemma SuspendOnlyFromVerdict(req: ItemRequest, w: ItemWorld)
    requires UpdateItemRun(req, w).result.Ok?
    ensures Suspend in UpdateItemRun(req, w).effects <==>
      req.item.LicenseItem? && Verify(req.item.license, w.verify, w.test).value.suspend
  {
    var acting, files, v := ItemRunPieces(req, w);
    EffectsGates(req, w, acting, w.stored.value, files, v);
  }

  /** An update of a license writes it with the persisted license's links;
      everything else about the written license is the verdict's. */
  lemma LicenseUpdateKeepsPersistedLinks(req: ItemRequest, w: ItemWorld)
    requires UpdateItemRun(req, w).result.Ok? && !req.add && req.item.LicenseItem?
    ensures var o := UpdateItemRun(req, w).result.value;
      var verified := Verify(req.item.license, w.verify, w.test).value.license;
      o.written == LicenseItem(CopyLicenseLinks(verified, w.persisted))
      && o.written.license == verified.(thirdPartySystems := o.written.license.thirdPartySystems)
      && o.written.license.id == req.item.license.id
  {
  }

  /** An acting HospitalApi user triggers no webhook, and the completion
      notices go out only when the stored briefcase was not yet completed. */
  lemma ItemFollowUpGates(req: ItemRequest, w: ItemWorld)
    requires UpdateItemRun(req, w).result.Ok?
    ensures AccessCheck(req.session, req.userId, w.stored, w.found, w.hasAccess).value == HospitalApi ==>
      forall e :: e in UpdateItemRun(req, w).effects ==> !e.Webhook?
    ensures CompletedAt(w.stored.value).Some? ==>
      forall e :: e in UpdateItemRun(req, w).effects ==> e != Write(ShareBriefcase) && !(e.Notify? && e.template == BriefcaseCompletedToRecruiter)
  {
    var acting, files, v := ItemRunPieces(req, w);
    EffectsGates(req, w, acting, w.stored.value, files, v);
  }

  datatype DeleteRequest = DeleteRequest(session: Session, userId: string, itemId: string)

  /** What `deleteItem` reads: as for an update, plus the values of the
      deleted item's file URL fields. */
  datatype DeleteWorld = DeleteWorld(
    stored: Option<Professional>,
    found: Option<UserType>,
    hasAccess: bool,
    s3: S3Settings,
    secs: nat,
    files: seq<FileValue>,
    itemUrls: seq<Option<string>>,
    hooksOf: string -> Webhooks)

  /** The effects of a successful delete, from its pieces: the settled
      files, the record write and its audit entry, the object deletes, and
      the item webhooks unless a HospitalApi user acts. */
  function DeleteEffects(w: DeleteWorld, acting: UserType, user: Professional, files: UpdatedFiles, keys: seq<string>): seq<Effect>
  {
    files.effects
    + [Write(DeleteItemWrite)]
    + ([Audit(UserItemDeleted)] + S3Deletes(keys)
       + HookPart(user, acting, w.hooksOf, ItemDeletedHook))
  }

  /** The whole `deleteItem`. */
  function DeleteItemRun(req: DeleteRequest, w: DeleteWorld): Run<()>
  {
    var access := AccessCheck(req.session, req.userId, w.stored, w.found, w.hasAccess);
    if access.Err? then Run(Err(access.error), [])
    else
      var files := ProcessFiles(w.s3, w.stored.value.id, w.secs, w.files);
      Run(Ok(()), DeleteEffects(w, access.value, w.stored.value, files, files.deleteKeys + ItemFileKeys(w.s3, w.itemUrls)))
  }

  /** The write, the object deletes one by one, and the webhooks. */
  method WriteAndDelete(db: Backend, w: DeleteWorld, acting: UserType, user: Professional, keys: seq<string>)
    modifies db
    ensures db.log == old(db.log) + [Write(DeleteItemWrite)] + ([Audit(UserItemDeleted)] + S3Deletes(keys)
       + HookPart(user, acting, w.hooksOf, ItemDeletedHook))
    ensures db.accounts == old(db.accounts)
  {
    db.log := db.log + [Write(DeleteItemWrite), Audit(UserItemDeleted)];
    DeleteObjects(db, keys);
    if acting != HospitalApi {
      db.log := db.log + HookEffects(AffiliationsOf(user), w.hooksOf, ItemDeletedHook);
    } else {
      assert db.log + [] == db.log;
    }
  }

  /** `deleteItem`, step by step. */
  method DeleteItem(db: Backend, req: DeleteRequest, w: DeleteWorld) returns (r: Result<()>)
    modifies db
    ensures r == DeleteItemRun(req, w).result
    ensures db.log == old(db.log) + DeleteItemRun(req, w).effects
    ensures db.accounts == old(db.accounts)
  {
    var access := AccessCheck(req.session, req.userId, w.stored, w.found, w.hasAccess);
    if access.Err? {
      return Err(access.error);
    }
    var user := w.stored.value;
    var files := UpdateFiles(w.s3, user.id, w.secs, w.files);
    db.log := db.log + files.effects;
    var keys := CollectItemKeys(w.s3, files.deleteKeys, w.itemUrls);
    WriteAndDelete(db, w, access.value, user, keys);
    r := Ok(());
  }

  /** The order of any successful delete, whatever its pieces. */
  lemma DeleteEffectsOrder(w: DeleteWorld, acting: UserType, user: Professional, files: UpdatedFiles, keys: seq<string>)
    requires forall e :: e in files.effects ==> e.S3Copy? || e.StagingDelete?
    ensures var es := DeleteEffects(w, acting, user, files, keys);
      var k := FirstWrite(es);
      k == |files.effects| && es[k] == Write(DeleteItemWrite)
      && (forall i :: 0 <= i < |es| && es[i].S3Delete? ==> k < i && es[i].key in keys)
      && (forall j :: 0 <= j < |keys| ==> es[k + 2 + j] == S3Delete(keys[j]))
  {
    var hooks := HookPart(user, acting, w.hooksOf, ItemDeletedHook);
    var rest := [Audit(UserItemDeleted)] + S3Deletes(keys) + hooks;
    var es := DeleteEffects(w, acting, user, files, keys);
    WriteSplits(files.effects, DeleteItemWrite, rest);
    S3DeletesAt(keys);
    var k := |files.effects|;
    forall i | k + 2 + |keys| <= i < |es|
      ensures es[i].Webhook?
    {
      assert es[i] == hooks[i - k - 2 - |keys|];
      assert es[i] in hooks;
    }
    forall i | k + 2 <= i < k + 2 + |keys|
      ensures es[i] == S3Delete(keys[i - k - 2])
    {
      assert es[i] == S3Deletes(keys)[i - k - 2];
    }
  }

  /** A delete writes first, then deletes objects, all of them in the upload
      folder: those superseded by `updateFiles` and the deleted item's own files. */
  lemma DeleteOrder(req: DeleteRequest, w: DeleteWorld)
    requires DeleteItemRun(req, w).result.Ok?
    ensures var es := DeleteItemRun(req, w).effects;
      var k := FirstWrite(es);
      k < |es| && es[k] == Write(DeleteItemWrite)
      && (forall i :: 0 <= i < |es| && es[i].S3Delete? ==> k < i && StartsWith(es[i].key, w.s3.uploadFolder))
      && (forall v :: v in w.itemUrls && Managed(w.s3, v) ==> S3Delete(KeyOf(w.s3, v.value)) in es)
  {
    var access := AccessCheck(req.session, req.userId, w.stored, w.found, w.hasAccess);
    var files := ProcessFiles(w.s3, w.stored.value.id, w.secs, w.files);
    var keys := files.deleteKeys + ItemFileKeys(w.s3, w.itemUrls);
    var es := DeleteItemRun(req, w).effects;
    assert es == DeleteEffects(w, access.value, w.stored.value, files, keys);
    DeleteEffectsOrder(w, access.value, w.stored.value, files, keys);
    DeletesStayInUploadFolder(w.s3, w.stored.value.id, w.secs, w.files);
    ItemFileKeysExact(w.s3, w.itemUrls);
    forall v | v in w.itemUrls && Managed(w.s3, v)
      ensures S3Delete(KeyOf(w.s3, v.value)) in es
    {
      var key := KeyOf(w.s3, v.value);
      assert key in keys;
      var j :| 0 <= j < |keys| && keys[j] == key;
      assert es[|files.effects| + 2 + j] == S3Delete(key);
    }
  }
}
