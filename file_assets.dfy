/** `updateFiles` and the key collection of `deleteItem`
    (src/update/update.ts): staged uploads are copied to a permanent key
    under the upload folder, the field is rewritten to that key's URL, the
    key a field used to point to is scheduled for deletion, and the staging
    record is deleted. */
module FileAssets {
  import opened Domain
  import opened Strings

  /** The S3 settings the keys are built from. */
  datatype S3Settings = S3Settings(s3Url: string, uploadFolder: string)

  /** The file field's configuration: whether its key carries the parent
      item's id, whether old versions are kept, and whether it has an
      upload-date field. */
  datatype FileField = FileField(hasId: bool, history: bool, uploadedAtField: bool)

  /** A staging record of an uploaded file. */
  datatype Upload = Upload(uploadId: string, url: string, path: string, uploadedAt: Time)

  /** One file field occurrence, paired by `setFileValues` with its staging
      upload if any: the parent item's id, the generated file name, the
      field's current value when it is a string, and the upload-date field. */
  datatype FileValue = FileValue(
    file: FileField,
    parentId: string,
    fileName: string,
    value: Option<string>,
    uploadedAt: Option<Time>,
    upload: Option<Upload>)

  datatype UpdatedItem = UpdatedItem(url: string, path: string, parentId: string)

  /** The outcome: keys to delete after the write, items for the
      file-uploaded webhook, the file values as rewritten, and the S3 copies
      and staging deletes issued on the way. */
  datatype UpdatedFiles = UpdatedFiles(deleteKeys: seq<string>, updatedItems: seq<UpdatedItem>, values: seq<FileValue>, effects: seq<Effect>)

  /** `url.substring(url.lastIndexOf('.'))`: the extension with its dot, or
      the whole URL when it has no dot. */
  function Extension(url: string): (ext: string)
    ensures '.' in url ==> |ext| > 0 && ext[0] == '.' && '.' !in ext[1..]
    ensures '.' !in url ==> ext == url
  {
    var k := LastIndexOf(url, '.');
    var ext := SubstringFrom(url, k);
    assert k >= 0 ==> ext[1..] == url[k + 1..];
    ext
  }

  /** The id segment of a key: `/<item id>` for fields that carry one. */
  function IdSegment(fv: FileValue): string
  {
    if fv.file.hasId then "/" + fv.parentId else ""
  }

  /** The permanent key `folder/userId[/itemId]/secs/fileName.ext`. */
  function ToKey(s: S3Settings, userId: string, secs: nat, fv: FileValue): string
    requires fv.upload.Some?
  {
    s.uploadFolder + ("/" + (userId + (IdSegment(fv) + ("/" + (NatToString(secs) + ("/" + (fv.fileName + Extension(fv.upload.value.url))))))))
  }

  /** A value that is a URL of this bucket's upload folder. */
  predicate Managed(s: S3Settings, value: Option<string>)
  {
    value.Some? && StartsWith(value.value, s.s3Url + s.uploadFolder)
  }

  /** The key a managed URL names. */
  function KeyOf(s: S3Settings, url: string): string
  {
    SubstringFrom(url, |s.s3Url|)
  }

  /** One field with an upload: delete its old key when the field held a
      managed URL with a different key and keeps no history; copy and report
      it only when the staged key differs from the permanent one; always
      rewrite the field and delete the staging record. */
  function ProcessFile(s: S3Settings, userId: string, secs: nat, fv: FileValue): (r: UpdatedFiles)
  {
    if fv.upload.None? then UpdatedFiles([], [], [fv], [])
    else
      var up := fv.upload.value;
      var toKey := ToKey(s, userId, secs, fv);
      var fromKey := KeyOf(s, up.url);
      var oldKey := if fv.value.Some? then KeyOf(s, fv.value.value) else "";
      var copied := fromKey != toKey;
      UpdatedFiles(
        if Managed(s, fv.value) && toKey != oldKey && !fv.file.history then [oldKey] else [],
        if copied then [UpdatedItem(s.s3Url + toKey, up.path, fv.parentId)] else [],
        [fv.(value := Some(s.s3Url + toKey), uploadedAt := if fv.file.uploadedAtField then Some(up.uploadedAt) else fv.uploadedAt)],
        (if copied then [S3Copy(toKey)] else []) + [StagingDelete(up.uploadId)])
  }

  function Append(a: UpdatedFiles, b: UpdatedFiles): UpdatedFiles
  {
    UpdatedFiles(a.deleteKeys + b.deleteKeys, a.updatedItems + b.updatedItems, a.values + b.values, a.effects + b.effects)
  }

  /** The whole pass, field by field in order. */
  function ProcessFiles(s: S3Settings, userId: string, secs: nat, fvs: seq<FileValue>): (r: UpdatedFiles)
    ensures |r.values| == |fvs|
    ensures forall e :: e in r.effects ==> e.S3Copy? || e.StagingDelete?
  {
    if |fvs| == 0 then UpdatedFiles([], [], [], [])
    else Append(ProcessFiles(s, userId, secs, fvs[..|fvs| - 1]), ProcessFile(s, userId, secs, fvs[|fvs| - 1]))
  }

  /** The body of the loop of `updateFiles` for one field. */
  method ProcessField(s: S3Settings, userId: string, secs: nat, fv: FileValue) returns (r: UpdatedFiles)
    ensures r == ProcessFile(s, userId, secs, fv)
  {
    var deleteKeys: seq<string> := [];
    var updatedItems: seq<UpdatedItem> := [];
    var effects: seq<Effect> := [];
    var item := fv;
    if fv.upload.Some? {
      var up := fv.upload.value;
      var toKey := ToKey(s, userId, secs, fv);
      var fromKey := KeyOf(s, up.url);
      if fv.value.Some? && StartsWith(fv.value.value, s.s3Url + s.uploadFolder) {
        var oldKey := KeyOf(s, fv.value.value);
        if toKey != oldKey && !fv.file.history {
          deleteKeys := deleteKeys + [oldKey];
        }
      }
      if fromKey != toKey {
        effects := effects + [S3Copy(toKey)];
        updatedItems := updatedItems + [UpdatedItem(s.s3Url + toKey, up.path, fv.parentId)];
      }
      item := item.(value := Some(s.s3Url + toKey));
      if fv.file.uploadedAtField {
        item := item.(uploadedAt := Some(up.uploadedAt));
      }
      effects := effects + [StagingDelete(up.uploadId)];
    }
    r := UpdatedFiles(deleteKeys, updatedItems, [item], effects);
  }

  /** The loop of `updateFiles`. `secs` is the upload time in seconds. */
  method UpdateFiles(s: S3Settings, userId: string, secs: nat, fvs: seq<FileValue>) returns (r: UpdatedFiles)
    ensures r == ProcessFiles(s, userId, secs, fvs)
  {
    r := UpdatedFiles([], [], [], []);
    var i := 0;
    while i < |fvs|
      invariant 0 <= i <= |fvs|
      invariant r == ProcessFiles(s, userId, secs, fvs[..i])
    {
      var step := ProcessField(s, userId, secs, fvs[i]);
      r := UpdatedFiles(r.deleteKeys + step.deleteKeys, r.updatedItems + step.updatedItems, r.values + step.values, r.effects + step.effects);
      assert fvs[..i + 1][..i] == fvs[..i];
      i := i + 1;
    }
    assert fvs[..i] == fvs;
  }

  /** Every key lies in the user's own folder. */
  lemma KeyInUserFolder(s: S3Settings, userId: string, secs: nat, fv: FileValue)
    requires fv.upload.Some?
    ensures StartsWith(ToKey(s, userId, secs, fv), s.uploadFolder + "/" + userId + "/")
  {
    var rest := NatToString(secs) + ("/" + (fv.fileName + Extension(fv.upload.value.url)));
    var tail := IdSegment(fv) + ("/" + rest);
    assert ToKey(s, userId, secs, fv) == (s.uploadFolder + "/" + userId) + tail;
    if fv.file.hasId {
      assert tail == "/" + (fv.parentId + ("/" + rest));
    } else {
      assert tail == "/" + rest;
    }
  }

  /** A rewritten field holds a managed URL whose key is the permanent key. */
  lemma RewrittenFieldIsManaged(s: S3Settings, userId: string, secs: nat, fv: FileValue)
    requires fv.upload.Some?
    ensures var v := ProcessFile(s, userId, secs, fv).values[0];
      Managed(s, v.value) && KeyOf(s, v.value.value) == ToKey(s, userId, secs, fv)
  {
    var toKey := ToKey(s, userId, secs, fv);
    assert toKey == s.uploadFolder + ("/" + (userId + (IdSegment(fv) + ("/" + (NatToString(secs) + ("/" + (fv.fileName + Extension(fv.upload.value.url))))))));
    assert (s.s3Url + toKey)[..|s.s3Url + s.uploadFolder|] == s.s3Url + s.uploadFolder;
    assert (s.s3Url + toKey)[|s.s3Url|..] == toKey;
  }

  /** Two decimal renderings that differ stay different when each is
      followed by a slash and anything. */
  lemma DifferentSeconds(a: nat, b: nat, x: string, y: string)
    requires a != b
    ensures NatToString(a) + ("/" + x) != NatToString(b) + ("/" + y)
  {
    NatToStringInjective(a, b);
    var p, q := NatToString(a), NatToString(b);
    if |p| == |q| {
      var k :| 0 <= k < |p| && p[k] != q[k];
      assert (p + ("/" + x))[k] == p[k];
      assert (q + ("/" + y))[k] == q[k];
    } else if |p| < |q| {
      assert (p + ("/" + x))[|p|] == '/';
      assert (q + ("/" + y))[|p|] == q[|p|];
    } else {
      assert (q + ("/" + y))[|q|] == '/';
      assert (p + ("/" + x))[|q|] == p[|q|];
    }
  }

  /** Keys made in different seconds differ, whatever the file names. */
  lemma KeysOfDifferentSecondsDiffer(s: S3Settings, userId: string, a: nat, b: nat, fv: FileValue, gv: FileValue)
    requires fv.upload.Some? && gv.upload.Some? && a != b
    requires fv.file.hasId == gv.file.hasId && fv.parentId == gv.parentId
    ensures ToKey(s, userId, a, fv) != ToKey(s, userId, b, gv)
  {
    var x := fv.fileName + Extension(fv.upload.value.url);
    var y := gv.fileName + Extension(gv.upload.value.url);
    DifferentSeconds(a, b, x, y);
    var p := s.uploadFolder + ("/" + (userId + (IdSegment(fv) + "/")));
    assert ToKey(s, userId, a, fv) == p + (NatToString(a) + ("/" + x));
    assert ToKey(s, userId, b, gv) == p + (NatToString(b) + ("/" + y));
    assert ToKey(s, userId, a, fv)[|p|..] == NatToString(a) + ("/" + x);
    assert ToKey(s, userId, b, gv)[|p|..] == NatToString(b) + ("/" + y);
  }

  /** Replacing a file in a later second deletes the object the first
      upload was copied to, unless the field keeps history; re-uploading
      in the same second with the same extension deletes nothing. */
  lemma ReplacementDeletesPrevious(s: S3Settings, userId: string, a: nat, b: nat, fv: FileValue, next: Upload)
    requires fv.upload.Some?
    ensures var first := ProcessFile(s, userId, a, fv).values[0];
      var second := ProcessFile(s, userId, b, first.(upload := Some(next)));
      (a != b && !fv.file.history ==> second.deleteKeys == [ToKey(s, userId, a, fv)])
      && (a == b && Extension(next.url) == Extension(fv.upload.value.url) ==> second.deleteKeys == [])
      && (fv.file.history ==> second.deleteKeys == [])
  {
    RewrittenFieldIsManaged(s, userId, a, fv);
    var first := ProcessFile(s, userId, a, fv).values[0];
    var again := first.(upload := Some(next));
    if a != b {
      KeysOfDifferentSecondsDiffer(s, userId, a, b, fv, again);
    }
  }

  /** Only keys of the upload folder are ever scheduled for deletion, and
      each upload issues exactly one staging delete. */
  lemma {:induction false} DeletesStayInUploadFolder(s: S3Settings, userId: string, secs: nat, fvs: seq<FileValue>)
    ensures var r := ProcessFiles(s, userId, secs, fvs);
      forall k :: k in r.deleteKeys ==> StartsWith(k, s.uploadFolder)
  {
    if |fvs| > 0 {
      DeletesStayInUploadFolder(s, userId, secs, fvs[..|fvs| - 1]);
      var fv := fvs[|fvs| - 1];
      if Managed(s, fv.value) {
        var v := fv.value.value;
        assert KeyOf(s, v)[..|s.uploadFolder|] == v[|s.s3Url|..|s.s3Url + s.uploadFolder|];
      }
    }
  }

  /** Field by field, a value with an upload is rewritten to its permanent
      URL and every other value is left as it was. */
  lemma {:induction false} FilesRewritten(s: S3Settings, userId: string, secs: nat, fvs: seq<FileValue>, i: int)
    requires 0 <= i < |fvs|
    ensures var v := ProcessFiles(s, userId, secs, fvs).values[i];
      if fvs[i].upload.Some? then v.value == Some(s.s3Url + ToKey(s, userId, secs, fvs[i])) && v.upload == fvs[i].upload
      else v == fvs[i]
  {
    if i < |fvs| - 1 {
      FilesRewritten(s, userId, secs, fvs[..|fvs| - 1], i);
    }
  }

  /** The staging records deleted, in order. */
  function StagingDeletes(effects: seq<Effect>): seq<string>
  {
    if |effects| == 0 then []
    else (if effects[|effects| - 1].StagingDelete? then StagingDeletes(effects[..|effects| - 1]) + [effects[|effects| - 1].uploadId]
          else StagingDeletes(effects[..|effects| - 1]))
  }

  lemma StagingDeletesAppend(a: seq<Effect>, b: seq<Effect>)
    ensures StagingDeletes(a + b) == StagingDeletes(a) + StagingDeletes(b)
    decreases |b|
  {
    if |b| > 0 {
      StagingDeletesAppend(a, b[..|b| - 1]);
      assert (a + b)[..|a + b| - 1] == a + b[..|b| - 1];
      assert (a + b)[|a + b| - 1] == b[|b| - 1];
    } else {
      assert a + b == a;
    }
  }

  lemma {:induction false} NoStagingDeletes(effects: seq<Effect>)
    requires forall e :: e in effects ==> !e.StagingDelete?
    ensures StagingDeletes(effects) == []
  {
    if |effects| > 0 {
      NoStagingDeletes(effects[..|effects| - 1]);
    }
  }

  /** The ids of the uploads, in order. */
  function UploadIds(fvs: seq<FileValue>): seq<string>
  {
    if |fvs| == 0 then []
    else UploadIds(fvs[..|fvs| - 1]) + (if fvs[|fvs| - 1].upload.Some? then [fvs[|fvs| - 1].upload.value.uploadId] else [])
  }

  /** Every staging record paired with a field is deleted, once, in field order. */
  lemma {:induction false} EveryUploadIsCleared(s: S3Settings, userId: string, secs: nat, fvs: seq<FileValue>)
    ensures StagingDeletes(ProcessFiles(s, userId, secs, fvs).effects) == UploadIds(fvs)
  {
    if |fvs| > 0 {
      EveryUploadIsCleared(s, userId, secs, fvs[..|fvs| - 1]);
      var last := ProcessFile(s, userId, secs, fvs[|fvs| - 1]);
      StagingDeletesAppend(ProcessFiles(s, userId, secs, fvs[..|fvs| - 1]).effects, last.effects);
      if fvs[|fvs| - 1].upload.Some? {
        var e := last.effects;
        assert e[..|e| - 1] == [] || e[..|e| - 1] == [S3Copy(ToKey(s, userId, secs, fvs[|fvs| - 1]))];
        assert StagingDeletes(e[..|e| - 1]) == [];
      }
    }
  }

  /** The keys `deleteItem` adds for the deleted item's file URLs: each
      value under the upload folder, without the bucket URL. */
  function ItemFileKeys(s: S3Settings, values: seq<Option<string>>): (keys: seq<string>)
    ensures |keys| <= |values|
    ensures forall k :: k in keys ==> StartsWith(k, s.uploadFolder)
  {
    if |values| == 0 then []
    else
      var rest := ItemFileKeys(s, values[..|values| - 1]);
      var v := values[|values| - 1];
      if Managed(s, v) then
        assert KeyOf(s, v.value)[..|s.uploadFolder|] == v.value[|s.s3Url|..|s.s3Url + s.uploadFolder|];
        rest + [KeyOf(s, v.value)]
      else rest
  }

  /** The key collection loop of `deleteItem`, appended to the keys from `updateFiles`. */
  method CollectItemKeys(s: S3Settings, deleteKeys: seq<string>, values: seq<Option<string>>) returns (keys: seq<string>)
    ensures keys == deleteKeys + ItemFileKeys(s, values)
  {
    keys := deleteKeys;
    var i := 0;
    while i < |values|
      invariant 0 <= i <= |values|
      invariant keys == deleteKeys + ItemFileKeys(s, values[..i])
    {
      var v := values[i];
      if v.Some? && StartsWith(v.value, s.s3Url + s.uploadFolder) {
        keys := keys + [KeyOf(s, v.value)];
      }
      assert values[..i + 1][..i] == values[..i];
      i := i + 1;
    }
    assert values[..i] == values;
  }

  /** A managed value is collected as its key; anything else is not. */
  lemma {:induction false} ItemFileKeysExact(s: S3Settings, values: seq<Option<string>>)
    ensures forall v :: v in values && Managed(s, v) ==> KeyOf(s, v.value) in ItemFileKeys(s, values)
    ensures |ItemFileKeys(s, values)| == |set i | 0 <= i < |values| && Managed(s, values[i])|
  {
    if |values| > 0 {
      var init := values[..|values| - 1];
      ItemFileKeysExact(s, init);
      var n := |values| - 1;
      var A := set i | 0 <= i < |init| && Managed(s, init[i]);
      var B := set i | 0 <= i < |values| && Managed(s, values[i]);
      if Managed(s, values[n]) {
        assert B == A + {n};
      } else {
        assert B == A;
      }
      forall v | v in values && Managed(s, v)
        ensures KeyOf(s, v.value) in ItemFileKeys(s, values)
      {
        if v != values[n] {
          assert v in init;
        }
      }
    }
  }
}
