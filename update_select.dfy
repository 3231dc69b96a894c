/** The projection of a profile update (src/update/update.ts
    `buildUpdateSelect`) and the null-fill that `callUpdatedWebhook` applies
    to the re-read record before it is sent: every selected field the record
    lacks is sent as `null`. */
module UpdateSelect {
  import opened Domain
  import opened Strings

  /** A request field as `for … in` sees it: absent (`undefined`), a plain
      value, or an object whose children are defined or not. */
  datatype RequestValue = Undefined | Defined | Object(children: seq<(string, bool)>)

  /** The fields whose children are selected one by one. */
  predicate Grouped(key: string)
  {
    key == "briefcase" || key == "jobs"
  }

  /** `key.key2` for each defined child of a grouped field. */
  function ChildKeys(key: string, children: seq<(string, bool)>): (keys: seq<string>)
    ensures |keys| <= |children|
  {
    if |children| == 0 then []
    else
      var last := children[|children| - 1];
      ChildKeys(key, children[..|children| - 1]) + (if last.1 then [key + "." + last.0] else [])
  }

  /** The keys one request field contributes. */
  function FieldKeys(entry: (string, RequestValue)): seq<string>
  {
    if entry.1.Undefined? then []
    else if Grouped(entry.0) then (if entry.1.Object? then ChildKeys(entry.0, entry.1.children) else [])
    else [entry.0]
  }

  /** The keys of the select, in request order. */
  function SelectKeys(entries: seq<(string, RequestValue)>): seq<string>
  {
    if |entries| == 0 then []
    else SelectKeys(entries[..|entries| - 1]) + FieldKeys(entries[|entries| - 1])
  }

  /** `buildUpdateSelect`: the object filled key by key. */
  method BuildUpdateSelect(entries: seq<(string, RequestValue)>) returns (select: seq<string>)
    ensures select == SelectKeys(entries)
  {
    select := [];
    var i := 0;
    while i < |entries|
      invariant 0 <= i <= |entries|
      invariant select == SelectKeys(entries[..i])
    {
      var (key, value) := entries[i];
      assert entries[..i + 1][..i] == entries[..i];
      if value.Undefined? {
        i := i + 1;
        continue;
      }
      if Grouped(key) {
        var children := if value.Object? then value.children else [];
        var j := 0;
        ghost var before := select;
        while j < |children|
          invariant 0 <= j <= |children|
          invariant select == before + ChildKeys(key, children[..j])
        {
          assert children[..j + 1][..j] == children[..j];
          if children[j].1 {
            select := select + [key + "." + children[j].0];
          }
          j := j + 1;
        }
        assert children[..j] == children;
        i := i + 1;
        continue;
      }
      select := select + [key];
      i := i + 1;
    }
    assert entries[..i] == entries;
  }

  /** A child key lies in the group and names a defined child. */
  lemma {:induction false} ChildKeysExact(key: string, children: seq<(string, bool)>, k: string)
    ensures k in ChildKeys(key, children) <==> exists j :: 0 <= j < |children| && children[j].1 && k == key + "." + children[j].0
  {
    if |children| > 0 {
      var init := children[..|children| - 1];
      ChildKeysExact(key, init, k);
      if k in ChildKeys(key, init) {
        var j :| 0 <= j < |init| && init[j].1 && k == key + "." + init[j].0;
        assert children[j] == init[j];
      }
      if exists j :: 0 <= j < |children| && children[j].1 && k == key + "." + children[j].0 {
        var j :| 0 <= j < |children| && children[j].1 && k == key + "." + children[j].0;
        if j < |init| {
          assert init[j] == children[j];
        }
      }
    }
  }

  /** `k` is the key of a defined top-level field other than the groups. */
  predicate SelectsPlain(e: (string, RequestValue), k: string)
  {
    !e.1.Undefined? && !Grouped(e.0) && k == e.0
  }

  /** `k` is `group.child` for a defined child of a group given as an object. */
  predicate SelectsChild(e: (string, RequestValue), k: string)
  {
    Grouped(e.0) && e.1.Object? && exists j :: 0 <= j < |e.1.children| && e.1.children[j].1 && k == e.0 + "." + e.1.children[j].0
  }

  lemma FieldKeysExact(e: (string, RequestValue), k: string)
    ensures k in FieldKeys(e) <==> SelectsPlain(e, k) || SelectsChild(e, k)
  {
    if Grouped(e.0) && e.1.Object? {
      ChildKeysExact(e.0, e.1.children, k);
    }
  }

  /** A key is selected exactly when it is a defined top-level field other
      than `briefcase` and `jobs`, or a defined child of one of those two. */
  lemma {:induction false} SelectKeysExact(entries: seq<(string, RequestValue)>, k: string)
    ensures k in SelectKeys(entries) <==> exists i :: 0 <= i < |entries| && (SelectsPlain(entries[i], k) || SelectsChild(entries[i], k))
  {
    if |entries| > 0 {
      var n := |entries| - 1;
      var init := entries[..n];
      SelectKeysExact(init, k);
      FieldKeysExact(entries[n], k);
      if exists i :: 0 <= i < |entries| && (SelectsPlain(entries[i], k) || SelectsChild(entries[i], k)) {
        var i :| 0 <= i < |entries| && (SelectsPlain(entries[i], k) || SelectsChild(entries[i], k));
        if i < n {
          assert init[i] == entries[i];
        }
      }
      if exists i :: 0 <= i < n && (SelectsPlain(init[i], k) || SelectsChild(init[i], k)) {
        var i :| 0 <= i < n && (SelectsPlain(init[i], k) || SelectsChild(init[i], k));
        assert init[i] == entries[i];
      }
    }
  }

  /** The group names themselves are never selected. */
  lemma GroupNamesNeverSelected(entries: seq<(string, RequestValue)>)
    ensures "briefcase" !in SelectKeys(entries) && "jobs" !in SelectKeys(entries)
  {
    SelectKeysExact(entries, "briefcase");
    SelectKeysExact(entries, "jobs");
    forall i | 0 <= i < |entries|
      ensures !SelectsChild(entries[i], "briefcase") && !SelectsChild(entries[i], "jobs")
    {
      NoDotNoChild(entries[i], "briefcase");
      NoDotNoChild(entries[i], "jobs");
    }
  }

  /** A child key carries a dot after its group name. */
  lemma NoDotNoChild(e: (string, RequestValue), k: string)
    requires '.' !in k
    ensures !SelectsChild(e, k)
  {
    if e.1.Object? {
      forall j | 0 <= j < |e.1.children|
        ensures k != e.0 + "." + e.1.children[j].0
      {
        var key := e.0 + "." + e.1.children[j].0;
        assert key[|e.0|] == '.';
      }
    }
  }

  /** A nested field of the re-read record. */
  datatype Inner = INull | IValue(text: string)

  /** A top-level field of the re-read record. */
  datatype Field = JNull | JValue(text: string) | JObject(members: map<string, Inner>)

  /** The re-read record; a missing key is `undefined`. */
  type Doc = map<string, Field>

  /** The fill for one select key. */
  function FillKey(doc: Doc, key: string): Doc
  {
    var parts := Split(key, '.');
    if |parts| == 1 then
      (if parts[0] in doc then doc else doc[parts[0] := JNull])
    else if Grouped(parts[0]) && parts[0] in doc && doc[parts[0]].JObject? && parts[1] !in doc[parts[0]].members then
      doc[parts[0] := JObject(doc[parts[0]].members[parts[1] := INull])]
    else doc
  }

  function FillAll(doc: Doc, keys: seq<string>): Doc
  {
    if |keys| == 0 then doc else FillKey(FillAll(doc, keys[..|keys| - 1]), keys[|keys| - 1])
  }

  /** The null-fill loop of `callUpdatedWebhook`. */
  method NullFill(doc: Doc, select: seq<string>) returns (r: Doc)
    ensures r == FillAll(doc, select)
  {
    r := doc;
    var i := 0;
    while i < |select|
      invariant 0 <= i <= |select|
      invariant r == FillAll(doc, select[..i])
    {
      var parts := Split(select[i], '.');
      if |parts| == 1 {
        if parts[0] !in r {
          r := r[parts[0] := JNull];
        }
      } else if |parts| > 1 && Grouped(parts[0]) && parts[0] in r && r[parts[0]].JObject? && parts[1] !in r[parts[0]].members {
        r := r[parts[0] := JObject(r[parts[0]].members[parts[1] := INull])];
      }
      assert select[..i + 1][..i] == select[..i];
      i := i + 1;
    }
    assert select[..i] == select;
  }

  /** The fill adds keys and nothing else: a defined plain value is never
      changed, and an object keeps all of its members. */
  predicate Extends(doc: Doc, r: Doc)
  {
    && (forall k :: k in doc ==> k in r)
    && (forall k :: k in doc && !doc[k].JObject? ==> r[k] == doc[k])
    && (forall k :: k in doc && doc[k].JObject? ==>
          r[k].JObject? && forall m :: m in doc[k].members ==> m in r[k].members && r[k].members[m] == doc[k].members[m])
    && (forall k :: k in r && k !in doc ==> r[k] == JNull)
  }

  lemma {:induction false} FillOnlyAddsNulls(doc: Doc, keys: seq<string>)
    ensures Extends(doc, FillAll(doc, keys))
  {
    if |keys| > 0 {
      FillOnlyAddsNulls(doc, keys[..|keys| - 1]);
    }
  }

  /** Once filled, every plain select key is present in the record sent. */
  lemma {:induction false} PlainKeysFilled(doc: Doc, keys: seq<string>, k: string)
    requires k in keys && '.' !in k
    ensures k in FillAll(doc, keys)
  {
    var n := |keys| - 1;
    var before := FillAll(doc, keys[..n]);
    FillOnlyAddsNulls(before, [keys[n]]);
    assert FillAll(before, [keys[n]]) == FillKey(before, keys[n]);
    if keys[n] == k {
      SplitOfPlain(k);
    } else {
      PlainKeysFilled(doc, keys[..n], k);
    }
  }

  lemma SplitOfPlain(k: string)
    requires '.' !in k
    ensures Split(k, '.') == [k]
  {
    JoinSplit(k, '.');
    SplitPartsAvoidSeparator(k, '.');
    var parts := Split(k, '.');
    if |parts| != 1 {
      assert |parts| >= 1;
      assert Join(parts, '.') == k;
      JoinHasSeparator(parts, '.');
    }
  }

  /** Joining two or more parts puts the separator in. */
  lemma JoinHasSeparator(parts: seq<string>, sep: char)
    requires |parts| >= 2
    ensures sep in Join(parts, sep)
  {
    JoinHead(parts, sep);
    var j := Join(parts, sep);
    assert j[|parts[0]|] == sep;
  }

  lemma JoinHead(parts: seq<string>, sep: char)
    requires |parts| >= 2
    ensures Join(parts, sep) == parts[0] + [sep] + Join(parts[1..], sep)
  {
  }

  /** Filling twice is filling once. */
  lemma {:induction false} FillIdempotent(doc: Doc, keys: seq<string>)
    ensures FillAll(FillAll(doc, keys), keys) == FillAll(doc, keys)
  {
    var r := FillAll(doc, keys);
    FillFixedPoint(doc, keys, keys);
  }

  /** A record already filled for some keys is left alone by a refill of any of them. */
  lemma {:induction false} FillFixedPoint(doc: Doc, keys: seq<string>, again: seq<string>)
    requires forall k :: k in again ==> k in keys
    ensures FillAll(FillAll(doc, keys), again) == FillAll(doc, keys)
  {
    if |again| > 0 {
      var n := |again| - 1;
      FillFixedPoint(doc, keys, again[..n]);
      FilledKeyStable(doc, keys, again[n]);
    }
  }

  /** The fill of a key it already made changes nothing. */
  lemma {:induction false} FilledKeyStable(doc: Doc, keys: seq<string>, k: string)
    requires k in keys
    ensures FillKey(FillAll(doc, keys), k) == FillAll(doc, keys)
  {
    var n := |keys| - 1;
    var before := FillAll(doc, keys[..n]);
    var after := FillKey(before, keys[n]);
    if keys[n] == k {
      FillKeyTwice(before, k);
    } else {
      FilledKeyStable(doc, keys[..n], k);
      FillKeysCommute(before, k, keys[n]);
    }
  }

  lemma FillKeyTwice(doc: Doc, k: string)
    ensures FillKey(FillKey(doc, k), k) == FillKey(doc, k)
  {
  }

  lemma FillKeysCommute(doc: Doc, a: string, b: string)
    requires FillKey(doc, a) == doc
    ensures FillKey(FillKey(doc, b), a) == FillKey(doc, b)
  {
  }
}
