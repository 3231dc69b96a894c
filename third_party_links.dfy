/** `checkProfession`, `setThirdPartySystems` and the license link copy of
    `updateItem` (src/update/update.ts): links to external systems are owned
    by the stored record, so an update re-attaches them to the incoming items
    by id instead of taking them from the request. */
module ThirdPartyLinks {
  import opened Domain
  import opened Strings
  import opened ProfilePatches

  /** `checkProfession`: a stored profession and a requested one that differ
      other than in letter case. */
  function CheckProfession(internal: string, external: string): (clash: bool)
    ensures clash <==> internal != "" && external != "" && Upper(internal) != Upper(external)
  {
    internal != "" && external != "" && Upper(internal) != Upper(external)
  }

  /** The update's profession check is symmetric, ignores case, and is
      stricter to trigger than the add path's exact comparison: every update
      clash is an add clash but not the other way round. */
  lemma CheckProfessionRelations(a: string, b: string)
    ensures CheckProfession(a, b) == CheckProfession(b, a)
    ensures Lower(a) == Lower(b) ==> !CheckProfession(a, b)
    ensures CheckProfession(a, b) ==> a != b
    ensures !CheckProfession("RN", "rn") && "RN" != "rn"
  {
    UpperEqualIffLowerEqual(a, b);
    assert Upper("RN") == "RN";
    assert Upper("rn") == "RN";
  }

  /** `findIndex` by id (ids compared as strings). */
  function FindId(items: seq<BriefcaseItem>, id: string): (k: int)
    ensures -1 <= k < |items|
    ensures k >= 0 ==> items[k].id == id && forall j :: 0 <= j < k ==> items[j].id != id
    ensures k == -1 ==> forall j :: 0 <= j < |items| ==> items[j].id != id
  {
    if |items| == 0 then -1
    else if items[0].id == id then 0
    else
      var k := FindId(items[1..], id);
      if k == -1 then -1 else k + 1
  }

  /** Two lists with the same ids find every id at the same place. */
  lemma {:induction false} FindIdSameIds(a: seq<BriefcaseItem>, b: seq<BriefcaseItem>, id: string)
    requires |a| == |b| && forall j :: 0 <= j < |a| ==> a[j].id == b[j].id
    ensures FindId(a, id) == FindId(b, id)
  {
    if |a| > 0 {
      FindIdSameIds(a[1..], b[1..], id);
    }
  }

  /** One stored item's pass: its links, if it has any, go to the first
      incoming item with its id. */
  function Attach(stored: BriefcaseItem, incoming: seq<BriefcaseItem>): (r: seq<BriefcaseItem>)
    ensures |r| == |incoming|
    ensures forall j :: 0 <= j < |r| ==> r[j].id == incoming[j].id && r[j].fields == incoming[j].fields
  {
    var k := FindId(incoming, stored.id);
    if k >= 0 && stored.thirdPartySystems.Some? then
      incoming[k := incoming[k].(thirdPartySystems := stored.thirdPartySystems)]
    else incoming
  }

  /** All stored items' passes, in stored order. */
  function Relink(stored: seq<BriefcaseItem>, incoming: seq<BriefcaseItem>): (r: seq<BriefcaseItem>)
    ensures |r| == |incoming|
    decreases |stored|
  {
    if |stored| == 0 then incoming else Relink(stored[1..], Attach(stored[0], incoming))
  }

  /** The re-attachment loop of one list. */
  method RelinkItems(stored: seq<BriefcaseItem>, incoming: seq<BriefcaseItem>) returns (out: seq<BriefcaseItem>)
    ensures out == Relink(stored, incoming)
  {
    out := incoming;
    var j := 0;
    while j < |stored|
      invariant 0 <= j <= |stored|
      invariant Relink(stored[j..], out) == Relink(stored, incoming)
    {
      assert stored[j..][1..] == stored[j + 1..];
      var foundIndex := FindId(out, stored[j].id);
      if foundIndex >= 0 && stored[j].thirdPartySystems.Some? {
        out := out[foundIndex := out[foundIndex].(thirdPartySystems := stored[j].thirdPartySystems)];
      }
      j := j + 1;
    }
  }

  /** Re-attaching keeps every incoming item's id and fields; an item's links
      change only on the first item with its id, and only to the links of a
      stored item with that id. */
  lemma {:induction false} RelinkOnlyMovesStoredLinks(stored: seq<BriefcaseItem>, incoming: seq<BriefcaseItem>)
    ensures |Relink(stored, incoming)| == |incoming|
    ensures forall j :: 0 <= j < |incoming| ==>
      Relink(stored, incoming)[j].id == incoming[j].id && Relink(stored, incoming)[j].fields == incoming[j].fields
    ensures forall j :: 0 <= j < |incoming| && Relink(stored, incoming)[j].thirdPartySystems != incoming[j].thirdPartySystems ==>
      FindId(incoming, incoming[j].id) == j
      && exists d :: d in stored && d.id == incoming[j].id && d.thirdPartySystems.Some?
                     && Relink(stored, incoming)[j].thirdPartySystems == d.thirdPartySystems
    decreases |stored|
  {
    if |stored| > 0 {
      var mid := Attach(stored[0], incoming);
      RelinkOnlyMovesStoredLinks(stored[1..], mid);
      forall j | 0 <= j < |incoming| && Relink(stored, incoming)[j].thirdPartySystems != incoming[j].thirdPartySystems
        ensures FindId(incoming, incoming[j].id) == j
        ensures exists d :: d in stored && d.id == incoming[j].id && d.thirdPartySystems.Some?
                            && Relink(stored, incoming)[j].thirdPartySystems == d.thirdPartySystems
      {
        FindIdSameIds(mid, incoming, incoming[j].id);
        if Relink(stored, incoming)[j].thirdPartySystems != mid[j].thirdPartySystems {
          var d :| d in stored[1..] && d.id == mid[j].id && d.thirdPartySystems.Some?
                   && Relink(stored[1..], mid)[j].thirdPartySystems == d.thirdPartySystems;
          assert d in stored;
        } else {
          assert mid[j].thirdPartySystems == stored[0].thirdPartySystems;
          assert stored[0] in stored;
        }
      }
    }
  }

  /** With stored ids distinct, every stored item with links hands them to the
      first incoming item with its id. */
  lemma {:induction false} RelinkDeliversStoredLinks(stored: seq<BriefcaseItem>, incoming: seq<BriefcaseItem>, i: int)
    requires 0 <= i < |stored| && stored[i].thirdPartySystems.Some?
    requires forall a, b :: 0 <= a < b < |stored| ==> stored[a].id != stored[b].id
    requires FindId(incoming, stored[i].id) >= 0
    ensures Relink(stored, incoming)[FindId(incoming, stored[i].id)].thirdPartySystems == stored[i].thirdPartySystems
    decreases |stored|
  {
    var mid := Attach(stored[0], incoming);
    FindIdSameIds(mid, incoming, stored[i].id);
    var k := FindId(incoming, stored[i].id);
    RelinkOnlyMovesStoredLinks(stored[1..], mid);
    if i == 0 {
    } else {
      RelinkDeliversStoredLinks(stored[1..], mid, i - 1);
    }
  }

  /** Links removed from every item of a list. */
  function Strip(items: seq<BriefcaseItem>): (r: seq<BriefcaseItem>)
    ensures |r| == |items|
    ensures forall j :: 0 <= j < |r| ==> r[j] == items[j].(thirdPartySystems := None)
  {
    seq(|items|, j requires 0 <= j < |items| => items[j].(thirdPartySystems := None))
  }

  /** One list of the update: stripped first (when the caller is not an API
      identity and the list is one that is stripped), then re-attached from
      the stored list. */
  function Relinked(stored: Option<Briefcase>, storedList: seq<BriefcaseItem>, incoming: Option<seq<BriefcaseItem>>, strip: bool): (r: Option<seq<BriefcaseItem>>)
    ensures r.Some? <==> incoming.Some?
    ensures r.Some? ==> |r.value| == |incoming.value|
  {
    if incoming.None? then None
    else
      var base := if strip then Strip(incoming.value) else incoming.value;
      if stored.Some? then Some(Relink(storedList, base)) else Some(base)
  }

  /** `setThirdPartySystems`: an update from anyone but an API identity
      cannot set links on education, references or facilities; links already
      stored on those lists and on additional certifications are carried
      over by id. */
  function SetThirdPartySystems(stored: Option<Briefcase>, patch: BriefcasePatch, sessionType: UserType): (r: BriefcasePatch)
    ensures r == patch.(education := r.education, references := r.references, facilities := r.facilities,
                        additionalCertifications := r.additionalCertifications)
  {
    var strip := sessionType != HospitalApi;
    var b := if stored.Some? then stored.value else Briefcase(None, None, [], [], [], [], [], [], []);
    patch.(
      education := Relinked(stored, b.education, patch.education, strip),
      references := Relinked(stored, b.references, patch.references, strip),
      facilities := Relinked(stored, b.facilities, patch.facilities, strip),
      additionalCertifications := Relinked(stored, b.additionalCertifications, patch.additionalCertifications, false))
  }

  /** One list as the source treats it: strip, then run the re-attachment loop. */
  method RelinkList(stored: Option<Briefcase>, storedList: seq<BriefcaseItem>, incoming: Option<seq<BriefcaseItem>>, strip: bool)
    returns (r: Option<seq<BriefcaseItem>>)
    ensures r == Relinked(stored, storedList, incoming, strip)
  {
    if incoming.None? {
      return None;
    }
    var items := incoming.value;
    if strip {
      items := Strip(items);
    }
    if stored.Some? {
      items := RelinkItems(storedList, items);
    }
    r := Some(items);
  }

  /** `setThirdPartySystems` as the source runs it, list by list. */
  method ApplyThirdPartySystems(stored: Option<Briefcase>, patch: BriefcasePatch, sessionType: UserType) returns (r: BriefcasePatch)
    ensures r == SetThirdPartySystems(stored, patch, sessionType)
  {
    var strip := sessionType != HospitalApi;
    var b := if stored.Some? then stored.value else Briefcase(None, None, [], [], [], [], [], [], []);
    var education := RelinkList(stored, b.education, patch.education, strip);
    var references := RelinkList(stored, b.references, patch.references, strip);
    var facilities := RelinkList(stored, b.facilities, patch.facilities, strip);
    var additional := RelinkList(stored, b.additionalCertifications, patch.additionalCertifications, false);
    r := patch.(education := education, references := references, facilities := facilities, additionalCertifications := additional);
  }

  /** For a non-API session, every link left on an education item is one the
      stored record already held for an item with that id. */
  lemma NonApiEducationLinksComeFromStore(stored: Option<Briefcase>, patch: BriefcasePatch, sessionType: UserType)
    requires sessionType != HospitalApi && patch.education.Some?
    ensures var r := SetThirdPartySystems(stored, patch, sessionType).education.value;
      forall j :: 0 <= j < |r| && r[j].thirdPartySystems.Some? ==>
        stored.Some? && exists d :: d in stored.value.education && d.id == r[j].id && d.thirdPartySystems == r[j].thirdPartySystems
  {
    var base := Strip(patch.education.value);
    if stored.Some? {
      RelinkOnlyMovesStoredLinks(stored.value.education, base);
    }
  }

  /** An API identity's own links on an item whose id the store does not
      know are kept. */
  lemma ApiLinksKeptForNewItems(stored: Briefcase, patch: BriefcasePatch, j: int)
    requires patch.education.Some? && 0 <= j < |patch.education.value|
    requires forall d :: d in stored.education ==> d.id != patch.education.value[j].id
    ensures SetThirdPartySystems(Some(stored), patch, HospitalApi).education.value[j] == patch.education.value[j]
  {
    var inc := patch.education.value;
    RelinkOnlyMovesStoredLinks(stored.education, inc);
  }

  /** The license link copy of an update: the persisted license with the
      same id lends its links to the incoming one; without such a license,
      or without links on it, the incoming license is written as sent. */
  function CopyLicenseLinks(item: License, persisted: seq<License>): (r: License)
    ensures r == item.(thirdPartySystems := r.thirdPartySystems)
    ensures r.thirdPartySystems != item.thirdPartySystems ==>
      exists l :: l in persisted && l.id == item.id && l.thirdPartySystems.Some? && r.thirdPartySystems == l.thirdPartySystems
    ensures |persisted| > 0 && persisted[0].id == item.id && persisted[0].thirdPartySystems.Some?
            ==> r.thirdPartySystems == persisted[0].thirdPartySystems
  {
    if |persisted| == 0 then item
    else if persisted[0].id == item.id then
      if persisted[0].thirdPartySystems.Some? then item.(thirdPartySystems := persisted[0].thirdPartySystems) else item
    else CopyLicenseLinks(item, persisted[1..])
  }
}
