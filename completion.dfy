/** `sendCompletedNotifications` (src/update/update.ts): once the re-read
    record has a completed briefcase, the professional is congratulated and
    every recruiter with an email on a live affiliation is sent a link to
    one briefcase share, created on the first such recruiter. */
module Completion {
  import opened Domain
  import opened ProfilePatches

  /** The recruiter email an affiliation is notified at: only a live
      affiliation whose recruiter record carries a non-empty email has one. */
  function RecruiterEmail(a: Affiliation): (e: Option<string>)
    ensures e.Some? ==> e.value != ""
  {
    if a.rejectedAt.None? && a.recruiter.Some? && a.recruiter.value.RecruiterInline? && a.recruiter.value.email != ""
    then Some(a.recruiter.value.email) else None
  }

  /** The recruiters notified, in affiliation order. */
  function Recipients(affs: seq<Affiliation>): (rs: seq<string>)
    ensures |rs| <= |affs|
  {
    if |affs| == 0 then []
    else
      var e := RecruiterEmail(affs[|affs| - 1]);
      Recipients(affs[..|affs| - 1]) + (if e.Some? then [e.value] else [])
  }

  /** The query of a recruiter's briefcase link. */
  function ShareQuery(token: string): string
  {
    "token=" + token
  }

  function RecruiterNotices(rs: seq<string>, token: string): (ns: seq<Effect>)
    ensures |ns| == |rs|
    ensures forall e :: e in ns ==> e.Notify? && e.template == BriefcaseCompletedToRecruiter
  {
    if |rs| == 0 then [] else RecruiterNotices(rs[..|rs| - 1], token) + [Notify(BriefcaseCompletedToRecruiter, rs[|rs| - 1], ShareQuery(token))]
  }

  function CompletedTemplate(isPrn: bool): Template
  {
    if isPrn then ProfileCompletedNursePrn else ProfileCompletedNurseMarketplace
  }

  /** An effect of the send: the share write or one of its notifications. */
  predicate CompletionNotice(e: Effect)
  {
    e == Write(ShareBriefcase)
    || (e.Notify? && (e.template == ProfileCompletedNursePrn || e.template == ProfileCompletedNurseMarketplace
                      || e.template == BriefcaseCompletedToRecruiter))
  }

  /** Everything the send issues for the re-read record `reread`: the share
      write when some recruiter is notified, then the notifications, sent
      together, the professional's first. `isPrn` is the branding's PRN flag
      and `token` the token of the share the repository creates. */
  function CompletionEffects(reread: Option<Professional>, isPrn: bool, token: string): (es: seq<Effect>)
    ensures forall e :: e in es ==> CompletionNotice(e)
  {
    if reread.None? || CompletedAt(reread.value).None? then []
    else
      var rs := Recipients(AffiliationsOf(reread.value));
      (if |rs| > 0 then [Write(ShareBriefcase)] else [])
      + [Notify(CompletedTemplate(isPrn), reread.value.email, "")]
      + RecruiterNotices(rs, token)
  }

  /** The send as the update operations gate it: only while the stored
      record `stored` has no completed briefcase. */
  function PendingCompletion(stored: Professional, reread: Option<Professional>, isPrn: bool, token: string): (es: seq<Effect>)
    ensures forall e :: e in es ==> CompletionNotice(e)
    ensures CompletedAt(stored).Some? ==> es == []
  {
    if CompletedAt(stored).None? then CompletionEffects(reread, isPrn, token) else []
  }

  /** The recruiter loop: the share is created lazily, on the first recruiter notified. */
  method NotifyRecruiters(affs: seq<Affiliation>, token: string) returns (share: Option<string>, notices: seq<Effect>)
    ensures share.Some? <==> |Recipients(affs)| > 0
    ensures share.Some? ==> share.value == token
    ensures notices == RecruiterNotices(Recipients(affs), token)
  {
    share := None;
    notices := [];
    var i := 0;
    while i < |affs|
      invariant 0 <= i <= |affs|
      invariant share.Some? <==> |Recipients(affs[..i])| > 0
      invariant share.Some? ==> share.value == token
      invariant notices == RecruiterNotices(Recipients(affs[..i]), token)
    {
      var a := affs[i];
      RecipientsStep(affs, i, token);
      if a.rejectedAt.None? && a.recruiter.Some? && a.recruiter.value.RecruiterInline? && a.recruiter.value.email != "" {
        if share.None? {
          share := Some(token);
        }
        notices := notices + [Notify(BriefcaseCompletedToRecruiter, a.recruiter.value.email, ShareQuery(share.value))];
      }
      i := i + 1;
    }
    assert affs[..i] == affs;
  }

  /** One more affiliation adds its recruiter, if it has one, to the recipients and notices. */
  lemma RecipientsStep(affs: seq<Affiliation>, i: int, token: string)
    requires 0 <= i < |affs|
    ensures var before := Recipients(affs[..i]);
      var e := RecruiterEmail(affs[i]);
      Recipients(affs[..i + 1]) == before + (if e.Some? then [e.value] else [])
      && RecruiterNotices(Recipients(affs[..i + 1]), token)
         == RecruiterNotices(before, token) + (if e.Some? then [Notify(BriefcaseCompletedToRecruiter, e.value, ShareQuery(token))] else [])
  {
    assert affs[..i + 1][..i] == affs[..i];
    assert affs[..i + 1][i] == affs[i];
    var before := Recipients(affs[..i]);
    var e := RecruiterEmail(affs[i]);
    assert Recipients(affs[..i + 1]) == before + (if e.Some? then [e.value] else []);
    if e.Some? {
      var after := before + [e.value];
      assert after[..|after| - 1] == before;
      assert RecruiterNotices(after, token) == RecruiterNotices(before, token) + [Notify(BriefcaseCompletedToRecruiter, e.value, ShareQuery(token))];
    } else {
      assert before + [] == before;
      assert RecruiterNotices(before, token) + [] == RecruiterNotices(before, token);
    }
  }

  /** The send as the source runs it: the share write happens inside the
      recruiter loop, the notifications go out together afterwards. */
  method SendCompletedNotifications(reread: Option<Professional>, isPrn: bool, token: string) returns (effects: seq<Effect>)
    ensures effects == CompletionEffects(reread, isPrn, token)
  {
    effects := [];
    if reread.None? || CompletedAt(reread.value).None? {
      return;
    }
    var user := reread.value;
    var share, notices := NotifyRecruiters(AffiliationsOf(user), token);
    if share.Some? {
      effects := [Write(ShareBriefcase)];
    }
    effects := effects + [Notify(CompletedTemplate(isPrn), user.email, "")] + notices;
  }

  /** An email is notified exactly when some live affiliation has a recruiter with that email. */
  lemma {:induction false} RecipientsExact(affs: seq<Affiliation>, e: string)
    ensures e in Recipients(affs) <==> exists i :: 0 <= i < |affs| && RecruiterEmail(affs[i]) == Some(e)
  {
    if |affs| > 0 {
      var n := |affs| - 1;
      RecipientsExact(affs[..n], e);
      if exists i :: 0 <= i < |affs| && RecruiterEmail(affs[i]) == Some(e) {
        var i :| 0 <= i < |affs| && RecruiterEmail(affs[i]) == Some(e);
        if i < n {
          assert affs[..n][i] == affs[i];
        }
      }
      if exists i :: 0 <= i < n && RecruiterEmail(affs[..n][i]) == Some(e) {
        var i :| 0 <= i < n && RecruiterEmail(affs[..n][i]) == Some(e);
        assert affs[..n][i] == affs[i];
      }
    }
  }

  /** Every recruiter notice carries the query of the one share. */
  lemma {:induction false} NoticesShareOneToken(rs: seq<string>, token: string)
    ensures forall k :: 0 <= k < |rs| ==> RecruiterNotices(rs, token)[k] == Notify(BriefcaseCompletedToRecruiter, rs[k], ShareQuery(token))
  {
    if |rs| > 0 {
      NoticesShareOneToken(rs[..|rs| - 1], token);
    }
  }

  /** The share writes of an effect list. */
  function ShareWrites(effects: seq<Effect>): nat
  {
    if |effects| == 0 then 0
    else ShareWrites(effects[..|effects| - 1]) + (if effects[|effects| - 1] == Write(ShareBriefcase) then 1 else 0)
  }

  lemma ShareWritesAppend(a: seq<Effect>, b: seq<Effect>)
    ensures ShareWrites(a + b) == ShareWrites(a) + ShareWrites(b)
    decreases |b|
  {
    if |b| > 0 {
      ShareWritesAppend(a, b[..|b| - 1]);
      assert (a + b)[..|a + b| - 1] == a + b[..|b| - 1];
      assert (a + b)[|a + b| - 1] == b[|b| - 1];
    } else {
      assert a + b == a;
    }
  }

  lemma {:induction false} NoticesWriteNothing(rs: seq<string>, token: string)
    ensures ShareWrites(RecruiterNotices(rs, token)) == 0
  {
    if |rs| > 0 {
      NoticesWriteNothing(rs[..|rs| - 1], token);
      var ns := RecruiterNotices(rs, token);
      assert ns[..|ns| - 1] == RecruiterNotices(rs[..|rs| - 1], token);
    }
  }

  /** Nothing is sent before the briefcase is completed; once it is, the
      professional is notified first among the notifications, a share is
      created once exactly when some recruiter is notified, and every
      recruiter gets a link to that same share. */
  lemma CompletionSendsOnce(reread: Option<Professional>, isPrn: bool, token: string)
    ensures reread.None? || CompletedAt(reread.value).None? ==> CompletionEffects(reread, isPrn, token) == []
    ensures reread.Some? && CompletedAt(reread.value).Some? ==>
      var rs := Recipients(AffiliationsOf(reread.value));
      var es := CompletionEffects(reread, isPrn, token);
      var k := if |rs| > 0 then 1 else 0;
      ShareWrites(es) == k
      && |es| == k + 1 + |rs|
      && es[k] == Notify(CompletedTemplate(isPrn), reread.value.email, "")
      && forall j :: 0 <= j < |rs| ==> es[k + 1 + j] == Notify(BriefcaseCompletedToRecruiter, rs[j], ShareQuery(token))
  {
    if reread.Some? && CompletedAt(reread.value).Some? {
      var rs := Recipients(AffiliationsOf(reread.value));
      var head := (if |rs| > 0 then [Write(ShareBriefcase)] else []) + [Notify(CompletedTemplate(isPrn), reread.value.email, "")];
      NoticesWriteNothing(rs, token);
      NoticesShareOneToken(rs, token);
      ShareWritesAppend(head, RecruiterNotices(rs, token));
      ShareWritesAppend(if |rs| > 0 then [Write(ShareBriefcase)] else [], [Notify(CompletedTemplate(isPrn), reread.value.email, "")]);
      assert ShareWrites([Notify(CompletedTemplate(isPrn), reread.value.email, "")]) == 0 by {
        assert [Notify(CompletedTemplate(isPrn), reread.value.email, "")][..0] == [];
      }
      if |rs| > 0 {
        assert ShareWrites([Write(ShareBriefcase)]) == 1 by {
          assert [Write(ShareBriefcase)][..0] == [];
        }
      }
    }
  }
}
