/** The license branch of `updateItem` (src/update/update.ts): whether a
    saved license is verified manually, checked with Nursys, or left for
    manual verification, and whether the professional is then suspended and
    the daily Nursys check disabled. The Nursys call is an oracle outcome. */
module LicenseVerification {
  import opened Domain

  /** What `addNurse` did: returned, or threw with these messages
      (`err.innerErrors || [err.message]`). */
  datatype NursysOutcome = NursysOk | NursysErr(messages: seq<string>)

  /** `serverSettings.env`. */
  datatype ServerEnv = Live | Staging | OtherEnv

  datatype NursysSettings = NursysSettings(
    isEnabled: bool,
    /** `errorPatterns`, absent when not configured */
    errorPatterns: Option<seq<string>>,
    /** the generic user-facing error text */
    error: string,
    notificationEmail: string)

  /** The license body row found by name. */
  datatype LicenseBodyInfo = LicenseBodyInfo(useNursys: bool, state: string)

  /** Everything the branch looks up. `test(pattern, message)` is a regular
      expression test; `emailIgnored` is the ignore pattern matched against
      the professional's email. */
  datatype VerifyInputs = VerifyInputs(
    settings: NursysSettings,
    emailIgnored: bool,
    body: Option<LicenseBodyInfo>,
    /** the license type row exists and has `useEVerify` */
    typeUsesEVerify: bool,
    nursys: NursysOutcome,
    now: Time,
    env: ServerEnv)

  /** The flags the branch sets, the license as written, the text shown to
      the user instead of the stored one, and the notices sent. */
  datatype Verdict = Verdict(license: License, suspend: bool, disableNursys: bool, userText: Option<string>, notices: seq<Effect>)

  const VerifiedManually: string := "Verified manually"
  const Unencumbered: string := "UNENCUMBERED"
  const ManualRequired: string := "Manual Verification Required"
  const PendingText: string := "Your license is pending verification with the issuing Board. Please continue to fill out your Professional Briefcase."
  const SupportEmail: string := "support@carry.com"

  /** `parts.join(sep)` for a multi-character separator. */
  function JoinWith(parts: seq<string>, sep: string): string
  {
    if |parts| == 0 then ""
    else if |parts| == 1 then parts[0]
    else parts[0] + sep + JoinWith(parts[1..], sep)
  }

  /** Some configured error pattern matches the message. */
  predicate Flagged(msg: string, patterns: Option<seq<string>>, test: (string, string) -> bool)
  {
    patterns.Some? && exists p :: p in patterns.value && test(p, msg)
  }

  /** The user-facing line of each Nursys message: the message itself when a
      pattern flags it, the generic error otherwise. */
  function UserLines(msgs: seq<string>, s: NursysSettings, test: (string, string) -> bool): (lines: seq<string>)
    ensures |lines| == |msgs|
    ensures forall k :: 0 <= k < |msgs| ==> lines[k] == if Flagged(msgs[k], s.errorPatterns, test) then msgs[k] else s.error
  {
    seq(|msgs|, k requires 0 <= k < |msgs| => if Flagged(msgs[k], s.errorPatterns, test) then msgs[k] else s.error)
  }

  /** The pattern scan of one message, stopping at the first match. */
  method IsFlagged(msg: string, patterns: Option<seq<string>>, test: (string, string) -> bool) returns (found: bool)
    ensures found == Flagged(msg, patterns, test)
  {
    found := false;
    if patterns.Some? {
      var ps := patterns.value;
      var i := 0;
      while i < |ps|
        invariant 0 <= i <= |ps|
        invariant forall j :: 0 <= j < i ==> !test(ps[j], msg)
      {
        if test(ps[i], msg) {
          found := true;
          break;
        }
        i := i + 1;
      }
    }
  }

  /** The message loop of a Nursys failure: the raw messages and the lines shown to the user. */
  method FailureTexts(msgs: seq<string>, s: NursysSettings, test: (string, string) -> bool)
    returns (errMessage: seq<string>, text: seq<string>)
    ensures errMessage == msgs
    ensures text == UserLines(msgs, s, test)
  {
    errMessage := [];
    text := [];
    var i := 0;
    while i < |msgs|
      invariant 0 <= i <= |msgs|
      invariant errMessage == msgs[..i]
      invariant text == UserLines(msgs[..i], s, test)
    {
      var found := IsFlagged(msgs[i], s.errorPatterns, test);
      errMessage := errMessage + [msgs[i]];
      text := text + [if found then msgs[i] else s.error];
      assert msgs[..i + 1] == msgs[..i] + [msgs[i]];
      i := i + 1;
    }
    assert msgs[..i] == msgs;
  }

  /** A license the branch looks at: an SSN with a date of birth, or a manual override. */
  predicate Eligible(l: License)
  {
    (l.ssn != "" && l.dateOfBirth.Some?) || l.manualOverride
  }

  /** Nursys is asked only when it is enabled, the license is not a manual
      override, and both the license type and the license body are
      e-verifiable. */
  predicate AsksNursys(l: License, v: VerifyInputs)
  {
    v.settings.isEnabled && !l.manualOverride && v.typeUsesEVerify && v.body.Some? && v.body.value.useNursys
  }

  /** A support notice: to support on live, to the configured address on staging, none elsewhere. */
  function SupportNotice(t: Template, v: VerifyInputs): (es: seq<Effect>)
    ensures |es| <= 1
  {
    match v.env
    case Live => [Notify(t, SupportEmail, "")]
    case Staging => [Notify(t, v.settings.notificationEmail, "")]
    case OtherEnv => []
  }

  /** The manual-verification notice reads the license body's state, so a
      missing license body throws on live and staging. */
  function ManualNotice(v: VerifyInputs): Result<seq<Effect>>
  {
    if v.env != OtherEnv && v.body.None? then Err(TypeError)
    else Ok(SupportNotice(NursysManualVerificationRequired, v))
  }

  /** The whole branch. */
  function Verify(l: License, v: VerifyInputs, test: (string, string) -> bool): (r: Result<Verdict>)
    ensures r.Ok? ==> r.value.license == l.(verifiedAt := r.value.license.verifiedAt, verificationText := r.value.license.verificationText)
    ensures r.Ok? ==> forall e :: e in r.value.notices ==>
      e.Notify? && (e.template == NursysSuccessVerifyLicense || e.template == NursysFailureVerifyLicense || e.template == NursysManualVerificationRequired)
  {
    if !Eligible(l) then Ok(Verdict(l, false, false, None, []))
    else if v.emailIgnored then Ok(Verdict(l.(verificationText := Some(VerifiedManually)), false, false, None, []))
    else if AsksNursys(l, v) then
      match v.nursys
      case NursysOk =>
        Ok(Verdict(l.(verifiedAt := Some(v.now), verificationText := Some(Unencumbered)), false, false, None,
                   SupportNotice(NursysSuccessVerifyLicense, v)))
      case NursysErr(msgs) =>
        Ok(Verdict(l.(verificationText := Some(JoinWith(msgs, "\r\n"))), true, true,
                   Some(JoinWith(UserLines(msgs, v.settings, test), "\r\n")),
                   [Notify(NursysFailureVerifyLicense, v.settings.notificationEmail, "")]))
    else
      var notice := ManualNotice(v);
      if notice.Err? then Err(notice.error)
      else if v.settings.isEnabled && !l.manualOverride then
        Ok(Verdict(l.(verificationText := Some(ManualRequired)), false, true, Some(PendingText), notice.value))
      else
        Ok(Verdict(l.(verificationText := Some(ManualRequired)), !l.manualOverride, false,
                   Some(if l.manualOverride then VerifiedManually else PendingText), notice.value))
  }

  /** The branch as the source runs it: flags start cleared and are set in
      the nested branches. */
  method DecideVerification(l: License, v: VerifyInputs, test: (string, string) -> bool) returns (r: Result<Verdict>)
    ensures r == Verify(l, v, test)
  {
    var license := l;
    var suspend := false;
    var disableNursys := false;
    var verificationText: Option<string> := None;
    var notices: seq<Effect> := [];
    if Eligible(license) {
      if v.emailIgnored {
        license := license.(verificationText := Some(VerifiedManually));
      } else if AsksNursys(license, v) {
        if v.nursys.NursysOk? {
          license := license.(verifiedAt := Some(v.now), verificationText := Some(Unencumbered));
          notices := SupportNotice(NursysSuccessVerifyLicense, v);
        } else {
          var errMessage, text := FailureTexts(v.nursys.messages, v.settings, test);
          suspend := true;
          disableNursys := true;
          verificationText := Some(JoinWith(text, "\r\n"));
          license := license.(verificationText := Some(JoinWith(errMessage, "\r\n")));
          notices := [Notify(NursysFailureVerifyLicense, v.settings.notificationEmail, "")];
        }
      } else {
        if v.env != OtherEnv && v.body.None? {
          return Err(TypeError);
        }
        notices := SupportNotice(NursysManualVerificationRequired, v);
        license := license.(verificationText := Some(ManualRequired));
        if v.settings.isEnabled && !license.manualOverride {
          verificationText := Some(PendingText);
          disableNursys := true;
        } else {
          verificationText := Some(if license.manualOverride then VerifiedManually else PendingText);
          suspend := !license.manualOverride;
        }
      }
    }
    r := Ok(Verdict(license, suspend, disableNursys, verificationText, notices));
  }

  /** A license with neither an SSN and date of birth nor a manual override
      is written as sent, unverified, and nobody is suspended. */
  lemma IneligibleLeftAlone(l: License, v: VerifyInputs, test: (string, string) -> bool)
    requires !((l.ssn != "" && l.dateOfBirth.Some?) || l.manualOverride)
    ensures Verify(l, v, test) == Ok(Verdict(l, false, false, None, []))
  {
  }

  /** An ignored email is verified manually, without Nursys and without suspension. */
  lemma IgnoredEmailVerifiedManually(l: License, v: VerifyInputs, test: (string, string) -> bool)
    requires Eligible(l) && v.emailIgnored
    ensures Verify(l, v, test).Ok?
    ensures var d := Verify(l, v, test).value;
      d.license.verificationText == Some(VerifiedManually) && d.license.verifiedAt == l.verifiedAt
      && !d.suspend && !d.disableNursys && d.notices == []
  {
  }

  /** Nursys success verifies the license now, as unencumbered. */
  lemma NursysSuccessVerifies(l: License, v: VerifyInputs, test: (string, string) -> bool)
    requires Eligible(l) && !v.emailIgnored && AsksNursys(l, v) && v.nursys == NursysOk
    ensures Verify(l, v, test).Ok?
    ensures var d := Verify(l, v, test).value;
      d.license.verifiedAt == Some(v.now) && d.license.verificationText == Some(Unencumbered)
      && !d.suspend && !d.disableNursys && d.userText.None?
  {
  }

  /** Nursys failure suspends and disables the daily check; the license
      stores the raw messages, the user sees each flagged message and the
      generic error for the rest. */
  lemma NursysFailureSuspends(l: License, v: VerifyInputs, test: (string, string) -> bool)
    requires Eligible(l) && !v.emailIgnored && AsksNursys(l, v) && v.nursys.NursysErr?
    ensures Verify(l, v, test).Ok?
    ensures var d := Verify(l, v, test).value;
      d.suspend && d.disableNursys
      && d.license.verificationText == Some(JoinWith(v.nursys.messages, "\r\n"))
      && d.license.verifiedAt == l.verifiedAt
      && d.userText == Some(JoinWith(UserLines(v.nursys.messages, v.settings, test), "\r\n"))
      && d.notices == [Notify(NursysFailureVerifyLicense, v.settings.notificationEmail, "")]
  {
  }

  /** Enabled Nursys with a license type or body that is not e-verifiable
      asks for manual verification and disables the daily check, but does
      not suspend. */
  lemma NotEVerifiableDoesNotSuspend(l: License, v: VerifyInputs, test: (string, string) -> bool)
    requires Eligible(l) && !v.emailIgnored && v.settings.isEnabled && !l.manualOverride && !AsksNursys(l, v)
    requires Verify(l, v, test).Ok?
    ensures var d := Verify(l, v, test).value;
      !d.suspend && d.disableNursys && d.license.verificationText == Some(ManualRequired) && d.userText == Some(PendingText)
  {
  }

  /** With Nursys disabled or a manual override, the professional is
      suspended exactly when the license is not a manual override. */
  lemma DisabledOrOverrideSuspendsUnlessOverride(l: License, v: VerifyInputs, test: (string, string) -> bool)
    requires Eligible(l) && !v.emailIgnored && (!v.settings.isEnabled || l.manualOverride)
    requires Verify(l, v, test).Ok?
    ensures var d := Verify(l, v, test).value;
      (d.suspend <==> !l.manualOverride) && !d.disableNursys && d.license.verificationText == Some(ManualRequired)
  {
  }

  /** The branch fails only where the manual notice reads a missing license body. */
  lemma VerifyFailsOnlyOnMissingBody(l: License, v: VerifyInputs, test: (string, string) -> bool)
    ensures Verify(l, v, test).Err? <==>
            Eligible(l) && !v.emailIgnored && !AsksNursys(l, v) && v.env != OtherEnv && v.body.None?
    ensures Verify(l, v, test).Err? ==> Verify(l, v, test).error == TypeError
  {
  }

  /** The Nursys outcome matters only when Nursys is asked. */
  lemma NursysOutcomeIrrelevantUnlessAsked(l: License, v: VerifyInputs, other: NursysOutcome, test: (string, string) -> bool)
    requires !AsksNursys(l, v)
    ensures Verify(l, v.(nursys := other), test) == Verify(l, v, test)
  {
  }

  /** Suspension and a disabled daily check never come from an ignored
      email, and a suspension always comes with no verification date. */
  lemma SuspendNeverVerifies(l: License, v: VerifyInputs, test: (string, string) -> bool)
    requires Verify(l, v, test).Ok? && Verify(l, v, test).value.suspend
    ensures !v.emailIgnored && Eligible(l) && !l.manualOverride
    ensures Verify(l, v, test).value.license.verifiedAt == l.verifiedAt
  {
  }
}
