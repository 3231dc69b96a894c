/** `getProfessionalByToken` (src/get/get-by-token.ts): a read without a
    session, authorised either by a briefcase share token or by the
    verification or password-reset token the professional was sent. */
module GetByToken {
  import opened Domain
  import opened ReadSide

  /** A briefcase share: its access level and expiry (absent = never). */
  datatype Share = Share(access: string, expiresAt: Option<Time>)

  /** The tokens presented with the id; "" stands for an absent token. */
  datatype TokenRequest = TokenRequest(userId: string, verificationToken: string, shareToken: string, passwordResetToken: string)

  /** `expiresAt < new Date()`: an absent expiry never compares as past, and
      an expiry equal to the current instant is not past either. */
  predicate Expired(expiresAt: Option<Time>, now: Time)
  {
    expiresAt.Some? && expiresAt.value < now
  }

  /** A supplied token that is not the stored one, or whose expiry is past. */
  predicate TokenFails(supplied: string, stored: Option<string>, expiresAt: Option<Time>, now: Time)
  {
    supplied != "" && (stored != Some(supplied) || Expired(expiresAt, now))
  }

  /** The token read refuses a missing user and any failing token. */
  predicate TokenRejected(req: TokenRequest, found: Option<Professional>, now: Time)
  {
    found.None?
    || TokenFails(req.verificationToken, found.value.verificationToken, found.value.verificationTokenExpiresAt, now)
    || TokenFails(req.passwordResetToken, found.value.passwordResetToken, found.value.passwordResetTokenExpiresAt, now)
  }

  /** The record without its tokens and their expiries, and with only its live affiliations. */
  function Scrubbed(p: Professional): (r: Professional)
    ensures r.verificationToken.None? && r.verificationTokenExpiresAt.None?
    ensures r.passwordResetToken.None? && r.passwordResetTokenExpiresAt.None?
    ensures r.affiliations.Some? <==> p.affiliations.Some?
    ensures r.affiliations.Some? ==> r.affiliations.value == Kept(p.affiliations.value, None)
    ensures r.affiliations.Some? ==> forall a :: a in r.affiliations.value <==> a in p.affiliations.value && a.rejectedAt.None?
    ensures r == p.(verificationToken := None, verificationTokenExpiresAt := None, passwordResetToken := None,
                    passwordResetTokenExpiresAt := None, affiliations := r.affiliations)
  {
    var q := p.(verificationToken := None, verificationTokenExpiresAt := None, passwordResetToken := None, passwordResetTokenExpiresAt := None);
    if q.affiliations.Some? then
      var kept := Kept(q.affiliations.value, None);
      assert forall a :: a in kept <==> a in q.affiliations.value && a.rejectedAt.None? by {
        forall a ensures a in kept <==> a in q.affiliations.value && a.rejectedAt.None? {
          KeptExact(q.affiliations.value, None, a);
        }
      }
      q.(affiliations := Some(kept))
    else q
  }

  /** The whole read: `share` is the share the repository finds for the id
      and share token, `found` the record with that id, `now` the clock. */
  function TokenReadOf(req: TokenRequest, share: Option<Share>, found: Option<Professional>, now: Time): (r: Result<Professional>)
    ensures req.shareToken != "" && (share.None? || Expired(share.value.expiresAt, now)) ==> r == Err(ShareExpired)
    ensures req.shareToken != "" && r.Ok? ==>
      share.Some? && !Expired(share.value.expiresAt, now) && found.Some?
      && (share.value.access != "full" ==> r.value == MaskSecrets(found.value))
      && (share.value.access == "full" ==> r.value == found.value)
    ensures req.shareToken == "" ==> (r == Err(Unauthorized) <==> TokenRejected(req, found, now))
    ensures req.shareToken == "" && r.Ok? ==> r.value == Scrubbed(found.value)
    ensures req.shareToken == "" && !TokenRejected(req, found, now) ==> r == Ok(Scrubbed(found.value))
    ensures req.shareToken != "" && share.Some? && !Expired(share.value.expiresAt, now) ==>
      (found.None? ==> r == Err(TypeError)) && (found.Some? ==> r.Ok?)
  {
    if req.shareToken != "" then
      if share.None? || Expired(share.value.expiresAt, now) then Err(ShareExpired)
      // the record is dereferenced whatever the access level
      else if found.None? then Err(TypeError)
      else if share.value.access != "full" then Ok(MaskSecrets(found.value))
      else Ok(found.value)
    else if TokenRejected(req, found, now) then Err(Unauthorized)
    else Ok(Scrubbed(found.value))
  }

  /** The read as the source runs it: guards first, then the fetched record
      changed field by field. */
  method GetProfessionalByToken(req: TokenRequest, share: Option<Share>, found: Option<Professional>, now: Time)
    returns (r: Result<Professional>)
    ensures r == TokenReadOf(req, share, found, now)
  {
    var user: Professional;
    if req.shareToken != "" {
      if share.None? || (share.value.expiresAt.Some? && share.value.expiresAt.value < now) {
        return Err(ShareExpired);
      }
      if found.None? {
        return Err(TypeError);
      }
      user := found.value;
      if share.value.access != "full" {
        user := user.(dateOfBirth := Mask(user.dateOfBirth));
        user := user.(ssn := Mask(user.ssn));
      }
    } else {
      if found.None?
        || (req.verificationToken != ""
            && (found.value.verificationToken != Some(req.verificationToken)
                || (found.value.verificationTokenExpiresAt.Some? && found.value.verificationTokenExpiresAt.value < now)))
        || (req.passwordResetToken != ""
            && (found.value.passwordResetToken != Some(req.passwordResetToken)
                || (found.value.passwordResetTokenExpiresAt.Some? && found.value.passwordResetTokenExpiresAt.value < now)))
      {
        return Err(Unauthorized);
      }
      user := found.value;
      user := user.(verificationToken := None);
      user := user.(verificationTokenExpiresAt := None);
      user := user.(passwordResetToken := None);
      user := user.(passwordResetTokenExpiresAt := None);
      if user.affiliations.Some? {
        user := user.(affiliations := Some(Kept(user.affiliations.value, None)));
      }
    }
    r := Ok(user);
  }

  /** A token whose expiry is the current instant is still accepted, one
      expiring a moment earlier is not. */
  lemma ExpiryAtNowAccepted(req: TokenRequest, p: Professional, now: Time)
    requires req.shareToken == "" && req.passwordResetToken == ""
    requires req.verificationToken != "" && p.verificationToken == Some(req.verificationToken)
    ensures p.verificationTokenExpiresAt == Some(now) ==> TokenReadOf(req, None, Some(p), now).Ok?
    ensures p.verificationTokenExpiresAt == Some(now - 1) ==> TokenReadOf(req, None, Some(p), now) == Err(Unauthorized)
  {
  }

  /** Without any token the read is not refused: any existing id is readable,
      with its tokens scrubbed. */
  lemma NoTokenReadsAnyRecord(userId: string, p: Professional, now: Time)
    ensures TokenReadOf(TokenRequest(userId, "", "", ""), None, Some(p), now) == Ok(Scrubbed(p))
  {
  }
}
