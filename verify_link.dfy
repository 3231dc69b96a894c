/** The query string of the account-verification link sent by the add flow
    (`getActivationNotification`, `getAddAffiliationNotification` in
    src/add/add.ts), and a decoder showing which parameters a link carries. */
module VerifyLink {
  import opened Domain
  import opened Strings

  /** The organization argument of the link builders. The builders tell an
      explicit `null` (a marketplace sign-up) apart from an omitted argument. */
  datatype OrgArg = OrgOmitted | OrgNull | OrgGiven(id: string)

  /** `${token}` in a template literal: an undefined token renders as "undefined". */
  function TokenText(token: Option<string>): (t: string)
    ensures token.Some? ==> t == token.value
  {
    if token.Some? then token.value else "undefined"
  }

  /** The activation link's query string. */
  function ActivationQuery(token: string, org: OrgArg): string
  {
    "token=" + token
    + match org
      case OrgNull => "&isMarketplace=true"
      case OrgGiven(id) => "&organizationId=" + id
      case OrgOmitted => ""
  }

  /** The add-affiliation link's query string: the activation query, then the
      recruiter when a non-empty recruiter id is given. */
  function AddAffiliationQuery(token: string, org: OrgArg, recruiterId: Option<string>): string
  {
    ActivationQuery(token, org)
    + if recruiterId.Some? && recruiterId.value != "" then "&recruiterId=" + recruiterId.value else ""
  }

  type Param = (string, string)

  /** The parameters the activation link is meant to carry, in order. */
  function ActivationParams(token: string, org: OrgArg): (ps: seq<Param>)
    ensures |ps| >= 1 && ps[0] == ("token", token)
  {
    [("token", token)]
    + match org
      case OrgNull => [("isMarketplace", "true")]
      case OrgGiven(id) => [("organizationId", id)]
      case OrgOmitted => []
  }

  function AddAffiliationParams(token: string, org: OrgArg, recruiterId: Option<string>): (ps: seq<Param>)
    ensures |ps| >= 1 && ps[0] == ("token", token)
  {
    ActivationParams(token, org)
    + if recruiterId.Some? && recruiterId.value != "" then [("recruiterId", recruiterId.value)] else []
  }

  /** `key=value` for each parameter. */
  function Encode(ps: seq<Param>): (parts: seq<string>)
    ensures |parts| == |ps|
  {
    if |ps| == 0 then [] else [ps[0].0 + "=" + ps[0].1] + Encode(ps[1..])
  }

  /** A query string: the encoded parameters joined by `&`. */
  function Render(ps: seq<Param>): string
  {
    Join(Encode(ps), '&')
  }

  /** The index of the first `c` in `s`, or -1. */
  function IndexOf(s: string, c: char): (k: int)
    ensures -1 <= k < |s|
    ensures k >= 0 ==> s[k] == c && c !in s[..k]
    ensures k == -1 ==> c !in s
  {
    if |s| == 0 then -1
    else if s[0] == c then 0
    else
      var k := IndexOf(s[1..], c);
      if k == -1 then -1 else k + 1
  }

  /** One `key=value` part, split at its first `=`. */
  function KeyValue(part: string): Param
  {
    var k := IndexOf(part, '=');
    if k < 0 then (part, "") else (part[..k], part[k + 1..])
  }

  function DecodeParts(parts: seq<string>): (ps: seq<Param>)
    ensures |ps| == |parts|
  {
    if |parts| == 0 then [] else [KeyValue(parts[0])] + DecodeParts(parts[1..])
  }

  /** Reading a query string back into its parameters. */
  function Parse(q: string): seq<Param>
  {
    DecodeParts(Split(q, '&'))
  }

  /** Parameters that survive a round trip: keys free of `&` and `=`, values free of `&`. */
  predicate Clean(ps: seq<Param>)
  {
    forall i :: 0 <= i < |ps| ==> '&' !in ps[i].0 && '=' !in ps[i].0 && '&' !in ps[i].1
  }

  lemma {:induction false} SplitNoSeparator(a: string, sep: char)
    requires sep !in a
    ensures Split(a, sep) == [a]
    decreases |a|
  {
    if |a| > 0 {
      SplitNoSeparator(a[1..], sep);
      assert [a[0]] + a[1..] == a;
    }
  }

  lemma {:induction false} SplitAtFirstSeparator(a: string, sep: char, rest: string)
    requires sep !in a
    ensures Split(a + [sep] + rest, sep) == [a] + Split(rest, sep)
    decreases |a|
  {
    var s := a + [sep] + rest;
    if |a| == 0 {
      assert s[1..] == rest;
    } else {
      assert s[1..] == a[1..] + [sep] + rest;
      SplitAtFirstSeparator(a[1..], sep, rest);
      assert [a[0]] + a[1..] == a;
    }
  }

  /** Joining parts that avoid the separator and splitting again gives the parts back. */
  lemma {:induction false} SplitJoin(xs: seq<string>, sep: char)
    requires |xs| >= 1
    requires forall i :: 0 <= i < |xs| ==> sep !in xs[i]
    ensures Split(Join(xs, sep), sep) == xs
    decreases |xs|
  {
    if |xs| == 1 {
      SplitNoSeparator(xs[0], sep);
    } else {
      SplitJoin(xs[1..], sep);
      SplitAtFirstSeparator(xs[0], sep, Join(xs[1..], sep));
      assert [xs[0]] + xs[1..] == xs;
    }
  }

  lemma KeyValueOfEncoded(k: string, v: string)
    requires '=' !in k
    ensures KeyValue(k + "=" + v) == (k, v)
  {
    var s := k + "=" + v;
    var i := IndexOf(s, '=');
    assert s[..|k|] == k;
    assert s[|k|] == '=';
    assert i == |k|;
    assert s[i + 1..] == v;
  }

  lemma {:induction false} DecodeEncode(ps: seq<Param>)
    requires Clean(ps)
    ensures DecodeParts(Encode(ps)) == ps
    decreases |ps|
  {
    if |ps| > 0 {
      KeyValueOfEncoded(ps[0].0, ps[0].1);
      assert Clean(ps[1..]) by {
        forall i | 0 <= i < |ps[1..]| ensures '&' !in ps[1..][i].0 && '=' !in ps[1..][i].0 && '&' !in ps[1..][i].1 {
          assert ps[1..][i] == ps[i + 1];
        }
      }
      DecodeEncode(ps[1..]);
    }
  }

  lemma {:induction false} EncodedPartsAvoidAmpersand(ps: seq<Param>)
    requires Clean(ps)
    ensures forall i :: 0 <= i < |Encode(ps)| ==> '&' !in Encode(ps)[i]
    decreases |ps|
  {
    if |ps| > 0 {
      assert Clean(ps[1..]) by {
        forall i | 0 <= i < |ps[1..]| ensures '&' !in ps[1..][i].0 && '=' !in ps[1..][i].0 && '&' !in ps[1..][i].1 {
          assert ps[1..][i] == ps[i + 1];
        }
      }
      EncodedPartsAvoidAmpersand(ps[1..]);
      var head := ps[0].0 + "=" + ps[0].1;
      assert forall j :: 0 <= j < |head| ==> head[j] == (if j < |ps[0].0| then ps[0].0[j] else if j == |ps[0].0| then '=' else ps[0].1[j - |ps[0].0| - 1]);
      assert '&' !in head;
    }
  }

  /** Rendering clean, non-empty parameters and parsing the result gives them back. */
  lemma ParseRender(ps: seq<Param>)
    requires |ps| >= 1 && Clean(ps)
    ensures Parse(Render(ps)) == ps
  {
    EncodedPartsAvoidAmpersand(ps);
    SplitJoin(Encode(ps), '&');
    DecodeEncode(ps);
  }

  /** The activation query is the rendering of its parameter list. */
  lemma ActivationQueryRenders(token: string, org: OrgArg)
    ensures ActivationQuery(token, org) == Render(ActivationParams(token, org))
  {
    var ps := ActivationParams(token, org);
    assert Encode(ps)[0] == "token=" + token;
    if org.OrgOmitted? {
      assert Encode(ps) == ["token=" + token];
    } else {
      assert |Encode(ps)| == 2;
      assert Join(Encode(ps), '&') == Encode(ps)[0] + "&" + Encode(ps)[1];
    }
  }

  lemma {:induction false} JoinAppend(xs: seq<string>, y: string, sep: char)
    requires |xs| >= 1
    ensures Join(xs + [y], sep) == Join(xs, sep) + [sep] + y
    decreases |xs|
  {
    if |xs| == 1 {
      assert (xs + [y])[1..] == [y];
    } else {
      assert (xs + [y])[1..] == xs[1..] + [y];
      JoinAppend(xs[1..], y, sep);
    }
  }

  lemma {:induction false} EncodeAppend(ps: seq<Param>, p: Param)
    ensures Encode(ps + [p]) == Encode(ps) + [p.0 + "=" + p.1]
    decreases |ps|
  {
    if |ps| == 0 {
      assert ps + [p] == [p];
    } else {
      assert (ps + [p])[1..] == ps[1..] + [p];
      EncodeAppend(ps[1..], p);
    }
  }

  /** The add-affiliation query is the rendering of its parameter list. */
  lemma AddAffiliationQueryRenders(token: string, org: OrgArg, recruiterId: Option<string>)
    ensures AddAffiliationQuery(token, org, recruiterId) == Render(AddAffiliationParams(token, org, recruiterId))
  {
    ActivationQueryRenders(token, org);
    if recruiterId.Some? && recruiterId.value != "" {
      var ps := ActivationParams(token, org);
      var v := recruiterId.value;
      var p := ("recruiterId", v);
      assert AddAffiliationParams(token, org, recruiterId) == ps + [p];
      EncodeAppend(ps, p);
      assert p.0 + "=" + p.1 == "recruiterId=" + v;
      JoinAppend(Encode(ps), "recruiterId=" + v, '&');
      calc {
        Render(ps + [p]);
        Join(Encode(ps) + ["recruiterId=" + v], '&');
        Join(Encode(ps), '&') + ['&'] + ("recruiterId=" + v);
        ActivationQuery(token, org) + ("&recruiterId=" + v);
        AddAffiliationQuery(token, org, recruiterId);
      }
      assert Render(AddAffiliationParams(token, org, recruiterId)) == Render(ps + [p]);
    } else {
      assert AddAffiliationParams(token, org, recruiterId) == ActivationParams(token, org);
      assert AddAffiliationQuery(token, org, recruiterId) == ActivationQuery(token, org);
    }
  }

  /** Which keys a decoded query carries. */
  function Keys(ps: seq<Param>): (ks: seq<string>)
    ensures |ks| == |ps|
  {
    if |ps| == 0 then [] else [ps[0].0] + Keys(ps[1..])
  }

  /** Ids and tokens never hold `&` (tokens and object ids are hex/base64 text). */
  predicate QuerySafe(s: string) { '&' !in s }

  /** The activation link decodes to the token, then `isMarketplace=true`
      exactly when the organization argument is an explicit null, and
      `organizationId` exactly when an organization is given. */
  lemma ActivationLinkDecodes(token: string, org: OrgArg)
    requires QuerySafe(token)
    requires org.OrgGiven? ==> QuerySafe(org.id)
    ensures Parse(ActivationQuery(token, org)) == ActivationParams(token, org)
    ensures ("isMarketplace" in Keys(Parse(ActivationQuery(token, org)))) <==> org.OrgNull?
    ensures ("organizationId" in Keys(Parse(ActivationQuery(token, org)))) <==> org.OrgGiven?
  {
    ActivationQueryRenders(token, org);
    ParseRender(ActivationParams(token, org));
  }

  /** The add-affiliation link decodes to its parameters; the recruiter id is
      present exactly when a non-empty one was given. */
  lemma AddAffiliationLinkDecodes(token: string, org: OrgArg, recruiterId: Option<string>)
    requires QuerySafe(token)
    requires org.OrgGiven? ==> QuerySafe(org.id)
    requires recruiterId.Some? ==> QuerySafe(recruiterId.value)
    ensures Parse(AddAffiliationQuery(token, org, recruiterId)) == AddAffiliationParams(token, org, recruiterId)
    ensures ("recruiterId" in Keys(Parse(AddAffiliationQuery(token, org, recruiterId))))
            <==> recruiterId.Some? && recruiterId.value != ""
  {
    AddAffiliationQueryRenders(token, org, recruiterId);
    ParseRender(AddAffiliationParams(token, org, recruiterId));
    var ps := AddAffiliationParams(token, org, recruiterId);
    var base := ActivationParams(token, org);
    assert "recruiterId" !in Keys(base) by {
      if org.OrgOmitted? {
        assert Keys(base) == ["token"];
      } else {
        assert Keys(base) == ["token", base[1].0];
      }
    }
    if recruiterId.Some? && recruiterId.value != "" {
      assert ps == base + [("recruiterId", recruiterId.value)];
      KeysAppend(base, ("recruiterId", recruiterId.value));
    } else {
      assert ps == base;
    }
  }

  lemma {:induction false} KeysAppend(ps: seq<Param>, p: Param)
    ensures Keys(ps + [p]) == Keys(ps) + [p.0]
    decreases |ps|
  {
    if |ps| == 0 {
      assert ps + [p] == [p];
    } else {
      assert (ps + [p])[1..] == ps[1..] + [p];
      KeysAppend(ps[1..], p);
    }
  }
}
