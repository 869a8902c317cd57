/**
 * The auth details an expectation falls back to when it sets none: the realm
 * and user of the admin client's own access token.
 */
module AuthDefaults {
  import opened Wrappers
  import opened Events

  /** The two claims of the admin access token that the derivation reads. */
  datatype TokenClaims = TokenClaims(issuer: string, subject: Option<string>)

  /** Java's `String.lastIndexOf(char)`: the last index holding `c`, or -1. */
  function LastIndexOf(s: string, c: char): (i: int)
    ensures -1 <= i < |s|
    ensures 0 <= i ==> s[i] == c
    ensures forall j :: i < j < |s| ==> s[j] != c
  {
    if |s| == 0 then -1
    else if s[|s| - 1] == c then |s| - 1
    else LastIndexOf(s[..|s| - 1], c)
  }

  /** The realm id named by a token issuer: everything after its last '/'. */
  function RealmIdOfIssuer(issuer: string): (realm: string)
    ensures |realm| <= |issuer| && issuer[|issuer| - |realm|..] == realm
    ensures '/' !in realm
    ensures |realm| < |issuer| ==> issuer[|issuer| - |realm| - 1] == '/'
    ensures '/' !in issuer ==> realm == issuer
  {
    issuer[LastIndexOf(issuer, '/') + 1..]
  }

  /** defaultAuthDetails: realm from the issuer, user from the subject, no client. */
  function DefaultAuthDetails(token: TokenClaims): (a: AuthDetails)
    ensures a.realmId.Some? && a.realmId.value == RealmIdOfIssuer(token.issuer)
    ensures a.userId == token.subject
    ensures a.clientId == None
  {
    AuthDetails(Some(RealmIdOfIssuer(token.issuer)), None, token.subject)
  }

  /** Whatever precedes the last path segment, that segment is the realm id. */
  lemma RealmIdIsLastSegment(prefix: string, realm: string)
    requires '/' !in realm
    ensures RealmIdOfIssuer(prefix + "/" + realm) == realm
  {
    var issuer := prefix + "/" + realm;
    var r := RealmIdOfIssuer(issuer);
    assert issuer[|issuer| - |realm| - 1] == '/';
    assert |r| == |realm|;
    assert issuer[|issuer| - |realm|..] == realm;
  }

  /** The worked example: issuer ".../realms/myrealm", subject "user-123". */
  lemma DefaultAuthDetailsExample()
    ensures DefaultAuthDetails(TokenClaims("http://localhost:8180/auth/realms/myrealm", Some("user-123")))
            == AuthDetails(Some("myrealm"), None, Some("user-123"))
  {
    assert "http://localhost:8180/auth/realms/myrealm" == "http://localhost:8180/auth/realms" + "/" + "myrealm";
    RealmIdIsLastSegment("http://localhost:8180/auth/realms", "myrealm");
  }
}
