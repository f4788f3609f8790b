/** The external token-acquisition collaborator (a signed client-credentials grant against
    the platform's token endpoint). Only its visible effect is modelled: each call is logged
    in `requests` and answers with what the authority grants for that platform and scope
    string, or with nothing when the grant fails. */
module TokenGrant {
  import opened Wrappers
  import opened Records

  class TokenAuthority {
    /** The authority's answer for each (platform, scopes); `None` is a failed grant. */
    const grant: TokenKey -> Option<Token>
    /** Every acquisition requested so far, in order. */
    var requests: seq<TokenKey>

    constructor (grant: TokenKey -> Option<Token>)
      ensures this.grant == grant && requests == []
    {
      this.grant := grant;
      requests := [];
    }

    method GetAccessToken(key: TokenKey) returns (r: Option<Token>)
      modifies this`requests
      ensures requests == old(requests) + [key]
      ensures r == grant(key)
    {
      requests := requests + [key];
      r := grant(key);
    }
  }
}
