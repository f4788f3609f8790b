/** Client code that uses only the contracts of `Platform`: the behaviour a caller can rely
    on, written out for one registered platform. */
module PlatformScenario {
  import opened Wrappers
  import opened Records
  import opened PlatformRules
  import opened Persistence
  import opened TokenGrant
  import opened Platforms

  /** A platform of the example store, with its identity record, keys and one cached token
      created at 1000000 ms with a lifetime of 60 s. */
  method Registered() returns (p: Platform)
    ensures fresh(p) && fresh(p.db) && p.InSync() && p.db.rejecting == {}
    ensures p.url == "https://lms.example" && p.clientId == "client-1" && p.kid == "kid-1"
    ensures p.accesstokenEndpoint == "https://lms.example/token" && p.authorizationServer == ""
    ensures p.authConfig == AuthConfig("RSA_KEY", "oldkey")
    ensures p.db.statuses == map[] && p.db.publicKeys == map["kid-1" := "PUB"]
    ensures p.db.privateKeys == map["kid-1" := "PRIV"]
    ensures p.db.accessTokens == map[TokenKey("https://lms.example", "client-1", "scope-a") :=
                                     CachedToken(Token("cached", "bearer", Some(60), "scope-a"), 1000000)]
  {
    var url, client, kid := "https://lms.example", "client-1", "kid-1";
    var cfg := AuthConfig("RSA_KEY", "oldkey");
    var rec := PlatformRecord("LMS", url, client, url + "/auth", url + "/token", "", kid, cfg);
    var cached := CachedToken(Token("cached", "bearer", Some(60), "scope-a"), 1000000);
    var db := new Database(map[PlatformKey(url, client) := rec], map[], map[kid := "PUB"],
                           map[kid := "PRIV"], map[TokenKey(url, client, "scope-a") := cached], {});
    p := new Platform("LMS", url, client, url + "/auth", url + "/token", "", kid, "secret", cfg, db);
  }

  /** A fresh registration is active and reports the token endpoint as authorization server;
      an omitted method keeps the old one and an unknown method changes nothing. */
  method ProjectionAndAuthConfig() {
    var p := Registered();
    var view := p.PlatformJSON();
    assert view.Success? && view.value.active;
    assert view.value.authorizationServer == "https://lms.example/token";
    var c := p.PlatformAuthConfig(AuthConfigArgs(None, Some("newkey")));
    assert c == Success(AuthConfig("RSA_KEY", "newkey"));
    var bad := p.PlatformAuthConfig(AuthConfigArgs(Some("BAD_METHOD"), Some("x")));
    assert bad == Failure(InvalidMethod) && p.authConfig == AuthConfig("RSA_KEY", "newkey");
    assert p.InSync();
  }

  /** Within the lifetime the cached token is served without asking the authority; after
      it, exactly one acquisition happens; another scope string is another cache key. */
  method TokenReuse() {
    var p := Registered();
    var tkey := TokenKey("https://lms.example", "client-1", "scope-a");
    var authority := new TokenAuthority((k: TokenKey) => Some(Token("new", "bearer", Some(3600), k.scopes)));
    CapitalizeBearer();
    var t := p.PlatformAccessToken("scope-a", 1000000 + 30000, authority);
    assert t == Success(Token("cached", "Bearer", Some(60), "scope-a")) && authority.requests == [];
    t := p.PlatformAccessToken("scope-a", 1000000 + 60000, authority);
    assert authority.requests == [];
    t := p.PlatformAccessToken("scope-a", 1000000 + 90000, authority);
    assert t == Success(Token("new", "Bearer", Some(3600), "scope-a")) && authority.requests == [tkey];
    t := p.PlatformAccessToken("scope-a ", 1000000, authority);
    assert |authority.requests| == 2;
  }

  /** Deactivating is read back; deleting removes every record of the platform. */
  method StatusAndDelete() {
    var p := Registered();
    var s := p.PlatformActive(Some(false));
    var active := p.PlatformActive(None);
    assert active == Success(false);
    var gone := p.Delete();
    assert gone == Success(true);
    var pub := p.PlatformPublicKey();
    var priv := p.PlatformPrivateKey();
    assert pub == Failure(KeyNotFound) && priv == Failure(KeyNotFound);
    active := p.PlatformActive(None);
    assert active == Success(true);
  }

  /** A rejected store write leaves the in-memory field as it was, and one handle's write
      is not seen by another handle's in-memory copy. */
  method RejectedWritesAndHandles() {
    var url, client, kid := "https://lms.example", "client-1", "kid-1";
    var key := PlatformKey(url, client);
    var cfg := AuthConfig("JWK_SET", "https://lms.example/jwks");
    var rec := PlatformRecord("LMS", url, client, "", "", "", kid, cfg);

    var down := new Database(map[key := rec], map[], map[], map[], map[], {PlatformColl});
    var p := new Platform("LMS", url, client, "", "", "", kid, "secret", cfg, down);
    var r := p.PlatformName(Some("Renamed"));
    assert r == Failure(StoreRejected(PlatformColl)) && p.name == "LMS";
    assert p.InSync();

    var db := new Database(map[key := rec], map[], map[], map[], map[], {});
    var a := new Platform("LMS", url, client, "", "", "", kid, "secret", cfg, db);
    var b := new Platform("LMS", url, client, "", "", "", kid, "secret", cfg, db);
    r := a.PlatformName(Some("Renamed"));
    assert a.InSync() && db.platforms[key].platformName == "Renamed";
    assert b.name == "LMS" && !b.InSync();
  }
}
