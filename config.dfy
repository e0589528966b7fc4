/**
 * config.js: the identity provider's configuration, read once from the environment,
 * and the two URL helpers the routes call.
 */
module Config {
  import opened Wrappers
  import opened JsStrings

  /** `process.env`: variable names to values; a missing name reads as `undefined`. */
  datatype Environment = Environment(vars: map<string, string>)

  function Lookup(env: Environment, name: string): Option<string>
  {
    Find(env.vars, name)
  }

  /** JavaScript truthiness of a possibly undefined string: defined and not empty. */
  predicate Truthy(v: Option<string>)
  {
    v.Some? && v.value != ""
  }

  /** `v || fallback` for a possibly undefined string. */
  function Or(v: Option<string>, fallback: string): string
  {
    if Truthy(v) then v.value else fallback
  }

  const DefaultAppUrl := "http://localhost:3000"
  const DefaultEntityId := "https://saml.example.com/entityid/example.com"
  const SsoRoute := "/api/saml/sso"
  const ErrorRoute := "/error"

  /** The configuration object `config` exported by config.js. */
  datatype IdpConfig = IdpConfig(appUrl: string, entityId: string, privateKey: string, publicKey: string)

  /**
   * `fetchPublicKey` / `fetchPrivateKey`: the named variable, base64-decoded to ASCII text,
   * or the empty string when the variable is absent or empty. The decoding itself
   * (`Buffer.from(..., 'base64').toString('ascii')`) is the parameter `asciiOfBase64`.
   */
  function FetchKey(env: Environment, name: string, asciiOfBase64: string -> string): (key: string)
    ensures !Truthy(Lookup(env, name)) ==> key == ""
    ensures Truthy(Lookup(env, name)) ==> key == asciiOfBase64(env.vars[name])
  {
    if Truthy(Lookup(env, name)) then asciiOfBase64(env.vars[name]) else ""
  }

  function FetchPublicKey(env: Environment, asciiOfBase64: string -> string): (key: string)
    ensures !Truthy(Lookup(env, "PUBLIC_KEY")) ==> key == ""
    ensures Truthy(Lookup(env, "PUBLIC_KEY")) ==> key == asciiOfBase64(env.vars["PUBLIC_KEY"])
  {
    FetchKey(env, "PUBLIC_KEY", asciiOfBase64)
  }

  function FetchPrivateKey(env: Environment, asciiOfBase64: string -> string): (key: string)
    ensures !Truthy(Lookup(env, "PRIVATE_KEY")) ==> key == ""
    ensures Truthy(Lookup(env, "PRIVATE_KEY")) ==> key == asciiOfBase64(env.vars["PRIVATE_KEY"])
  {
    FetchKey(env, "PRIVATE_KEY", asciiOfBase64)
  }

  /**
   * Loading config.js: APP_URL and ENTITY_ID fall back to their defaults when absent or
   * empty, so neither URL in the configuration is ever empty; the keys fall back to "".
   */
  function LoadConfig(env: Environment, asciiOfBase64: string -> string): (c: IdpConfig)
    ensures c.appUrl != "" && c.entityId != ""
    ensures c.appUrl == (if Truthy(Lookup(env, "APP_URL")) then env.vars["APP_URL"] else DefaultAppUrl)
    ensures c.entityId == (if Truthy(Lookup(env, "ENTITY_ID")) then env.vars["ENTITY_ID"] else DefaultEntityId)
    ensures !Truthy(Lookup(env, "PUBLIC_KEY")) ==> c.publicKey == ""
    ensures !Truthy(Lookup(env, "PRIVATE_KEY")) ==> c.privateKey == ""
    ensures Truthy(Lookup(env, "PUBLIC_KEY")) ==> c.publicKey == asciiOfBase64(env.vars["PUBLIC_KEY"])
    ensures Truthy(Lookup(env, "PRIVATE_KEY")) ==> c.privateKey == asciiOfBase64(env.vars["PRIVATE_KEY"])
  {
    IdpConfig(
      Or(Lookup(env, "APP_URL"), DefaultAppUrl),
      Or(Lookup(env, "ENTITY_ID"), DefaultEntityId),
      FetchPrivateKey(env, asciiOfBase64),
      FetchPublicKey(env, asciiOfBase64))
  }

  /** `getEntityId`: single-tenant, so the namespace plays no part. */
  function GetEntityId(entityId: string, namespace: Option<string>): (id: string)
    ensures id == entityId
  {
    entityId
  }

  /** Every namespace yields the same entity ID. */
  lemma EntityIdIgnoresNamespace(entityId: string, n1: Option<string>, n2: Option<string>)
    ensures GetEntityId(entityId, n1) == GetEntityId(entityId, n2) == entityId
  {
  }

  /**
   * `getSSOUrl`: "/error" exactly when the application URL or the namespace is undefined
   * or empty; otherwise the application URL followed by the SSO route.
   */
  function GetSsoUrl(appUrl: Option<string>, namespace: Option<string>): (url: string)
    ensures url == ErrorRoute <==> !Truthy(appUrl) || !Truthy(namespace)
    ensures Truthy(appUrl) && Truthy(namespace) ==>
              url == appUrl.value + SsoRoute && EndsWith(url, SsoRoute) && appUrl.value < url
  {
    if !Truthy(appUrl) || !Truthy(namespace) then ErrorRoute
    else
      var url := appUrl.value + SsoRoute;
      assert url[|url| - |SsoRoute|..] == SsoRoute;
      url
  }

  /** Any two non-empty namespaces give the same SSO URL. */
  lemma SsoUrlIgnoresNamespace(appUrl: Option<string>, n1: Option<string>, n2: Option<string>)
    requires Truthy(n1) && Truthy(n2)
    ensures GetSsoUrl(appUrl, n1) == GetSsoUrl(appUrl, n2)
  {
  }

  /** With a loaded configuration and a non-empty namespace the SSO URL is never "/error". */
  lemma LoadedSsoUrlIsNeverError(env: Environment, asciiOfBase64: string -> string, namespace: Option<string>)
    requires Truthy(namespace)
    ensures GetSsoUrl(Some(LoadConfig(env, asciiOfBase64).appUrl), namespace) != ErrorRoute
    ensures GetSsoUrl(Some(LoadConfig(env, asciiOfBase64).appUrl), namespace)
              == LoadConfig(env, asciiOfBase64).appUrl + SsoRoute
  {
  }
}
