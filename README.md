# saml-idp-express: a Dafny model of the identity provider's request handling

saml-idp-express is a minimal SAML 2.0 identity provider built on Express. All protocol work
happens in the `@boxyhq/saml20` library: decoding, parsing, signature checks, building and
signing the response, the post form and the metadata XML. This repository itself holds only
the decisions around those calls. This project models those decisions:

- the SSO pipeline `processSAMLRequest`, and the GET and POST routes that call it;
- the `/api/saml/auth` endpoint: the email allow-list, the user record and the arguments
  passed to the response builder and the post form;
- the `/api/saml/metadata` endpoint;
- config.js: default configuration values, key loading, `getEntityId` and `getSSOUrl`.

Every library entry point is a field of `SamlLibrary.Library`. Each field is an arbitrary
total function, and a call that may throw returns `Success` or `Failure(text of the error)`.
The SHA-256 digest and the `Buffer` base64 encoding are the fields of `SamlLibrary.Node`.
Config's base64-to-ASCII decoding is a function parameter. Every handler also returns the
list of library calls it made, with their arguments, so that "never called", "called in this
order" and "called with these values" can be stated and proved.

Layout:

- `wrappers.dfy`: `Option` (a JavaScript value that may be `undefined`), `Result`, and the lookup of a key in a map.
- `js_strings.dfy`: `endsWith` and `split`/`join` with a one-character separator, with
  their round-trip lemmas.
- `config.dfy`: config.js.
- `saml_library.dfy`: the library's interface, the records passed to it, and the call log entries.
- `http.dfy`: the request and the Express response object, a class updated in place.
- `handlers.dfy`: each route of index.js as a function from request, configuration and
  library behaviour to the final response and the call log, plus the lemmas about them.
- `routes.dfy`: the route table, and the handlers as imperative methods. Each method is
  proved to produce exactly what its `Handlers` function says.

Two behaviours of the code are worth stating up front. Every SAML processing failure gets
status 500, including an invalid signature and a malformed request: no failure gets a 4xx.
The audience and ACS URL given to `createSAMLResponse` come from the POSTed login form, not
from a parsed request.

## Model

| member | source | states |
|---|---|---|
| `JsStrings.Split` | index.js:111 | `split` with a one-character separator always gives at least one piece, and no piece contains the separator |
| `JsStrings.JoinSplit` | index.js:111 | joining the pieces of `s.split(sep)` with `sep` gives back `s` |
| `JsStrings.SplitJoin` | index.js:111 | splitting a join of separator-free pieces gives back those pieces |
| `JsStrings.FirstPieceIsPrefixBeforeSeparator` | index.js:111 | `s.split(sep)[0]` is a prefix of `s`, contains no `sep`, and is either all of `s` or followed by `sep` |
| `Config.FetchKey` | config.js:4-10 | a key is `""` when its variable is absent or empty, and the decoded variable when it is set and non-empty |
| `Config.LoadConfig` | config.js:12-22 | APP_URL and ENTITY_ID fall back to `http://localhost:3000` and `https://saml.example.com/entityid/example.com` when absent or empty, so neither is ever empty. Keys load as `""` when absent or empty, and as their decoded values when set |
| `Config.GetEntityId` | config.js:24-27 | the entity ID is returned unchanged |
| `Config.EntityIdIgnoresNamespace` | config.js:24-27 | every namespace, defined or not, gives the same entity ID |
| `Config.GetSsoUrl` | config.js:33-39 | the result is `/error` exactly when the app URL or the namespace is undefined or empty; otherwise it is the app URL followed by `/api/saml/sso` |
| `Config.SsoUrlIgnoresNamespace` | config.js:38 | any two non-empty namespaces give the same SSO URL |
| `Config.LoadedSsoUrlIsNeverError` | config.js:12-39 | with a loaded configuration and a non-empty namespace, the SSO URL is the app URL plus `/api/saml/sso` and never `/error` |
| `Config.FetchPublicKey` | config.js:4-6 | the public key is `""` when PUBLIC_KEY is absent or empty, else its decoded value |
| `Config.FetchPrivateKey` | config.js:8-10 | the private key is `""` when PRIVATE_KEY is absent or empty, else its decoded value |
| `Handlers.SsoBinding` | index.js:26-34 | POST takes SAMLRequest and RelayState from the body, GET from the query; `isDeflated` is exactly "not POST" |
| `Handlers.LoginParams` | index.js:54 | the query has the keys id, audience, acsUrl, providerName, relayState in that order, holding the parsed fields and the RelayState |
| `Handlers.SsoFlow` | index.js:23-72 | the pipeline always sends an answer, with status 302 or 500, after one to three library calls |
| `Handlers.BindingFollowsMethod` | index.js:26-45 | POST decodes the body's SAMLRequest without inflating it; GET decodes the query's SAMLRequest and inflates it. Decoding is the first call. Parsing the decoded XML is the second, and it happens exactly when decoding succeeds |
| `Handlers.SignatureCheckedOnlyForPost` | index.js:47-52 | the signature check is called exactly when the request came by POST and the library's decode and parse both succeeded; a GET request never calls it |
| `Handlers.RedirectBindingIgnoresVerifier` | index.js:40-52 | a GET request's outcome is the same under any two libraries that decode and parse alike, whatever their signature verifiers do |
| `Handlers.SsoFailureIsServerError` | index.js:40-70 | the answer is a 302 exactly when decoding, parsing and (for POST) verification with `valid = true` all succeed; otherwise it is a 500 with a text body and no redirect. A failing decode, parse or signature check sends that error's text as the body |
| `Handlers.InvalidSignatureRejected` | index.js:48-70 | a POST request whose signature the library reports invalid gets 500 `Error: Invalid signature` |
| `Handlers.SuccessRedirectsToLogin` | index.js:54-67 | on success: a 302 to `/login` whose query keys are id, audience, acsUrl, providerName, relayState in that order; the values are the parsed fields and the RelayState from the same body or query |
| `Handlers.IsAllowedEmail` | index.js:106 | an accepted email ends in `@` followed by `example.com` or `example.org` |
| `Handlers.LocalPart` | index.js:111 | `email.split('@')[0]` is a prefix of the email with no `@`, and is either the whole email or followed by `@` |
| `Handlers.UserFor` | index.js:110-118 | the user keeps the email unchanged, takes the hashed email as id, and has first name = last name = the local part |
| `Handlers.ResponseOptionsFor` | index.js:121-132 | the builder options: issuer = configured entity ID, audience and acsUrl from the body, `requestId` = the body's id, the email claim and user record, the configured keys |
| `Handlers.PostFormFields` | index.js:135-144 | exactly two fields: RelayState with the body's relayState first, then SAMLResponse with the encoded response |
| `Handlers.AuthFlow` | index.js:93-151 | the auth handler sends nothing exactly when the email is not a string; otherwise it answers 200, 403 or 500, without headers, after at most two library calls |
| `Handlers.RejectedEmailGetsForbidden` | index.js:106-108 | an email fails the allow-list exactly when the answer is 403; then the body is `<email> denied access` and no library call is made. An allowed email always reaches `createSAMLResponse` |
| `Handlers.DomainAfterLastAt` | index.js:106 | an email ending in `@` + d, where d has no `@`, has d as the text after its last `@` |
| `Handlers.AllowedDomainPasses` | index.js:106 | `local@example.com` and `local@example.org` pass the allow-list whatever `local` is |
| `Handlers.AllowListIsTheTwoDomains` | index.js:106-108 | an email whose text after the last `@` is `domain` is accepted exactly when `domain` is `example.com` or `example.org` |
| `Handlers.AllowedEmailHasLocalPart` | index.js:106-111 | an accepted email's `split('@')[0]` is a proper prefix followed by `@` and contains no `@` |
| `Handlers.LocalPartOfComposedEmail` | index.js:111-118 | for `local@domain` with no `@` in `local`, the user name is `local` |
| `Handlers.UserDerivedFromEmail` | index.js:110-132 | for an accepted email, the response builder gets the configured entity ID as issuer, the body's audience and acsUrl, `requestId` equal to the body's id, and the email unchanged as the claim and the user's email. First and last name are equal and form the text before the first `@`. The keys are the configured ones |
| `Handlers.PostFormThreadsRequest` | index.js:121-150 | a builder failure gives 500 `Internal Server Error` with no further call. Otherwise the post form targets the same acsUrl, with fields RelayState then SAMLResponse (the base64 of the built response). The form is sent with status 200, and a form failure gives 500 `Internal Server Error` |
| `Handlers.MetadataFlow` | index.js:77-90 | the metadata handler strips the configured public key, then builds the XML, then sends exactly that XML with status 200 and `Content-type: text/xml` |
| `Handlers.MetadataOptionsFor` | index.js:80-85 | the metadata options: configured entity ID, the SSO URL from `getSSOUrl` (error route only for an empty app URL), the stripped public key, `wantAuthnRequestsSigned = true` |
| `Handlers.MetadataAdvertisesSsoEndpoint` | index.js:78-85 | for a loaded configuration, the metadata gets the configured entity ID, `wantAuthnRequestsSigned = true`, the stripped public key, and the SSO URL app URL + `/api/saml/sso`, never `/error` |
| `Http.ServerResponse.Status` | index.js:70 | `res.status(code)` changes only the status |
| `Http.ServerResponse.SetHeader` | index.js:87 | `res.setHeader` changes only that header |
| `Http.ServerResponse.Send` | index.js:89 | `res.send(text)` records the body and changes nothing else |
| `Http.ServerResponse.Redirect` | index.js:67 | `res.redirect(code, url)` sets the status and records the target path and query |
| `Routes.Route` | index.js:77-168 | in the table of registered exact paths, a path served for either method is the SSO path, with `isPost` exactly "the method is POST"; metadata and the login page are GET only, auth is POST only |
| `Routes.SsoBindingFollowsMethod` | index.js:156-165 | the SSO path is served for GET and POST, and the pipeline's `isPost` is "the method is POST"; metadata is GET only and auth is POST only |
| `Routes.ProcessSamlRequest` | index.js:23-72 | the imperative pipeline leaves the response, and makes the calls, that `SsoFlow` gives |
| `Routes.GetSso` | index.js:156-159 | GET runs the pipeline with `isPost = false` |
| `Routes.PostSso` | index.js:162-165 | POST runs the pipeline with `isPost = true` |
| `Routes.GetMetadata` | index.js:77-90 | the imperative metadata handler matches `MetadataFlow` |
| `Routes.PostAuth` | index.js:93-151 | the imperative auth handler matches `AuthFlow` |
| `Routes.Handle` | index.js:77-165 | each routed request runs the handler its route names |

## Left out

- Everything inside `@boxyhq/saml20`: base64 and DEFLATE decoding, XML parsing, XML-DSig verification and signing, canonicalization, response and metadata XML, the post-form HTML, PEM stripping. These are arbitrary functions; nothing about their results is assumed.
- The SHA-256 user id (index.js:110) and the `Buffer` base64 conversions (index.js:134, config.js:5,9): opaque functions.
- Express set-up, middleware, the login page rendering (index.js:168-181, present only as a route-table entry) and `app.listen`: framework I/O.
- Routes.Route: paths are compared as exact strings, and only GET and POST are modelled. Express's default path matching is not modelled: it ignores case and a trailing slash, and it runs GET handlers for HEAD requests. So `GET /api/saml/sso/`, `GET /API/SAML/SSO` and `HEAD /api/saml/sso` also reach the GET SSO handler in the program, but `Route` gives `None` for them.
- Express internals: the `Content-Type` and charset that `send` adds, the `Location` header and body that `redirect` writes, and case-insensitive header names.
- What Express does after a handler throws outside its `try` block (a non-string email at index.js:106). The model records only that nothing is sent.
- `createIdPMetadataXML` or `stripCertHeaderAndFooter` throwing (index.js:80-85, outside any `try`): both are modelled as always returning.
- Request fields that are not strings: body arrays (a repeated url-encoded field), non-string JSON values, and query arrays or objects from Express's query parser (`?SAMLRequest[]=…`, `?RelayState[a]=…`). A field is either a string or absent.
- `URLSearchParams` percent-encoding, and its turning `undefined` into the text "undefined": the query is an ordered list of keys with the JavaScript values given to it.
- Console logging, `dotenv` and reading `process.env` (the environment is an input map), `PORT`.
- Promise plumbing (`async`/`await`): each handler runs to completion, and requests are independent.
- The commented-out namespace logic (index.js:64, config.js:25, config.js:29-31): dead code.
- Signed Redirect-binding requests: the code never checks a GET request's signature, even though the metadata says `wantAuthnRequestsSigned = true`. `Handlers.RedirectBindingIgnoresVerifier` states this behaviour as it is.
