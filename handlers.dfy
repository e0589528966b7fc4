/**
 * index.js as functions: what each route answers and which library calls it makes, for a
 * fresh response and given library behaviour. `Routes` implements these step by step.
 */
module Handlers {
  import opened Wrappers
  import opened JsStrings
  import opened Config
  import opened SamlLibrary
  import opened Http

  const LoginPath := "/login"
  const MetadataNamespace := "example.com"
  /** `${new Error('Invalid signature')}`. */
  const InvalidSignatureText := "Error: Invalid signature"
  const InternalErrorText := "Internal Server Error"
  const AllowedSuffixes := ["@example.com", "@example.org"]

  /** A handler's effect: the final response and the library calls made, in order. */
  datatype Run = Run(reply: Reply, calls: seq<Call>)

  // ---------------------------------------------------------------- SSO pipeline

  /** Where `processSAMLRequest` takes its inputs from, and whether to inflate. */
  datatype Binding = Binding(samlRequest: Option<string>, relayState: Option<string>, isDeflated: bool)

  function SsoBinding(isPost: bool, req: Request): (b: Binding)
    ensures b.isDeflated == !isPost
    ensures var fields := if isPost then req.body else req.query;
            b.samlRequest == Find(fields, "SAMLRequest") && b.relayState == Find(fields, "RelayState")
  {
    if isPost then Binding(Find(req.body, "SAMLRequest"), Find(req.body, "RelayState"), false)
    else Binding(Find(req.query, "SAMLRequest"), Find(req.query, "RelayState"), true)
  }

  /** `new URLSearchParams({ id, audience, acsUrl, providerName, relayState })`. */
  function LoginParams(request: AuthnRequest, relayState: Option<string>): (q: seq<Param>)
    ensures Keys(q) == ["id", "audience", "acsUrl", "providerName", "relayState"]
    ensures q[0].value == request.id && q[1].value == request.audience && q[2].value == request.acsUrl
    ensures q[3].value == request.providerName && q[4].value == relayState
  {
    [Param("id", request.id), Param("audience", request.audience), Param("acsUrl", request.acsUrl),
     Param("providerName", request.providerName), Param("relayState", relayState)]
  }

  /** `res.status(500).send(text)` on a fresh response. */
  function ServerError(text: string): Reply
  {
    Initial.(status := 500, payload := Some(Content(text)))
  }

  function LoginRedirect(request: AuthnRequest, relayState: Option<string>): Reply
  {
    Initial.(status := 302, payload := Some(RedirectTo(LoginPath, LoginParams(request, relayState))))
  }

  /**
   * `processSAMLRequest(req, res, isPost)`: decode, parse, check the signature when the
   * request came by POST, and redirect to the login page; any failure is a 500 with the
   * error's text. The handler always answers, with 302 or 500, after one to three calls.
   */
  function SsoFlow(isPost: bool, req: Request, lib: Library): (run: Run)
    ensures run.reply.payload.Some?
    ensures run.reply.status == 302 || run.reply.status == 500
    ensures 1 <= |run.calls| <= 3
  {
    var b := SsoBinding(isPost, req);
    var decode := DecodeBase64(b.samlRequest, b.isDeflated);
    match lib.decodeBase64(b.samlRequest, b.isDeflated)
    case Failure(e) => Run(ServerError(e), [decode])
    case Success(raw) =>
      var parse := ParseSamlRequest(raw, isPost);
      match lib.parseSamlRequest(raw, isPost)
      case Failure(e) => Run(ServerError(e), [decode, parse])
      case Success(request) =>
        if !isPost then Run(LoginRedirect(request, b.relayState), [decode, parse])
        else
          var check := HasValidSignature(raw, request.publicKey);
          match lib.hasValidSignature(raw, request.publicKey)
          case Failure(e) => Run(ServerError(e), [decode, parse, check])
          case Success(valid) =>
            if valid then Run(LoginRedirect(request, b.relayState), [decode, parse, check])
            else Run(ServerError(InvalidSignatureText), [decode, parse, check])
  }

  /** Whether the library accepts the request at every step the binding requires. */
  predicate SsoAccepted(isPost: bool, req: Request, lib: Library)
  {
    var b := SsoBinding(isPost, req);
    var decoded := lib.decodeBase64(b.samlRequest, b.isDeflated);
    && decoded.Success?
    && lib.parseSamlRequest(decoded.value, isPost).Success?
    && (isPost ==> lib.hasValidSignature(decoded.value, lib.parseSamlRequest(decoded.value, isPost).value.publicKey)
                   == Success(true))
  }

  /**
   * POST reads SAMLRequest and RelayState from the body and does not inflate; GET reads
   * them from the query and inflates. Decoding is the first call, parsing the decoded XML
   * the second.
   */
  lemma BindingFollowsMethod(isPost: bool, req: Request, lib: Library)
    ensures var fields := if isPost then req.body else req.query;
            SsoFlow(isPost, req, lib).calls[0] == DecodeBase64(Find(fields, "SAMLRequest"), !isPost)
    ensures var fields := if isPost then req.body else req.query;
            var decoded := lib.decodeBase64(Find(fields, "SAMLRequest"), !isPost);
            |SsoFlow(isPost, req, lib).calls| >= 2 <==> decoded.Success?
    ensures var fields := if isPost then req.body else req.query;
            var decoded := lib.decodeBase64(Find(fields, "SAMLRequest"), !isPost);
            |SsoFlow(isPost, req, lib).calls| >= 2 ==>
              SsoFlow(isPost, req, lib).calls[1] == ParseSamlRequest(decoded.value, isPost)
  {
  }

  /**
   * The signature check is called exactly when the request came by POST and decoding and
   * parsing succeeded; a GET request never reaches it.
   */
  lemma SignatureCheckedOnlyForPost(isPost: bool, req: Request, lib: Library)
    ensures (exists i :: 0 <= i < |SsoFlow(isPost, req, lib).calls| && SsoFlow(isPost, req, lib).calls[i].HasValidSignature?)
            <==> var b := SsoBinding(isPost, req);
                 var decoded := lib.decodeBase64(b.samlRequest, b.isDeflated);
                 isPost && decoded.Success? && lib.parseSamlRequest(decoded.value, true).Success?
    ensures !isPost ==> forall c :: c in SsoFlow(false, req, lib).calls ==> !c.HasValidSignature?
  {
    var calls := SsoFlow(isPost, req, lib).calls;
    var b := SsoBinding(isPost, req);
    var decoded := lib.decodeBase64(b.samlRequest, b.isDeflated);
    if isPost && decoded.Success? && lib.parseSamlRequest(decoded.value, true).Success? {
      assert calls[2].HasValidSignature?;
    }
  }

  /**
   * A GET request's outcome does not depend on the signature verifier at all: two
   * libraries that decode and parse alike give the same run.
   */
  lemma RedirectBindingIgnoresVerifier(req: Request, lib1: Library, lib2: Library)
    requires lib1.decodeBase64 == lib2.decodeBase64
    requires lib1.parseSamlRequest == lib2.parseSamlRequest
    ensures SsoFlow(false, req, lib1) == SsoFlow(false, req, lib2)
  {
  }

  /**
   * The pipeline redirects exactly when every required step succeeded; otherwise it
   * answers 500 with the failing step's error text and issues no redirect.
   */
  lemma SsoFailureIsServerError(isPost: bool, req: Request, lib: Library)
    ensures SsoFlow(isPost, req, lib).reply.status == 302 <==> SsoAccepted(isPost, req, lib)
    ensures !SsoAccepted(isPost, req, lib) ==>
              var reply := SsoFlow(isPost, req, lib).reply;
              reply.status == 500 && reply.headers == map[] && reply.payload.value.Content?
    ensures var b := SsoBinding(isPost, req);
            lib.decodeBase64(b.samlRequest, b.isDeflated).Failure? ==>
              SsoFlow(isPost, req, lib).reply == ServerError(lib.decodeBase64(b.samlRequest, b.isDeflated).error)
    ensures var b := SsoBinding(isPost, req);
            var decoded := lib.decodeBase64(b.samlRequest, b.isDeflated);
            decoded.Success? && lib.parseSamlRequest(decoded.value, isPost).Failure? ==>
              SsoFlow(isPost, req, lib).reply == ServerError(lib.parseSamlRequest(decoded.value, isPost).error)
    ensures var b := SsoBinding(true, req);
            var decoded := lib.decodeBase64(b.samlRequest, b.isDeflated);
            var parsed := if decoded.Success? then lib.parseSamlRequest(decoded.value, true) else Failure("");
            isPost && decoded.Success? && parsed.Success? && lib.hasValidSignature(decoded.value, parsed.value.publicKey).Failure? ==>
              SsoFlow(true, req, lib).reply == ServerError(lib.hasValidSignature(decoded.value, parsed.value.publicKey).error)
  {
  }

  /** A POST request whose signature the library reports invalid gets 500 "Error: Invalid signature". */
  lemma InvalidSignatureRejected(req: Request, lib: Library)
    requires var b := SsoBinding(true, req);
             var decoded := lib.decodeBase64(b.samlRequest, b.isDeflated);
             && decoded.Success?
             && lib.parseSamlRequest(decoded.value, true).Success?
             && lib.hasValidSignature(decoded.value, lib.parseSamlRequest(decoded.value, true).value.publicKey) == Success(false)
    ensures SsoFlow(true, req, lib).reply == Reply(500, map[], Some(Content(InvalidSignatureText)))
  {
  }

  /**
   * On success the answer is a 302 to /login whose query has the keys id, audience, acsUrl,
   * providerName, relayState in that order, holding the parsed fields and the incoming
   * RelayState of the same binding.
   */
  lemma SuccessRedirectsToLogin(isPost: bool, req: Request, lib: Library)
    requires SsoAccepted(isPost, req, lib)
    ensures var b := SsoBinding(isPost, req);
            var request := lib.parseSamlRequest(lib.decodeBase64(b.samlRequest, b.isDeflated).value, isPost).value;
            var reply := SsoFlow(isPost, req, lib).reply;
            && reply.status == 302
            && reply.payload.value.RedirectTo?
            && reply.payload.value.path == LoginPath
            && Keys(reply.payload.value.query) == ["id", "audience", "acsUrl", "providerName", "relayState"]
            && reply.payload.value.query[0].value == request.id
            && reply.payload.value.query[1].value == request.audience
            && reply.payload.value.query[2].value == request.acsUrl
            && reply.payload.value.query[3].value == request.providerName
            && reply.payload.value.query[4].value == Find(if isPost then req.body else req.query, "RelayState")
  {
    var b := SsoBinding(isPost, req);
    var request := lib.parseSamlRequest(lib.decodeBase64(b.samlRequest, b.isDeflated).value, isPost).value;
    assert Keys(LoginParams(request, b.relayState)) == ["id", "audience", "acsUrl", "providerName", "relayState"];
  }

  // ---------------------------------------------------------------- /api/saml/auth

  /** The allow-list: the email ends with "@example.com" or "@example.org". */
  predicate IsAllowedEmail(email: string): (allowed: bool)
    ensures allowed ==> |email| >= 12 && email[|email| - 12] == '@'
    ensures allowed ==> email[|email| - 11..] == "example.com" || email[|email| - 11..] == "example.org"
  {
    EndsWith(email, AllowedSuffixes[0]) || EndsWith(email, AllowedSuffixes[1])
  }

  /** `email.split('@')[0]`. */
  function LocalPart(email: string): (name: string)
    ensures name <= email && '@' !in name
    ensures |name| == |email| || email[|name|] == '@'
  {
    FirstPieceIsPrefixBeforeSeparator(email, '@');
    Split(email, '@')[0]
  }

  /** The user record: hashed id, the email unchanged, the local part as both names. */
  function UserFor(email: string, node: Node): (user: User)
    ensures user.email == email && user.id == node.sha256Hex(email)
    ensures user.firstName == user.lastName == LocalPart(email)
  {
    var userName := LocalPart(email);
    User(node.sha256Hex(email), email, userName, userName)
  }

  /** The hidden fields of the post form, RelayState first. */
  function PostFormFields(relayState: Option<string>, encodedResponse: string): (fields: seq<FormField>)
    ensures |fields| == 2 && fields[0].name == "RelayState" && fields[1].name == "SAMLResponse"
    ensures fields[0].value == relayState && fields[1].value == Some(encodedResponse)
  {
    [FormField("RelayState", relayState), FormField("SAMLResponse", Some(encodedResponse))]
  }

  function ResponseOptionsFor(req: Request, email: string, cfg: IdpConfig, node: Node): (options: ResponseOptions)
    ensures options.issuer == cfg.entityId && options.requestId == Find(req.body, "id")
    ensures options.audience == Find(req.body, "audience") && options.acsUrl == Find(req.body, "acsUrl")
    ensures options.claims.email == email && options.claims.raw == UserFor(email, node)
    ensures options.privateKey == cfg.privateKey && options.publicKey == cfg.publicKey
  {
    var user := UserFor(email, node);
    ResponseOptions(
      GetEntityId(cfg.entityId, Find(req.query, "namespace")),
      Find(req.body, "audience"),
      Find(req.body, "acsUrl"),
      Find(req.body, "id"),
      Claims(user.email, user),
      cfg.privateKey,
      cfg.publicKey)
  }

  /**
   * The /api/saml/auth handler. An email that is not a string makes `email.endsWith`
   * throw before anything is sent; a rejected email gets 403 before any library call; an
   * accepted one gets the post form, or 500 "Internal Server Error" if the library throws.
   */
  function AuthFlow(req: Request, cfg: IdpConfig, lib: Library, node: Node): (run: Run)
    ensures run.reply.headers == map[]
    ensures run.reply.payload.None? <==> Find(req.body, "email").None?
    ensures run.reply.status in {200, 403, 500}
    ensures |run.calls| <= 2
  {
    match Find(req.body, "email")
    case None => Run(Initial, [])
    case Some(email) =>
      if !IsAllowedEmail(email) then
        Run(Initial.(status := 403, payload := Some(Content(email + " denied access"))), [])
      else
        var options := ResponseOptionsFor(req, email, cfg, node);
        var create := CreateSamlResponse(options);
        match lib.createSamlResponse(options)
        case Failure(_) => Run(ServerError(InternalErrorText), [create])
        case Success(xmlSigned) =>
          var fields := PostFormFields(Find(req.body, "relayState"), node.toBase64(xmlSigned));
          var form := CreatePostForm(Find(req.body, "acsUrl"), fields);
          match lib.createPostForm(Find(req.body, "acsUrl"), fields)
          case Failure(_) => Run(ServerError(InternalErrorText), [create, form])
          case Success(html) => Run(Initial.(payload := Some(Content(html))), [create, form])
  }

  /**
   * An email outside the allow-list gets 403 "<email> denied access" and no library call is
   * made, so no SAML response is created; an allowed one always reaches the response builder.
   */
  lemma RejectedEmailGetsForbidden(req: Request, cfg: IdpConfig, lib: Library, node: Node)
    requires Find(req.body, "email").Some?
    ensures var email := Find(req.body, "email").value;
            !IsAllowedEmail(email) <==> AuthFlow(req, cfg, lib, node).reply.status == 403
    ensures var email := Find(req.body, "email").value;
            !IsAllowedEmail(email) ==>
              AuthFlow(req, cfg, lib, node) == Run(Reply(403, map[], Some(Content(email + " denied access"))), [])
    ensures var email := Find(req.body, "email").value;
            IsAllowedEmail(email) ==> AuthFlow(req, cfg, lib, node).calls[0].CreateSamlResponse?
  {
  }

  /** An email ending in "@" + d, with no '@' in d, has d after its last '@'. */
  lemma DomainAfterLastAt(local: string, domain: string, d: string)
    requires '@' !in domain && '@' !in d
    requires EndsWith(local + "@" + domain, "@" + d)
    ensures domain == d
  {
    var email := local + "@" + domain;
    var front := email[..|email| - |d| - 1];
    assert email == front + "@" + d;
    SplitAfterLastSeparator(local, domain, '@');
    SplitAfterLastSeparator(front, d, '@');
  }

  /** Appending "@" and one of the two domains gives an email the allow-list accepts. */
  lemma AllowedDomainPasses(local: string, domain: string)
    requires domain == "example.com" || domain == "example.org"
    ensures IsAllowedEmail(local + "@" + domain)
  {
    var email := local + "@" + domain;
    assert email[|email| - 12..] == "@" + domain;
  }

  /**
   * For an email whose part after the last '@' is `domain`, the allow-list accepts it
   * exactly when that domain is example.com or example.org.
   */
  lemma AllowListIsTheTwoDomains(local: string, domain: string)
    requires '@' !in domain
    ensures IsAllowedEmail(local + "@" + domain) <==> domain == "example.com" || domain == "example.org"
  {
    if domain == "example.com" || domain == "example.org" {
      AllowedDomainPasses(local, domain);
    } else if EndsWith(local + "@" + domain, AllowedSuffixes[0]) {
      DomainAfterLastAt(local, domain, "example.com");
    } else if EndsWith(local + "@" + domain, AllowedSuffixes[1]) {
      DomainAfterLastAt(local, domain, "example.org");
    }
  }

  /** An allowed email has a local part followed by '@'. */
  lemma AllowedEmailHasLocalPart(email: string)
    requires IsAllowedEmail(email)
    ensures |LocalPart(email)| < |email| && email[|LocalPart(email)|] == '@'
    ensures '@' !in LocalPart(email) && LocalPart(email) <= email
  {
    var p := LocalPart(email);
    FirstPieceIsPrefixBeforeSeparator(email, '@');
    assert email[|email| - 12] == '@';
    assert forall i :: 0 <= i < |p| ==> email[i] == p[i] && p[i] != '@';
    assert |p| <= |email| - 12;
  }

  /** For any `local` without '@', the user name of `local@domain` is `local`. */
  lemma LocalPartOfComposedEmail(local: string, domain: string)
    requires '@' !in local
    ensures LocalPart(local + "@" + domain) == local
  {
    SplitAtFirstSeparator(local, domain, '@');
  }

  /**
   * For an accepted email the response builder receives: the configured entity ID as
   * issuer, the body's audience and acsUrl, `requestId` = the body's id, the email unchanged
   * as claim, and a user whose first and last names are both the part before the first '@'.
   */
  lemma UserDerivedFromEmail(req: Request, cfg: IdpConfig, lib: Library, node: Node)
    requires Find(req.body, "email").Some? && IsAllowedEmail(Find(req.body, "email").value)
    ensures var email := Find(req.body, "email").value;
            var call := AuthFlow(req, cfg, lib, node).calls[0];
            && call.CreateSamlResponse?
            && call.options.issuer == cfg.entityId
            && call.options.audience == Find(req.body, "audience")
            && call.options.acsUrl == Find(req.body, "acsUrl")
            && call.options.requestId == Find(req.body, "id")
            && call.options.claims.email == email
            && call.options.claims.raw.email == email
            && call.options.claims.raw.firstName == call.options.claims.raw.lastName
            && |call.options.claims.raw.firstName| < |email|
            && call.options.claims.raw.firstName + email[|call.options.claims.raw.firstName|..] == email
            && email[|call.options.claims.raw.firstName|] == '@'
            && '@' !in call.options.claims.raw.firstName
            && call.options.privateKey == cfg.privateKey
            && call.options.publicKey == cfg.publicKey
  {
    var email := Find(req.body, "email").value;
    AllowedEmailHasLocalPart(email);
    assert LocalPart(email) + email[|LocalPart(email)|..] == email;
  }

  /**
   * Once the response is built, the post form targets the same acsUrl the response was
   * built for, with RelayState then the base64 response; the handler sends that form, and
   * any library failure gives 500 "Internal Server Error".
   */
  lemma PostFormThreadsRequest(req: Request, cfg: IdpConfig, lib: Library, node: Node)
    requires Find(req.body, "email").Some? && IsAllowedEmail(Find(req.body, "email").value)
    ensures var run := AuthFlow(req, cfg, lib, node);
            var options := run.calls[0].options;
            var built := lib.createSamlResponse(options);
            && (built.Failure? ==> run == Run(Reply(500, map[], Some(Content(InternalErrorText))), [CreateSamlResponse(options)]))
            && (built.Success? ==>
                  && |run.calls| == 2
                  && run.calls[1] == CreatePostForm(options.acsUrl,
                       [FormField("RelayState", Find(req.body, "relayState")),
                        FormField("SAMLResponse", Some(node.toBase64(built.value)))])
                  && (lib.createPostForm(options.acsUrl, run.calls[1].fields).Success? ==>
                        run.reply == Reply(200, map[], Some(Content(lib.createPostForm(options.acsUrl, run.calls[1].fields).value))))
                  && (lib.createPostForm(options.acsUrl, run.calls[1].fields).Failure? ==>
                        run.reply == Reply(500, map[], Some(Content(InternalErrorText)))))
  {
  }

  // ---------------------------------------------------------------- /api/saml/metadata

  function MetadataOptionsFor(cfg: IdpConfig, lib: Library): (options: MetadataOptions)
    ensures options.entityId == cfg.entityId && options.wantAuthnRequestsSigned
    ensures options.ssoUrl == (if cfg.appUrl == "" then ErrorRoute else cfg.appUrl + SsoRoute)
    ensures options.x509cert == lib.stripCertHeaderAndFooter(cfg.publicKey)
  {
    var namespace := Some(MetadataNamespace);
    MetadataOptions(
      GetEntityId(cfg.entityId, namespace),
      GetSsoUrl(Some(cfg.appUrl), namespace),
      lib.stripCertHeaderAndFooter(cfg.publicKey),
      true)
  }

  /** The metadata handler: strip the certificate, build the XML, send it as text/xml. */
  function MetadataFlow(cfg: IdpConfig, lib: Library): (run: Run)
    ensures run.reply.status == 200
    ensures run.reply.headers == map["Content-type" := "text/xml"]
    ensures run.reply.payload.Some? && run.reply.payload.value.Content?
    ensures |run.calls| == 2 && run.calls[0] == StripCertHeaderAndFooter(cfg.publicKey)
    ensures run.calls[1].CreateIdPMetadataXml?
    ensures run.reply.payload.value.text == lib.createIdPMetadataXml(run.calls[1].metadata)
  {
    var options := MetadataOptionsFor(cfg, lib);
    Run(Initial.(headers := map["Content-type" := "text/xml"],
                 payload := Some(Content(lib.createIdPMetadataXml(options)))),
        [StripCertHeaderAndFooter(cfg.publicKey), CreateIdPMetadataXml(options)])
  }

  /**
   * Metadata advertises the configured entity ID, signed AuthnRequests, and, for a loaded
   * configuration, the SSO endpoint under APP_URL (or its default): never "/error".
   */
  lemma MetadataAdvertisesSsoEndpoint(env: Environment, asciiOfBase64: string -> string, lib: Library)
    ensures var cfg := LoadConfig(env, asciiOfBase64);
            var options := MetadataFlow(cfg, lib).calls[1].metadata;
            && options.entityId == cfg.entityId
            && options.wantAuthnRequestsSigned
            && options.ssoUrl != ErrorRoute
            && options.ssoUrl == cfg.appUrl + SsoRoute
            && options.x509cert == lib.stripCertHeaderAndFooter(cfg.publicKey)
  {
  }
}
