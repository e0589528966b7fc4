/**
 * index.js's route handlers as they run: local variables set across branches, one library
 * call after another, and the Express response updated in place. Each handler is proved to
 * leave the response, and to make the calls, that the matching function of `Handlers` says.
 */
module Routes {
  import opened Wrappers
  import opened Config
  import opened SamlLibrary
  import opened Http
  import opened Handlers

  datatype HttpMethod = Get | Post

  /** The handlers index.js registers. */
  datatype Endpoint = Metadata | Auth | Sso(isPost: bool) | LoginPage

  const MetadataPath := "/api/saml/metadata"
  const AuthPath := "/api/saml/auth"

  /** The route table: GET and POST on the SSO path both reach the pipeline. */
  function Route(m: HttpMethod, path: string): (e: Option<Endpoint>)
    ensures e.Some? && e.value.Sso? ==> path == SsoRoute && e.value.isPost == (m == Post)
    ensures e == Some(Metadata) ==> m == Get && path == MetadataPath
    ensures e == Some(Auth) ==> m == Post && path == AuthPath
    ensures e == Some(LoginPage) ==> m == Get && path == LoginPath
  {
    match m
    case Get =>
      if path == MetadataPath then Some(Metadata)
      else if path == SsoRoute then Some(Sso(false))
      else if path == LoginPath then Some(LoginPage)
      else None
    case Post =>
      if path == AuthPath then Some(Auth)
      else if path == SsoRoute then Some(Sso(true))
      else None
  }

  /** The SSO path is served for both methods, and the pipeline's `isPost` is "the method is POST". */
  lemma SsoBindingFollowsMethod(m: HttpMethod)
    ensures Route(m, SsoRoute) == Some(Sso(m == Post))
    ensures Route(m, MetadataPath) == (if m == Get then Some(Metadata) else None)
    ensures Route(m, AuthPath) == (if m == Post then Some(Auth) else None)
  {
  }

  /** `processSAMLRequest(req, res, isPost)`. */
  method ProcessSamlRequest(req: Request, res: ServerResponse, isPost: bool, lib: Library)
    returns (calls: seq<Call>)
    requires res.Current() == Initial
    modifies res
    ensures Run(res.Current(), calls) == SsoFlow(isPost, req, lib)
  {
    var samlRequest, relayState, isDeflated;
    if isPost {
      relayState := Find(req.body, "RelayState");
      samlRequest := Find(req.body, "SAMLRequest");
      isDeflated := false;
    } else {
      relayState := Find(req.query, "RelayState");
      samlRequest := Find(req.query, "SAMLRequest");
      isDeflated := true;
    }

    // The try block: `thrown` is the text of the error that ends it, if any.
    var thrown: Option<string> := None;
    calls := [DecodeBase64(samlRequest, isDeflated)];
    var decoded := lib.decodeBase64(samlRequest, isDeflated);
    if decoded.Failure? {
      thrown := Some(decoded.error);
    } else {
      var rawRequest := decoded.value;
      calls := calls + [ParseSamlRequest(rawRequest, isPost)];
      var parsed := lib.parseSamlRequest(rawRequest, isPost);
      if parsed.Failure? {
        thrown := Some(parsed.error);
      } else {
        var request := parsed.value;
        if isPost {
          calls := calls + [HasValidSignature(rawRequest, request.publicKey)];
          var check := lib.hasValidSignature(rawRequest, request.publicKey);
          if check.Failure? {
            thrown := Some(check.error);
          } else if !check.value {
            thrown := Some(InvalidSignatureText);
          }
        }
        if thrown.None? {
          var params := LoginParams(request, relayState);
          res.Redirect(302, LoginPath, params);
        }
      }
    }
    // The catch block.
    if thrown.Some? {
      res.Status(500);
      res.Send(thrown.value);
    }
  }

  /** GET /api/saml/sso: the Redirect binding. */
  method GetSso(req: Request, res: ServerResponse, lib: Library) returns (calls: seq<Call>)
    requires res.Current() == Initial
    modifies res
    ensures Run(res.Current(), calls) == SsoFlow(false, req, lib)
  {
    calls := ProcessSamlRequest(req, res, false, lib);
  }

  /** POST /api/saml/sso: the POST binding. */
  method PostSso(req: Request, res: ServerResponse, lib: Library) returns (calls: seq<Call>)
    requires res.Current() == Initial
    modifies res
    ensures Run(res.Current(), calls) == SsoFlow(true, req, lib)
  {
    calls := ProcessSamlRequest(req, res, true, lib);
  }

  /** GET /api/saml/metadata. */
  method GetMetadata(res: ServerResponse, cfg: IdpConfig, lib: Library) returns (calls: seq<Call>)
    requires res.Current() == Initial
    modifies res
    ensures Run(res.Current(), calls) == MetadataFlow(cfg, lib)
  {
    var namespace := Some(MetadataNamespace);
    var cert := lib.stripCertHeaderAndFooter(cfg.publicKey);
    var options := MetadataOptions(
      GetEntityId(cfg.entityId, namespace),
      GetSsoUrl(Some(cfg.appUrl), namespace),
      cert,
      true);
    var xml := lib.createIdPMetadataXml(options);
    calls := [StripCertHeaderAndFooter(cfg.publicKey), CreateIdPMetadataXml(options)];
    res.SetHeader("Content-type", "text/xml");
    res.Send(xml);
  }

  /** POST /api/saml/auth. */
  method PostAuth(req: Request, res: ServerResponse, cfg: IdpConfig, lib: Library, node: Node)
    returns (calls: seq<Call>)
    requires res.Current() == Initial
    modifies res
    ensures Run(res.Current(), calls) == AuthFlow(req, cfg, lib, node)
  {
    var email := Find(req.body, "email");
    var audience := Find(req.body, "audience");
    var acsUrl := Find(req.body, "acsUrl");
    var id := Find(req.body, "id");
    var relayState := Find(req.body, "relayState");
    var namespace := Find(req.query, "namespace");
    calls := [];

    if email.None? {
      // `email.endsWith` throws a TypeError outside the try block: nothing is sent.
      return;
    }
    if !IsAllowedEmail(email.value) {
      res.Status(403);
      res.Send(email.value + " denied access");
      return;
    }

    var userName := LocalPart(email.value);
    var user := User(node.sha256Hex(email.value), email.value, userName, userName);

    var options := ResponseOptions(
      GetEntityId(cfg.entityId, namespace), audience, acsUrl, id,
      Claims(user.email, user), cfg.privateKey, cfg.publicKey);
    calls := [CreateSamlResponse(options)];
    var built := lib.createSamlResponse(options);
    if built.Failure? {
      res.Status(500);
      res.Send(InternalErrorText);
      return;
    }
    var encodedSamlResponse := node.toBase64(built.value);
    var fields := [FormField("RelayState", relayState), FormField("SAMLResponse", Some(encodedSamlResponse))];
    calls := calls + [CreatePostForm(acsUrl, fields)];
    var html := lib.createPostForm(acsUrl, fields);
    if html.Failure? {
      res.Status(500);
      res.Send(InternalErrorText);
      return;
    }
    res.Send(html.value);
  }

  /** One request to a route of the table, handed to its handler; the login page is not modelled. */
  method Handle(m: HttpMethod, path: string, req: Request, res: ServerResponse,
                cfg: IdpConfig, lib: Library, node: Node) returns (calls: seq<Call>)
    requires res.Current() == Initial
    requires Route(m, path).Some? && !Route(m, path).value.LoginPage?
    modifies res
    ensures Route(m, path) == Some(Sso(false)) ==> Run(res.Current(), calls) == SsoFlow(false, req, lib)
    ensures Route(m, path) == Some(Sso(true)) ==> Run(res.Current(), calls) == SsoFlow(true, req, lib)
    ensures Route(m, path) == Some(Auth) ==> Run(res.Current(), calls) == AuthFlow(req, cfg, lib, node)
    ensures Route(m, path) == Some(Metadata) ==> Run(res.Current(), calls) == MetadataFlow(cfg, lib)
  {
    match Route(m, path).value
    case Metadata => calls := GetMetadata(res, cfg, lib);
    case Auth => calls := PostAuth(req, res, cfg, lib, node);
    case Sso(isPost) =>
      if isPost {
        calls := PostSso(req, res, lib);
      } else {
        calls := GetSso(req, res, lib);
      }
  }
}
