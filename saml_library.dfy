/**
 * The interface of `@boxyhq/saml20` as index.js uses it, and of the two Node primitives it
 * calls. None of these is implemented here: each is an arbitrary total function, and every
 * call that may throw returns a `Result` whose failure is the thrown error's text.
 */
module SamlLibrary {
  import opened Wrappers

  /** Decoded AuthnRequest XML; its structure is the library's business. */
  type Xml = string

  /** The fields `parseSAMLRequest` hands back; any of them may be undefined. */
  datatype AuthnRequest = AuthnRequest(
    id: Option<string>,
    audience: Option<string>,
    acsUrl: Option<string>,
    providerName: Option<string>,
    publicKey: Option<string>)

  /** The user record built for an accepted email. */
  datatype User = User(id: string, email: string, firstName: string, lastName: string)

  datatype Claims = Claims(email: string, raw: User)

  /** The options object given to `createSAMLResponse`. */
  datatype ResponseOptions = ResponseOptions(
    issuer: string,
    audience: Option<string>,
    acsUrl: Option<string>,
    requestId: Option<string>,
    claims: Claims,
    privateKey: string,
    publicKey: string)

  /** One hidden input of the auto-submitting form. */
  datatype FormField = FormField(name: string, value: Option<string>)

  /** The options object given to `createIdPMetadataXML`. */
  datatype MetadataOptions = MetadataOptions(
    entityId: string,
    ssoUrl: string,
    x509cert: string,
    wantAuthnRequestsSigned: bool)

  /** One call into the library, with the arguments it received. */
  datatype Call =
    | DecodeBase64(input: Option<string>, isDeflated: bool)
    | ParseSamlRequest(raw: Xml, isPost: bool)
    | HasValidSignature(raw: Xml, publicKey: Option<string>)
    | CreateSamlResponse(options: ResponseOptions)
    | CreatePostForm(acsUrl: Option<string>, fields: seq<FormField>)
    | StripCertHeaderAndFooter(cert: string)
    | CreateIdPMetadataXml(metadata: MetadataOptions)

  /** The library's behaviour, one arbitrary function per entry point. */
  datatype Library = Library(
    decodeBase64: (Option<string>, bool) -> Result<Xml, string>,
    parseSamlRequest: (Xml, bool) -> Result<AuthnRequest, string>,
    hasValidSignature: (Xml, Option<string>) -> Result<bool, string>,
    createSamlResponse: ResponseOptions -> Result<string, string>,
    createPostForm: (Option<string>, seq<FormField>) -> Result<string, string>,
    stripCertHeaderAndFooter: string -> string,
    createIdPMetadataXml: MetadataOptions -> string)

  /** Node's `crypto` SHA-256 hex digest and `Buffer` base64 encoding. */
  datatype Node = Node(sha256Hex: string -> string, toBase64: string -> string)
}
