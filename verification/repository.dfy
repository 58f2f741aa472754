/** The repository in front of the external 1C service: configuration lookup,
    the parameter record of each operation, and the signed multipart request. */
module C1Repository {
  import opened Base
  import opened Text
  import opened Models
  import opened Rest

  // Configuration keys read by the repository.
  const ApiUrlKey := "1C_ApiUrl"
  const EncodingKey := "1C_Encoding"
  const TemplateKey := "1C_CertificateTemplate"
  const AuthorityKey := "1C_CertificateAuthority"
  const ExclusiveAccessKey := "1C_ExclusiveAccess"

  /** AppSettings.Settings: a key maps to a setting whose value may be null. */
  type Configuration = map<string, Option<string>>

  /** What the repository throws. */
  datatype Error =
    | NoConfiguration
    | MissingKey(key: string)
    | NullValue(key: string)
    | UnknownEncoding(name: string)
    | NotAGuid(key: string, text: string)
    | NotABool(key: string, text: string)
    | EmptyUrl
    | NullData
    | Unsuccessful(inner: string)

  /** Library code the repository calls but that is not modelled: JSON
      serialisation, text encodings, and the parsers used at construction. */
  datatype Library = Library(
    serialize: Json -> string,
    encodingExists: string -> bool,
    getBytes: (string, string) -> seq<byte>,
    parseGuid: string -> Option<Guid>,
    parseBool: string -> Option<bool>)

  /** A constructed repository: its collaborators and the settings read once at
      construction. The API URL is not among them: the REST client is created
      lazily, on the first request. */
  datatype Repository = Repository(
    library: Library,
    sign: seq<byte> -> seq<byte>,
    configuration: Option<Configuration>,
    encoding: string,
    template: Guid,
    authority: Guid,
    exclusiveAccess: bool)

  /** A configuration value by key. */
  function GetConfig(configuration: Option<Configuration>, key: string): (r: Result<string, Error>)
    ensures configuration.None? ==> r == Failure(NoConfiguration)
    ensures configuration.Some? && key !in configuration.value ==> r == Failure(MissingKey(key))
    ensures configuration.Some? && key in configuration.value && configuration.value[key].None? ==> r == Failure(NullValue(key))
    ensures r.Success? <==> configuration.Some? && key in configuration.value && configuration.value[key].Some?
    ensures r.Success? ==> r.value == configuration.value[key].value
  {
    if configuration.None? then Failure(NoConfiguration)
    else if key !in configuration.value then Failure(MissingKey(key))
    else match configuration.value[key]
      case None => Failure(NullValue(key))
      case Some(v) => Success(v)
  }

  function ParseGuidSetting(library: Library, key: string, text: string): Result<Guid, Error> {
    match library.parseGuid(text)
    case None => Failure(NotAGuid(key, text))
    case Some(g) => Success(g)
  }

  /** The repository constructor: reads the encoding, template, authority and
      exclusive-access settings, in that order, and stops at the first that is
      missing or does not parse. */
  function Construct(library: Library, sign: seq<byte> -> seq<byte>, configuration: Option<Configuration>): (r: Result<Repository, Error>)
    ensures var e := GetConfig(configuration, EncodingKey);
      && (e.Failure? ==> r == Failure(e.error))
      && (e.Success? && !library.encodingExists(e.value) ==> r == Failure(UnknownEncoding(e.value)))
    ensures var e := GetConfig(configuration, EncodingKey);
            var t := GetConfig(configuration, TemplateKey);
      e.Success? && library.encodingExists(e.value) ==>
        && (t.Failure? ==> r == Failure(t.error))
        && (t.Success? && library.parseGuid(t.value).None? ==> r == Failure(NotAGuid(TemplateKey, t.value)))
    ensures var e := GetConfig(configuration, EncodingKey);
            var t := GetConfig(configuration, TemplateKey);
            var a := GetConfig(configuration, AuthorityKey);
      e.Success? && library.encodingExists(e.value) && t.Success? && library.parseGuid(t.value).Some? ==>
        && (a.Failure? ==> r == Failure(a.error))
        && (a.Success? && library.parseGuid(a.value).None? ==> r == Failure(NotAGuid(AuthorityKey, a.value)))
    ensures var e := GetConfig(configuration, EncodingKey);
            var t := GetConfig(configuration, TemplateKey);
            var a := GetConfig(configuration, AuthorityKey);
            var x := GetConfig(configuration, ExclusiveAccessKey);
      e.Success? && library.encodingExists(e.value) && t.Success? && library.parseGuid(t.value).Some?
        && a.Success? && library.parseGuid(a.value).Some? ==>
        && (x.Failure? ==> r == Failure(x.error))
        && (x.Success? && library.parseBool(x.value).None? ==> r == Failure(NotABool(ExclusiveAccessKey, x.value)))
    ensures r.Success? <==>
      && GetConfig(configuration, EncodingKey).Success?
      && library.encodingExists(GetConfig(configuration, EncodingKey).value)
      && GetConfig(configuration, TemplateKey).Success?
      && library.parseGuid(GetConfig(configuration, TemplateKey).value).Some?
      && GetConfig(configuration, AuthorityKey).Success?
      && library.parseGuid(GetConfig(configuration, AuthorityKey).value).Some?
      && GetConfig(configuration, ExclusiveAccessKey).Success?
      && library.parseBool(GetConfig(configuration, ExclusiveAccessKey).value).Some?
    ensures r.Success? ==>
      && r.value.library == library
      && r.value.sign == sign
      && r.value.configuration == configuration
      && r.value.encoding == GetConfig(configuration, EncodingKey).value
      && Some(r.value.template) == library.parseGuid(GetConfig(configuration, TemplateKey).value)
      && Some(r.value.authority) == library.parseGuid(GetConfig(configuration, AuthorityKey).value)
      && Some(r.value.exclusiveAccess) == library.parseBool(GetConfig(configuration, ExclusiveAccessKey).value)
  {
    var encoding :- GetConfig(configuration, EncodingKey);
    if !library.encodingExists(encoding) then Failure(UnknownEncoding(encoding)) else
    var templateText :- GetConfig(configuration, TemplateKey);
    var template :- ParseGuidSetting(library, TemplateKey, templateText);
    var authorityText :- GetConfig(configuration, AuthorityKey);
    var authority :- ParseGuidSetting(library, AuthorityKey, authorityText);
    var exclusiveText :- GetConfig(configuration, ExclusiveAccessKey);
    match library.parseBool(exclusiveText)
    case None => Failure(NotABool(ExclusiveAccessKey, exclusiveText))
    case Some(exclusive) =>
      Success(Repository(library, sign, configuration, encoding, template, authority, exclusive))
  }

  /** The API URL is read only when a request is sent, so it does not decide
      whether construction succeeds. */
  lemma ConstructIgnoresApiUrl(library: Library, sign: seq<byte> -> seq<byte>, configuration: Configuration, url: Option<string>)
    ensures Construct(library, sign, Some(configuration)).Success?
        <==> Construct(library, sign, Some(configuration[ApiUrlKey := url])).Success?
    ensures Construct(library, sign, Some(configuration)).Success?
        <==> Construct(library, sign, Some(configuration - {ApiUrlKey})).Success?
  {
  }

  // ---------------------------------------------------------------------------
  // The signed request

  /** The caller's request hook. The only hook in the repository attaches the
      document being signed. */
  datatype Transform = AttachDocument(document: FinanceDocument)

  /** One call into a collaborator, in the order the request makes them. */
  datatype Effect =
    | Serialized(data: Json)
    | Encoded(encoding: string, text: string)
    | Signed(bytes: seq<byte>)
    | Sent(request: Wire)

  const MultipartHeader := Header("Content-type", "multipart/form-data")

  /** The file part that carries the detached signature over the request JSON. */
  function SignaturePart(signature: seq<byte>): FilePart {
    FilePart("request", Some(signature), Some("request.json"), Some("application/json"))
  }

  /** The file part that carries a document to be signed. */
  function DocumentPart(document: FinanceDocument): FilePart {
    FilePart("data", document.data, document.name, document.mimeType)
  }

  /** The parts a hook appends. */
  function HookParts(transform: Option<Transform>): seq<FilePart> {
    match transform
    case None => []
    case Some(AttachDocument(document)) => [DocumentPart(document)]
  }

  /** The bytes given to the signer: the serialised data in the configured encoding. */
  function PayloadBytes(repo: Repository, data: Json): seq<byte> {
    repo.library.getBytes(repo.encoding, repo.library.serialize(data))
  }

  /** The request Request sends for `data` to `baseUrl` + `url`. */
  function Outgoing(repo: Repository, baseUrl: string, url: string, data: Json, transform: Option<Transform>, verb: HttpMethod): Wire {
    Wire(baseUrl, url, verb, [MultipartHeader],
         [SignaturePart(repo.sign(PayloadBytes(repo, data)))] + HookParts(transform))
  }

  predicate IsSuccessStatusCode(statusCode: int) {
    200 <= statusCode && statusCode <= 299
  }

  /** What Request returns. */
  function RequestResult<T>(repo: Repository, url: Option<string>, data: Option<Json>, transform: Option<Transform>,
                            verb: HttpMethod, execute: Wire -> HttpResponse<T>): Result<Option<Envelope<T>>, Error>
  {
    if IsNullOrEmpty(url) then Failure(EmptyUrl)
    else if data.None? then Failure(NullData)
    else match GetConfig(repo.configuration, ApiUrlKey)
      case Failure(e) => Failure(e)
      case Success(baseUrl) =>
        var response := execute(Outgoing(repo, baseUrl, url.value, data.value, transform, verb));
        if IsSuccessStatusCode(response.statusCode) then Success(response.data)
        else Failure(Unsuccessful(response.content))
  }

  /** The collaborator calls Request makes. */
  function RequestTrace(repo: Repository, url: Option<string>, data: Option<Json>, transform: Option<Transform>,
                        verb: HttpMethod): seq<Effect>
  {
    if IsNullOrEmpty(url) || data.None? then []
    else
      var message := repo.library.serialize(data.value);
      [Serialized(data.value), Encoded(repo.encoding, message), Signed(repo.library.getBytes(repo.encoding, message))]
      + match GetConfig(repo.configuration, ApiUrlKey)
        case Failure(_) => []
        case Success(baseUrl) => [Sent(Outgoing(repo, baseUrl, url.value, data.value, transform, verb))]
  }

  /** Runs a request hook against the request being built. */
  method Apply(transform: Transform, request: RestRequest)
    modifies request
    ensures request.files == old(request.files) + HookParts(Some(transform))
    ensures request.headers == old(request.headers)
  {
    match transform
    case AttachDocument(document) =>
      request.AddFileBytes("data", document.data, document.name, document.mimeType);
  }

  /** Serialises `data`, signs it, sends the signature as a multipart file part
      (after which the hook may add more), and accepts only a 2xx response. */
  method Request<T>(repo: Repository, url: Option<string>, data: Option<Json>, transform: Option<Transform>,
                    verb: HttpMethod, execute: Wire -> HttpResponse<T>)
    returns (r: Result<Option<Envelope<T>>, Error>, trace: seq<Effect>)
    ensures r == RequestResult(repo, url, data, transform, verb, execute)
    ensures trace == RequestTrace(repo, url, data, transform, verb)
  {
    if url.None? || |url.value| == 0 {
      return Failure(EmptyUrl), [];
    }
    if data.None? {
      return Failure(NullData), [];
    }
    var message := repo.library.serialize(data.value);
    trace := [Serialized(data.value)];
    var msgBytes := repo.library.getBytes(repo.encoding, message);
    trace := trace + [Encoded(repo.encoding, message)];
    var encodedSignature := repo.sign(msgBytes);
    trace := trace + [Signed(msgBytes)];

    var request := new RestRequest(url.value, verb);
    request.AddHeader("Content-type", "multipart/form-data");
    request.AddFileBytes("request", Some(encodedSignature), Some("request.json"), Some("application/json"));
    if transform.Some? {
      Apply(transform.value, request);
    }
    assert request.headers == [MultipartHeader];
    assert request.files == [SignaturePart(encodedSignature)] + HookParts(transform);

    // The lazily created client reads the API URL on first use.
    var baseUrl := GetConfig(repo.configuration, ApiUrlKey);
    if baseUrl.Failure? {
      return Failure(baseUrl.error), trace;
    }
    var wire := request.ToWire(baseUrl.value);
    trace := trace + [Sent(wire)];
    var response := execute(wire);
    if !IsSuccessStatusCode(response.statusCode) {
      return Failure(Unsuccessful(response.content)), trace;
    }
    r := Success(response.data);
  }

  /** An empty URL or null data is rejected before anything is serialised,
      signed or sent. */
  lemma RequestRejectsBeforeAnyWork<T>(repo: Repository, url: Option<string>, data: Option<Json>, transform: Option<Transform>,
                                       verb: HttpMethod, execute: Wire -> HttpResponse<T>)
    requires IsNullOrEmpty(url) || data.None?
    ensures RequestTrace(repo, url, data, transform, verb) == []
    ensures RequestResult(repo, url, data, transform, verb, execute) == Failure(if IsNullOrEmpty(url) then EmptyUrl else NullData)
  {
  }

  /** Once the arguments pass, the data is serialised, the JSON is encoded, the
      encoded bytes are signed, and only then is the request sent; the first file
      part holds the signature of those bytes, the hook's parts follow it. */
  lemma RequestSignsThenSends<T>(repo: Repository, url: string, data: Json, transform: Option<Transform>,
                                 verb: HttpMethod, execute: Wire -> HttpResponse<T>)
    requires url != []
    ensures var trace := RequestTrace(repo, Some(url), Some(data), transform, verb);
            var json := repo.library.serialize(data);
      && |trace| >= 3
      && trace[0] == Serialized(data)
      && trace[1] == Encoded(repo.encoding, json)
      && trace[2] == Signed(repo.library.getBytes(repo.encoding, json))
    ensures var trace := RequestTrace(repo, Some(url), Some(data), transform, verb);
            var baseUrl := GetConfig(repo.configuration, ApiUrlKey);
      && (baseUrl.Failure? ==> |trace| == 3 && RequestResult(repo, Some(url), Some(data), transform, verb, execute) == Failure(baseUrl.error))
      && (baseUrl.Success? ==>
            && |trace| == 4
            && trace[3].Sent?
            && trace[3].request.baseUrl == baseUrl.value
            && trace[3].request.resource == url
            && trace[3].request.verb == verb
            && trace[3].request.headers == [MultipartHeader]
            && |trace[3].request.files| >= 1
            && trace[3].request.files[0].name == "request"
            && trace[3].request.files[0].fileName == Some("request.json")
            && trace[3].request.files[0].contentType == Some("application/json")
            && trace[3].request.files[0].bytes == Some(repo.sign(repo.library.getBytes(repo.encoding, repo.library.serialize(data))))
            && trace[3].request.files[1..] == HookParts(transform))
  {
  }

  /** A sent request succeeds exactly when the status code is in 200..299, and
      then returns the deserialised envelope unchanged; otherwise the failure
      carries the response body. */
  lemma StatusDecidesOutcome<T>(repo: Repository, url: string, data: Json, transform: Option<Transform>,
                                verb: HttpMethod, execute: Wire -> HttpResponse<T>, baseUrl: string)
    requires url != []
    requires GetConfig(repo.configuration, ApiUrlKey) == Success(baseUrl)
    ensures var response := execute(Outgoing(repo, baseUrl, url, data, transform, verb));
            var r := RequestResult(repo, Some(url), Some(data), transform, verb, execute);
      && (r.Success? <==> 200 <= response.statusCode <= 299)
      && (r.Success? ==> r.value == response.data)
      && (r.Failure? ==> r.error == Unsuccessful(response.content))
  {
  }

  // ---------------------------------------------------------------------------
  // The operations

  function SignParameters(certificateId: Guid, textForUser: Option<string>): Json {
    JObject([Member("certificateGuid", JGuid(certificateId)), Member("text", Str(textForUser)), Member("callbackUri", JString(""))])
  }

  function ActivateParameters(msisdn: Option<string>, iccid: Option<string>): Json {
    JObject([Member("MSISDN", Str(msisdn)), Member("ICCID", Str(iccid)), Member("callbackUri", JString(""))])
  }

  /** The certificate subject: X.500 and PKCS#9 attribute OIDs bound to profile fields. */
  function Subject(request: CertificateRequest): seq<Member> {
    [ Member("2.5.4.3", Str(request.fullName)),
      Member("2.5.4.4", Str(request.surname)),
      Member("2.5.4.42", Str(request.name)),
      Member("2.5.4.6", Str(request.country)),
      Member("2.5.4.8", Str(request.region)),
      Member("2.5.4.7", Str(request.city)),
      Member("1.2.643.100.3", Str(request.inn)),
      Member("1.2.643.3.131.1.1", Str(request.snils)),
      Member("1.2.840.113549.1.9.1", Str(request.email)) ]
  }

  function GenerateParameters(repo: Repository, request: CertificateRequest): Json {
    JObject([ Member("MSISDN", Str(request.msisdn)),
              Member("exclusiveAccess", JBool(repo.exclusiveAccess)),
              Member("authorityGuid", JGuid(repo.authority)),
              Member("templateGuid", JGuid(repo.template)),
              Member("subject", JObject(Subject(request))) ])
  }

  function GetCertificatesParameters(msisdn: Option<string>): Json {
    JObject([Member("MSISDN", Str(msisdn)), Member("callbackUri", JString(""))])
  }

  function GetCertificateParameters(certificateId: Guid): Json {
    JObject([Member("certificateGuid", JGuid(certificateId)), Member("callbackUri", JString(""))])
  }

  function RequestAccessParameters(msisdn: Option<string>): Json {
    JObject([Member("MSISDN", Str(msisdn))])
  }

  function AuthenticateParameters(certificateId: Guid, textForUser: Option<string>): Json {
    JObject([Member("certificateGuid", JGuid(certificateId)), Member("text", Str(textForUser)), Member("callbackUri", JString(""))])
  }

  function TransactionInfoParameters(transactionId: Guid): Json {
    JObject([Member("transactionGuid", JGuid(transactionId))])
  }

  /** The endpoint each operation posts to. */
  function Path(call: Call): string {
    match call
    case SignCall(_, _, _) => "/Sign/Sign"
    case ActivateCall(_, _) => "/Activation/Activate"
    case GenerateCertificateCall(_) => "/Certificates/Generate"
    case GetCertificatesCall(_) => "/Certificates/GetCertificates"
    case GetCertificateCall(_) => "/Certificates/GetCertificate"
    case RequestAccessCall(_) => "/Certificates/RequestAccess"
    case AuthenticateCall(_, _) => "/Authentication/Authenticate"
    case GetTransactionInfoCall(_) => "/Transactions/GetTransactionInfo"
  }

  /** The parameter record each operation serialises. */
  function Parameters(repo: Repository, call: Call): Json {
    match call
    case SignCall(_, certificateId, textForUser) => SignParameters(certificateId, textForUser)
    case ActivateCall(msisdn, iccid) => ActivateParameters(msisdn, iccid)
    case GenerateCertificateCall(request) => GenerateParameters(repo, request)
    case GetCertificatesCall(msisdn) => GetCertificatesParameters(msisdn)
    case GetCertificateCall(certificateId) => GetCertificateParameters(certificateId)
    case RequestAccessCall(msisdn) => RequestAccessParameters(msisdn)
    case AuthenticateCall(certificateId, textForUser) => AuthenticateParameters(certificateId, textForUser)
    case GetTransactionInfoCall(transactionId) => TransactionInfoParameters(transactionId)
  }

  /** The hook each operation passes to Request. */
  function Hook(call: Call): Option<Transform> {
    if call.SignCall? then Some(AttachDocument(call.document)) else None
  }

  /** What an operation returns, and the collaborator calls it makes. */
  function Perform<T>(repo: Repository, call: Call, execute: Wire -> HttpResponse<T>): Result<Option<Envelope<T>>, Error> {
    RequestResult(repo, Some(Path(call)), Some(Parameters(repo, call)), Hook(call), Post, execute)
  }

  function PerformTrace(repo: Repository, call: Call): seq<Effect> {
    RequestTrace(repo, Some(Path(call)), Some(Parameters(repo, call)), Hook(call), Post)
  }

  method Sign(repo: Repository, document: FinanceDocument, certificateId: Guid, textForUser: Option<string>,
              execute: Wire -> HttpResponse<string>)
    returns (r: Result<Option<Envelope<string>>, Error>, trace: seq<Effect>)
    ensures r == Perform(repo, SignCall(document, certificateId, textForUser), execute)
    ensures trace == PerformTrace(repo, SignCall(document, certificateId, textForUser))
  {
    var parameters := SignParameters(certificateId, textForUser);
    r, trace := Request(repo, Some("/Sign/Sign"), Some(parameters), Some(AttachDocument(document)), Post, execute);
  }

  method Activate(repo: Repository, msisdn: Option<string>, iccid: Option<string>, execute: Wire -> HttpResponse<bool>)
    returns (r: Result<Option<Envelope<bool>>, Error>, trace: seq<Effect>)
    ensures r == Perform(repo, ActivateCall(msisdn, iccid), execute)
    ensures trace == PerformTrace(repo, ActivateCall(msisdn, iccid))
  {
    var parameters := ActivateParameters(msisdn, iccid);
    r, trace := Request(repo, Some("/Activation/Activate"), Some(parameters), None, Post, execute);
  }

  method GenerateCertificate(repo: Repository, requestData: CertificateRequest, execute: Wire -> HttpResponse<Guid>)
    returns (r: Result<Option<Envelope<Guid>>, Error>, trace: seq<Effect>)
    ensures r == Perform(repo, GenerateCertificateCall(requestData), execute)
    ensures trace == PerformTrace(repo, GenerateCertificateCall(requestData))
  {
    var parameters := GenerateParameters(repo, requestData);
    r, trace := Request(repo, Some("/Certificates/Generate"), Some(parameters), None, Post, execute);
  }

  method GetCertificates(repo: Repository, msisdn: Option<string>, execute: Wire -> HttpResponse<seq<Guid>>)
    returns (r: Result<Option<Envelope<seq<Guid>>>, Error>, trace: seq<Effect>)
    ensures r == Perform(repo, GetCertificatesCall(msisdn), execute)
    ensures trace == PerformTrace(repo, GetCertificatesCall(msisdn))
  {
    var parameters := GetCertificatesParameters(msisdn);
    r, trace := Request(repo, Some("/Certificates/GetCertificates"), Some(parameters), None, Post, execute);
  }

  method GetCertificate(repo: Repository, certificateId: Guid, execute: Wire -> HttpResponse<string>)
    returns (r: Result<Option<Envelope<string>>, Error>, trace: seq<Effect>)
    ensures r == Perform(repo, GetCertificateCall(certificateId), execute)
    ensures trace == PerformTrace(repo, GetCertificateCall(certificateId))
  {
    var parameters := GetCertificateParameters(certificateId);
    r, trace := Request(repo, Some("/Certificates/GetCertificate"), Some(parameters), None, Post, execute);
  }

  method RequestAccessToCertificate(repo: Repository, msisdn: Option<string>, execute: Wire -> HttpResponse<Guid>)
    returns (r: Result<Option<Envelope<Guid>>, Error>, trace: seq<Effect>)
    ensures r == Perform(repo, RequestAccessCall(msisdn), execute)
    ensures trace == PerformTrace(repo, RequestAccessCall(msisdn))
  {
    var parameters := RequestAccessParameters(msisdn);
    r, trace := Request(repo, Some("/Certificates/RequestAccess"), Some(parameters), None, Post, execute);
  }

  method Authenticate(repo: Repository, certificateId: Guid, textForUser: Option<string>, execute: Wire -> HttpResponse<string>)
    returns (r: Result<Option<Envelope<string>>, Error>, trace: seq<Effect>)
    ensures r == Perform(repo, AuthenticateCall(certificateId, textForUser), execute)
    ensures trace == PerformTrace(repo, AuthenticateCall(certificateId, textForUser))
  {
    var parameters := AuthenticateParameters(certificateId, textForUser);
    r, trace := Request(repo, Some("/Authentication/Authenticate"), Some(parameters), None, Post, execute);
  }

  method GetTransactionInfo<T>(repo: Repository, transactionId: Guid, execute: Wire -> HttpResponse<T>)
    returns (r: Result<Option<Envelope<T>>, Error>, trace: seq<Effect>)
    ensures r == Perform(repo, GetTransactionInfoCall(transactionId), execute)
    ensures trace == PerformTrace(repo, GetTransactionInfoCall(transactionId))
  {
    var parameters := TransactionInfoParameters(transactionId);
    r, trace := Request(repo, Some("/Transactions/GetTransactionInfo"), Some(parameters), None, Post, execute);
  }

  // ---------------------------------------------------------------------------
  // Properties of the operations

  predicate SameOperation(a: Call, b: Call) {
    || (a.SignCall? && b.SignCall?)
    || (a.ActivateCall? && b.ActivateCall?)
    || (a.GenerateCertificateCall? && b.GenerateCertificateCall?)
    || (a.GetCertificatesCall? && b.GetCertificatesCall?)
    || (a.GetCertificateCall? && b.GetCertificateCall?)
    || (a.RequestAccessCall? && b.RequestAccessCall?)
    || (a.AuthenticateCall? && b.AuthenticateCall?)
    || (a.GetTransactionInfoCall? && b.GetTransactionInfoCall?)
  }

  /** Every operation has its own endpoint. */
  lemma PathsIdentifyOperations(a: Call, b: Call)
    ensures Path(a) == Path(b) <==> SameOperation(a, b)
  {
  }

  /** Every operation posts, and its URL and parameter record pass Request's
      own checks: the first effect is the serialisation of that record. */
  lemma OperationsPassRequestChecks<T>(repo: Repository, call: Call, execute: Wire -> HttpResponse<T>)
    ensures Perform(repo, call, execute) != Failure(EmptyUrl)
    ensures Perform(repo, call, execute) != Failure(NullData)
    ensures var trace := PerformTrace(repo, call);
      && |trace| >= 3
      && trace[0] == Serialized(Parameters(repo, call))
      && (|trace| == 4 ==> trace[3].request.resource == Path(call) && trace[3].request.verb == Post)
  {
  }

  /** Sign is the only operation whose request has a second file part, and
      that part carries the document's bytes, name and MIME type unchanged. */
  lemma OnlySignAttachesDocument(repo: Repository, call: Call, baseUrl: string)
    ensures var files := Outgoing(repo, baseUrl, Path(call), Parameters(repo, call), Hook(call), Post).files;
      && files[0] == SignaturePart(repo.sign(PayloadBytes(repo, Parameters(repo, call))))
      && (|files| == 2 <==> call.SignCall?)
      && (!call.SignCall? ==> |files| == 1)
      && (call.SignCall? ==> files[1] == FilePart("data", call.document.data, call.document.name, call.document.mimeType))
  {
  }

  /** Where a parameter record has a callbackUri, it is the empty string. */
  lemma CallbackUriAlwaysEmpty(repo: Repository, call: Call)
    ensures var callback := Property(Parameters(repo, call), "callbackUri");
      && (callback.Some? ==> callback.value == JString(""))
      && (callback.None? <==> call.GenerateCertificateCall? || call.RequestAccessCall? || call.GetTransactionInfoCall?)
  {
    var members := Parameters(repo, call).members;
    match call
    case SignCall(_, _, _) => LookupFirst(members, 2);
    case ActivateCall(_, _) => LookupFirst(members, 2);
    case GenerateCertificateCall(_) => LookupAbsent(members, "callbackUri");
    case GetCertificatesCall(_) => LookupFirst(members, 1);
    case GetCertificateCall(_) => LookupFirst(members, 1);
    case RequestAccessCall(_) => LookupAbsent(members, "callbackUri");
    case AuthenticateCall(_, _) => LookupFirst(members, 2);
    case GetTransactionInfoCall(_) => LookupAbsent(members, "callbackUri");
  }

  /** Each parameter record carries the operation's arguments unchanged; the
      certificate settings come from the repository, not from the request. */
  lemma ParametersCarryArguments(repo: Repository, call: Call)
    ensures var p := Parameters(repo, call);
      (call.SignCall? || call.AuthenticateCall?) ==>
        && Property(p, "certificateGuid") == Some(JGuid(call.certificateId))
        && Property(p, "text") == Some(Str(call.textForUser))
    ensures var p := Parameters(repo, call);
      call.GetCertificateCall? ==> Property(p, "certificateGuid") == Some(JGuid(call.certificateId))
    ensures var p := Parameters(repo, call);
      call.ActivateCall? ==> Property(p, "MSISDN") == Some(Str(call.msisdn)) && Property(p, "ICCID") == Some(Str(call.iccid))
    ensures var p := Parameters(repo, call);
      (call.GetCertificatesCall? || call.RequestAccessCall?) ==> Property(p, "MSISDN") == Some(Str(call.msisdn))
    ensures var p := Parameters(repo, call);
      call.GetTransactionInfoCall? ==> Property(p, "transactionGuid") == Some(JGuid(call.transactionId))
    ensures var p := Parameters(repo, call);
      call.GenerateCertificateCall? ==>
        && Property(p, "MSISDN") == Some(Str(call.request.msisdn))
        && Property(p, "exclusiveAccess") == Some(JBool(repo.exclusiveAccess))
        && Property(p, "authorityGuid") == Some(JGuid(repo.authority))
        && Property(p, "templateGuid") == Some(JGuid(repo.template))
        && Property(p, "subject") == Some(JObject(Subject(call.request)))
    ensures Parameters(repo, call).JObject?
    ensures var names := Names(Parameters(repo, call).members);
      && ((call.SignCall? || call.AuthenticateCall?) ==> names == ["certificateGuid", "text", "callbackUri"])
      && (call.ActivateCall? ==> names == ["MSISDN", "ICCID", "callbackUri"])
      && (call.GenerateCertificateCall? ==> names == ["MSISDN", "exclusiveAccess", "authorityGuid", "templateGuid", "subject"])
      && (call.GetCertificatesCall? ==> names == ["MSISDN", "callbackUri"])
      && (call.GetCertificateCall? ==> names == ["certificateGuid", "callbackUri"])
      && (call.RequestAccessCall? ==> names == ["MSISDN"])
      && (call.GetTransactionInfoCall? ==> names == ["transactionGuid"])
  {
    var members := Parameters(repo, call).members;
    match call
    case SignCall(_, _, _) => LookupFirst(members, 0); LookupFirst(members, 1);
    case AuthenticateCall(_, _) => LookupFirst(members, 0); LookupFirst(members, 1);
    case ActivateCall(_, _) => LookupFirst(members, 0); LookupFirst(members, 1);
    case GenerateCertificateCall(_) =>
      LookupFirst(members, 0); LookupFirst(members, 1); LookupFirst(members, 2);
      LookupFirst(members, 3); LookupFirst(members, 4);
    case _ =>
  }

  /** The subject attribute OID of each profile field; the MSISDN has none. */
  function SubjectOid(field: ProfileField): Option<string> {
    match field
    case Msisdn => None
    case FullName => Some("2.5.4.3")
    case Surname => Some("2.5.4.4")
    case Name => Some("2.5.4.42")
    case Country => Some("2.5.4.6")
    case Region => Some("2.5.4.8")
    case City => Some("2.5.4.7")
    case Inn => Some("1.2.643.100.3")
    case Snils => Some("1.2.643.3.131.1.1")
    case Email => Some("1.2.840.113549.1.9.1")
  }

  /** Looking up a field's OID in the subject yields that field's value. */
  lemma SubjectBindsEachField(request: CertificateRequest, field: ProfileField)
    ensures SubjectOid(field).None? <==> field == Msisdn
    ensures SubjectOid(field).Some? ==> Lookup(Subject(request), SubjectOid(field).value) == Some(Str(FieldValue(request, field)))
  {
    if field != Msisdn {
      var i := SubjectIndex(field);
      SubjectKeysDistinct(request);
      LookupFirst(Subject(request), i);
    }
  }

  /** The position of a field's entry in the subject. */
  function SubjectIndex(field: ProfileField): (i: nat)
    requires field != Msisdn
    ensures i < 9
  {
    match field
    case FullName => 0
    case Surname => 1
    case Name => 2
    case Country => 3
    case Region => 4
    case City => 5
    case Inn => 6
    case Snils => 7
    case Email => 8
  }

  /** The subject entry `entry` is the OID of some field bound to that field's value. */
  ghost predicate BoundToField(request: CertificateRequest, entry: Member) {
    exists field :: SubjectOid(field) == Some(entry.name) && entry.value == Str(FieldValue(request, field))
  }

  /** The subject has nine entries with distinct OIDs, each bound to the field
      that SubjectOid assigns it. */
  lemma SubjectKeysDistinct(request: CertificateRequest)
    ensures |Subject(request)| == 9
    ensures forall i, j :: 0 <= i < j < |Subject(request)| ==> Subject(request)[i].name != Subject(request)[j].name
    ensures forall i :: 0 <= i < |Subject(request)| ==> BoundToField(request, Subject(request)[i])
  {
    var fields := [FullName, Surname, Name, Country, Region, City, Inn, Snils, Email];
    forall i | 0 <= i < |Subject(request)|
      ensures BoundToField(request, Subject(request)[i])
    {
      var field := fields[i];
      assert SubjectOid(field) == Some(Subject(request)[i].name);
      assert Subject(request)[i].value == Str(FieldValue(request, field));
    }
  }
}
