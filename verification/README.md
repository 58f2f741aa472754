# CryptoWalletsServices 1C gateway: a Dafny model

CryptoWalletsServices sits in front of an external "1C" certificate and signing
service. This model covers the two layers that contain its rules:

- **The service layer** (`C1Service`) checks each operation's arguments in a
  fixed order. These are null or white-space strings, an empty document and
  `Guid.Empty` identifiers. Only when every check passes does it make one
  repository call, with the same arguments, and return the repository's reply.
- **The repository layer** (`C1Repository`) does several things:
  - reads its settings from the application configuration;
  - builds each operation's parameter record, including the certificate
    subject (X.500 / PKCS#9 attribute OIDs bound to profile fields);
  - sends that record as a signed multipart request: serialise, encode, sign,
    attach the signature as file part `request`, run the caller's hook;
  - accepts only a 2xx status.

Files, one module each:

| file | module | contents |
|---|---|---|
| `base.dfy` | `Base` | nullable references (`Option`), thrown errors (`Result`), bytes, `Guid` and `Guid.Empty` |
| `text.dfy` | `Text` | `Char.IsWhiteSpace`, `string.IsNullOrWhiteSpace`, `string.IsNullOrEmpty` |
| `models.dfy` | `Models` | `FinanceDocument`, the certificate request and its ten fields, and `Call` (one repository operation with its arguments) |
| `rest.dfy` | `Rest` | JSON values, file parts, the request as sent (`Wire`), responses, and the mutable `RestRequest` builder |
| `repository.dfy` | `C1Repository` | configuration, construction, `Request`, the eight operations and their parameter records |
| `service.dfy` | `C1Service` | the guard sequences of the seven service operations |
| `pipeline.dfy` | `Pipeline` | what the two layers guarantee together |

Code the repository calls but that is not modelled is passed in as functions:

- JSON serialisation, text encodings, and the `Guid`/`bool` parsers: fields of `C1Repository.Library`;
- `ICryptographyUtility.Sign`: the `sign` field of a `Repository`;
- HTTP execution: the `execute` parameter of each operation (request in, status, body and deserialised envelope out).

`Request` records, in order, each call it makes into these collaborators
(`Effect`). This is how the model shows what is sent and in what order,
without saying how the bytes are produced.

Two points about how the code behaves:

- The API URL is not read at construction. The REST client is created lazily,
  so a missing `1C_ApiUrl` surfaces on the first request. That happens after
  serialising and signing, and before sending (`ConstructIgnoresApiUrl`,
  `RequestSignsThenSends`).
- The certificate subject holds nine attributes. The MSISDN travels as a
  top-level field, not as a tenth subject attribute.

## Model

| member | source | states |
|---|---|---|
| `C1Repository.GetConfig` | CryptoWalletsServices.Data/Repositories/C1Repository.cs:77-87 | fails on a null configuration, then on a missing key, then on a null value; otherwise returns the stored value unchanged, the empty string included |
| `C1Repository.Construct` | CryptoWalletsServices.Data/Repositories/C1Repository.cs:61-70 | reads encoding, template, authority and exclusive-access settings in that order and fails at the first one that is missing or does not parse, with that setting's own error (missing key, null value, unknown encoding, not a GUID, not a bool); on success the repository holds exactly the parsed values |
| `C1Repository.ConstructIgnoresApiUrl` | CryptoWalletsServices.Data/Repositories/C1Repository.cs:69 | whether construction succeeds does not depend on the API URL setting, whether it is changed or removed |
| `C1Repository.Request` | CryptoWalletsServices.Data/Repositories/C1Repository.cs:98-115 | builds the request step by step on a `RestRequest` object; its result and its sequence of collaborator calls are those of `RequestResult` and `RequestTrace` |
| `C1Repository.Apply` | CryptoWalletsServices.Data/Repositories/C1Repository.cs:136-137 | the Sign hook appends one file part named `data` with the document's bytes, name and MIME type, and touches nothing else |
| `C1Repository.RequestRejectsBeforeAnyWork` | CryptoWalletsServices.Data/Repositories/C1Repository.cs:100-101 | an empty or null URL, or null data, fails (URL checked first) with no serialisation, encoding, signing or sending |
| `C1Repository.RequestSignsThenSends` | CryptoWalletsServices.Data/Repositories/C1Repository.cs:102-111 | serialise, then encode that JSON, then sign those bytes, then send. The first file part is `request` / `request.json` / `application/json` and holds the signature of the encoded JSON. The hook's parts come after it. The only header is multipart/form-data. A missing API URL fails after signing and sends nothing |
| `C1Repository.StatusDecidesOutcome` | CryptoWalletsServices.Data/Repositories/C1Repository.cs:111-125 | a sent request succeeds exactly when 200 <= status <= 299 and then returns the deserialised envelope unchanged; otherwise it fails with the response body as inner error |
| `C1Repository.Sign` | CryptoWalletsServices.Data/Repositories/C1Repository.cs:127-139 | posts the Sign parameter record to `/Sign/Sign` with the document hook; result and effects are those of `Perform` for the Sign call |
| `C1Repository.Activate` | CryptoWalletsServices.Data/Repositories/C1Repository.cs:141-152 | posts MSISDN, ICCID and an empty callbackUri to `/Activation/Activate`; result and effects are those of `Perform` |
| `C1Repository.GenerateCertificate` | CryptoWalletsServices.Data/Repositories/C1Repository.cs:154-178 | posts the MSISDN, the configured certificate settings and the subject to `/Certificates/Generate`; result and effects are those of `Perform` |
| `C1Repository.GetCertificates` | CryptoWalletsServices.Data/Repositories/C1Repository.cs:180-190 | posts MSISDN and an empty callbackUri to `/Certificates/GetCertificates`; result and effects are those of `Perform` |
| `C1Repository.GetCertificate` | CryptoWalletsServices.Data/Repositories/C1Repository.cs:192-202 | posts the certificate id and an empty callbackUri to `/Certificates/GetCertificate`; result and effects are those of `Perform` |
| `C1Repository.RequestAccessToCertificate` | CryptoWalletsServices.Data/Repositories/C1Repository.cs:204-213 | posts the MSISDN alone to `/Certificates/RequestAccess`; result and effects are those of `Perform` |
| `C1Repository.Authenticate` | CryptoWalletsServices.Data/Repositories/C1Repository.cs:215-226 | posts certificate id, text and an empty callbackUri to `/Authentication/Authenticate`; result and effects are those of `Perform` |
| `C1Repository.GetTransactionInfo` | CryptoWalletsServices.Data/Repositories/C1Repository.cs:228-236 | posts the transaction id alone to `/Transactions/GetTransactionInfo`; result and effects are those of `Perform` |
| `C1Repository.PathsIdentifyOperations` | CryptoWalletsServices.Data/Repositories/C1Repository.cs:129-234 | two calls share an endpoint path exactly when they are the same operation |
| `C1Repository.OperationsPassRequestChecks` | CryptoWalletsServices.Data/Repositories/C1Repository.cs:136-234 | no operation is ever rejected for an empty URL or null data; each serialises its own parameter record first and sends a POST to its own path |
| `C1Repository.OnlySignAttachesDocument` | CryptoWalletsServices.Data/Repositories/C1Repository.cs:136-137 | every request's first part is the signature; a second part exists exactly for Sign, and it is the document's bytes, name and MIME type unchanged |
| `C1Repository.CallbackUriAlwaysEmpty` | CryptoWalletsServices.Data/Repositories/C1Repository.cs:129-234 | callbackUri, where present, is the empty string; it is absent exactly for Generate, RequestAccess and GetTransactionInfo |
| `C1Repository.ParametersCarryArguments` | CryptoWalletsServices.Data/Repositories/C1Repository.cs:129-233 | each record holds the operation's arguments unchanged under its property names, and exactly the members the source lists, in its order (RequestAccess posts the MSISDN alone, GetTransactionInfo the transaction id alone); Generate's exclusiveAccess, authorityGuid and templateGuid come from the repository's settings, not from the request |
| `C1Repository.SubjectBindsEachField` | CryptoWalletsServices.Data/Repositories/C1Repository.cs:162-173 | every profile field except the MSISDN has an OID, and looking that OID up in the subject yields the field's value |
| `C1Repository.SubjectKeysDistinct` | CryptoWalletsServices.Data/Repositories/C1Repository.cs:162-173 | the subject has nine entries with pairwise distinct OIDs, each bound to the field its OID names |
| `C1Service.FirstFailing` | CryptoWalletsServices.Core/Services/C1Service.cs:79-84 | the position of the first failing guard: every earlier guard holds and this one does not (or all hold) |
| `C1Service.Check` | CryptoWalletsServices.Core/Services/C1Service.cs:79-87 | succeeds with the given call exactly when every guard holds; otherwise fails with the error of the first guard that does not |
| `C1Service.GetCertificates` | CryptoWalletsServices.Core/Services/C1Service.cs:37-42 | a null or white-space MSISDN is rejected; otherwise the repository's GetCertificates is called with the same MSISDN |
| `C1Service.ValidationOrderCoversEveryField` | CryptoWalletsServices.Core/Services/C1Service.cs:47-56 | the ten profile checks cover every field of the request, each once |
| `C1Service.ProfileGuardsFollowValidationOrder` | CryptoWalletsServices.Core/Services/C1Service.cs:47-56 | the k-th profile check tests the k-th field of the validation order with its own error; all checks pass exactly when no field is blank |
| `C1Service.GenerateCertificate` | CryptoWalletsServices.Core/Services/C1Service.cs:44-60 | a null request is rejected first. It is accepted exactly when none of the ten fields is null or white space, and then forwarded unchanged. Otherwise the error is that of the first blank field in source order |
| `C1Service.GetTransactionInfo` | CryptoWalletsServices.Core/Services/C1Service.cs:62-67 | `Guid.Empty` is rejected; any other id is forwarded unchanged |
| `C1Service.Activate` | CryptoWalletsServices.Core/Services/C1Service.cs:69-75 | a blank MSISDN is rejected first, then a blank ICCID; otherwise both are forwarded unchanged |
| `C1Service.Sign` | CryptoWalletsServices.Core/Services/C1Service.cs:77-88 | rejects in order: null document, null or zero-length data, blank name, blank MIME type, `Guid.Empty` certificate, blank user text; only when all pass is the repository called, with the same arguments |
| `C1Service.Authenticate` | CryptoWalletsServices.Core/Services/C1Service.cs:90-96 | `Guid.Empty` is rejected first, then blank user text; otherwise both are forwarded unchanged |
| `C1Service.GetCertificate` | CryptoWalletsServices.Core/Services/C1Service.cs:98-103 | `Guid.Empty` is rejected; any other id is forwarded unchanged |
| `C1Service.DelegateIsAllOrNothing` | CryptoWalletsServices.Core/Services/C1Service.cs:39-41 | a rejected operation returns its validation error whatever the repository would answer; an accepted one returns the repository's reply to the checked call unchanged |
| `Pipeline.AcceptedProfileIsSentComplete` | CryptoWalletsServices.Data/Repositories/C1Repository.cs:156-174 | once the service accepts a profile, the MSISDN and all nine subject values sent are non-blank strings |
| `Pipeline.AcceptedSignAttachesDocument` | CryptoWalletsServices.Data/Repositories/C1Repository.cs:136-137 | once the service accepts a Sign, the request has exactly two parts, and the second holds the document's non-empty bytes, non-blank name and non-blank MIME type |
| `Pipeline.EveryCallIsSentOnce` | CryptoWalletsServices.Data/Repositories/C1Repository.cs:100-111 | with the API URL configured, every repository call sends exactly one POST, to its operation's path. The parameter record is serialised first, and nothing is sent before the signature exists |

## Left out

- The AngularJS page `get-certificates.js` is not part of this model. It only calls two service endpoints and shows toasts.
- JSON serialisation, `Encoding.GetEncoding`/`GetBytes`, `ICryptographyUtility.Sign`, `Guid.Parse` and `bool.Parse` are foreign code. They are uninterpreted functions supplied by the caller, and `Encoding.GetEncoding` is reduced to "is this a known encoding name".
- HTTP execution (`RestClient.Execute`) is a function from the request sent to the response. Transport failures show up only as a status code outside 200..299, as RestSharp reports them.
- `Lazy<RestClient>`: the model re-reads the API URL on every request rather than caching the client. The configuration is a value here, so the outcome is the same. Thread safety is not modelled. Neither is `new RestClient` rejecting a malformed base URL.
- The exact (Russian) error texts are replaced by one tag per distinct message. The message of `GetCertificate` differs from Sign's and Authenticate's only by a misspelling, and shares their tag `CertificateIdEmpty`.
- The repository operations take a non-null `FinanceDocument` and `CertificateRequest`. The `NullReferenceException` the repository would raise for a null one is not modelled: its only caller rejects null first.
- C1Repository.Apply: a document whose `Data` is null is attached as a part with no bytes. RestSharp's `AddFileBytes` would throw a `NullReferenceException` inside the hook instead, after signing and before sending. The model does not capture that failure; the only caller rejects null or empty `Data` first (C1Service.cs:80).
- C1Repository.GetConfig: `Configuration` is keyed by the canonical key names and lookups are exact. .NET's `KeyValueConfigurationCollection` compares keys ignoring case, so a setting stored as `1c_encoding` is found by the source but reported missing by the model.
- The type argument of `GetTransactionInfo<T>` and the upcast of the repository's typed reply to the service's untyped `C1Rescponse` are not modelled; the reply is passed through unchanged.
- Deserialisation of the response body is not modelled. The envelope is whatever the transport returns, null included.
- `Text.IsWhiteSpace` follows the current .NET definition of `Char.IsWhiteSpace` (Unicode categories Zs, Zl and Zp, plus U+0009..U+000D and U+0085). Older runtimes that still count U+180E are not modelled.
