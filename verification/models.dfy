/** The business objects passed from the service layer to the repository layer,
    and the operations of the repository interface (IC1Repository). */
module Models {
  import opened Base

  /** A document to be signed; every member is a nullable C# reference. */
  datatype FinanceDocument = FinanceDocument(data: Option<seq<byte>>, name: Option<string>, mimeType: Option<string>)

  /** GenerateCertificateRequest: the subscriber's profile. */
  datatype CertificateRequest = CertificateRequest(
    msisdn: Option<string>,
    fullName: Option<string>,
    surname: Option<string>,
    name: Option<string>,
    country: Option<string>,
    region: Option<string>,
    city: Option<string>,
    inn: Option<string>,
    snils: Option<string>,
    email: Option<string>)

  /** The ten fields of a CertificateRequest, named so that properties can range over them. */
  datatype ProfileField = Msisdn | FullName | Surname | Name | Country | Region | City | Inn | Snils | Email

  function FieldValue(request: CertificateRequest, field: ProfileField): Option<string> {
    match field
    case Msisdn => request.msisdn
    case FullName => request.fullName
    case Surname => request.surname
    case Name => request.name
    case Country => request.country
    case Region => request.region
    case City => request.city
    case Inn => request.inn
    case Snils => request.snils
    case Email => request.email
  }

  /** One invocation of a repository operation, with its arguments. */
  datatype Call =
    | SignCall(document: FinanceDocument, certificateId: Guid, textForUser: Option<string>)
    | ActivateCall(msisdn: Option<string>, iccid: Option<string>)
    | GenerateCertificateCall(request: CertificateRequest)
    | GetCertificatesCall(msisdn: Option<string>)
    | GetCertificateCall(certificateId: Guid)
    | RequestAccessCall(msisdn: Option<string>)
    | AuthenticateCall(certificateId: Guid, textForUser: Option<string>)
    | GetTransactionInfoCall(transactionId: Guid)
}
