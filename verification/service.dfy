/** The service layer: each operation checks its arguments in a fixed order and,
    only when every check passes, makes one repository call with the same
    arguments and returns the repository's reply. */
module C1Service {
  import opened Base
  import opened Text
  import opened Models

  /** One tag per validation message; GetCertificate's misspelt variant of the
      empty-certificate message shares `CertificateIdEmpty`. */
  datatype ServiceError =
    | PhoneEmpty
    | GenerationDataEmpty
    | PhoneNotSet
    | FullNameNotSet
    | CityNotSet
    | CountryNotSet
    | EmailNotSet
    | InnNotSet
    | GivenNamesNotSet
    | RegionNotSet
    | SnilsNotSet
    | SurnameNotSet
    | TransactionIdEmpty
    | IccidEmpty
    | DocumentEmpty
    | DocumentNameEmpty
    | MimeTypeEmpty
    | CertificateIdEmpty
    | UserTextEmpty

  /** One Argument.Require: a condition and the error thrown when it is false. */
  datatype Guard = Guard(holds: bool, error: ServiceError)

  /** The index of the first guard that fails, or |guards| when all hold. */
  function FirstFailing(guards: seq<Guard>): (k: nat)
    ensures k <= |guards|
    ensures forall i :: 0 <= i < k ==> guards[i].holds
    ensures k < |guards| ==> !guards[k].holds
  {
    if guards == [] || !guards[0].holds then 0 else 1 + FirstFailing(guards[1..])
  }

  /** Runs the guards in order; the first that fails decides the error, and
      `call` is made only when none fails. */
  function Check(guards: seq<Guard>, call: Call): (r: Result<Call, ServiceError>)
    ensures r.Success? <==> forall i :: 0 <= i < |guards| ==> guards[i].holds
    ensures r.Success? ==> r.value == call
    ensures forall k :: (0 <= k < |guards| && !guards[k].holds && (forall i :: 0 <= i < k ==> guards[i].holds))
                        ==> r == Failure(guards[k].error)
  {
    var k := FirstFailing(guards);
    if k == |guards| then Success(call) else Failure(guards[k].error)
  }

  function GetCertificates(msisdn: Option<string>): (r: Result<Call, ServiceError>)
    ensures r == if IsNullOrWhiteSpace(msisdn) then Failure(PhoneEmpty) else Success(GetCertificatesCall(msisdn))
  {
    Check([Guard(!IsNullOrWhiteSpace(msisdn), PhoneEmpty)], GetCertificatesCall(msisdn))
  }

  /** The order in which GenerateCertificate checks the profile fields. */
  const ValidationOrder: seq<ProfileField> := [Msisdn, FullName, City, Country, Email, Inn, Name, Region, Snils, Surname]

  /** The error reported for a missing profile field. */
  function FieldError(field: ProfileField): ServiceError {
    match field
    case Msisdn => PhoneNotSet
    case FullName => FullNameNotSet
    case Surname => SurnameNotSet
    case Name => GivenNamesNotSet
    case Country => CountryNotSet
    case Region => RegionNotSet
    case City => CityNotSet
    case Inn => InnNotSet
    case Snils => SnilsNotSet
    case Email => EmailNotSet
  }

  /** Every profile field is checked, once. */
  lemma ValidationOrderCoversEveryField()
    ensures |ValidationOrder| == 10
    ensures forall field: ProfileField :: field in ValidationOrder
    ensures forall i, j :: 0 <= i < j < |ValidationOrder| ==> ValidationOrder[i] != ValidationOrder[j]
  {
    forall field: ProfileField
      ensures field in ValidationOrder
    {
      match field
      case Msisdn => assert ValidationOrder[0] == field;
      case FullName => assert ValidationOrder[1] == field;
      case City => assert ValidationOrder[2] == field;
      case Country => assert ValidationOrder[3] == field;
      case Email => assert ValidationOrder[4] == field;
      case Inn => assert ValidationOrder[5] == field;
      case Name => assert ValidationOrder[6] == field;
      case Region => assert ValidationOrder[7] == field;
      case Snils => assert ValidationOrder[8] == field;
      case Surname => assert ValidationOrder[9] == field;
    }
  }

  function ProfileGuards(requestData: CertificateRequest): seq<Guard> {
    [ Guard(!IsNullOrWhiteSpace(requestData.msisdn), PhoneNotSet),
      Guard(!IsNullOrWhiteSpace(requestData.fullName), FullNameNotSet),
      Guard(!IsNullOrWhiteSpace(requestData.city), CityNotSet),
      Guard(!IsNullOrWhiteSpace(requestData.country), CountryNotSet),
      Guard(!IsNullOrWhiteSpace(requestData.email), EmailNotSet),
      Guard(!IsNullOrWhiteSpace(requestData.inn), InnNotSet),
      Guard(!IsNullOrWhiteSpace(requestData.name), GivenNamesNotSet),
      Guard(!IsNullOrWhiteSpace(requestData.region), RegionNotSet),
      Guard(!IsNullOrWhiteSpace(requestData.snils), SnilsNotSet),
      Guard(!IsNullOrWhiteSpace(requestData.surname), SurnameNotSet) ]
  }

  /** The k-th guard of GenerateCertificate checks the k-th field of ValidationOrder. */
  lemma ProfileGuardsFollowValidationOrder(requestData: CertificateRequest)
    ensures |ProfileGuards(requestData)| == |ValidationOrder|
    ensures forall k :: 0 <= k < |ValidationOrder| ==>
      ProfileGuards(requestData)[k] == Guard(!IsNullOrWhiteSpace(FieldValue(requestData, ValidationOrder[k])), FieldError(ValidationOrder[k]))
    ensures (forall k :: 0 <= k < |ProfileGuards(requestData)| ==> ProfileGuards(requestData)[k].holds)
        <==> (forall field :: !IsNullOrWhiteSpace(FieldValue(requestData, field)))
  {
    var guards := ProfileGuards(requestData);
    if forall k :: 0 <= k < |guards| ==> guards[k].holds {
      ValidationOrderCoversEveryField();
      forall field
        ensures !IsNullOrWhiteSpace(FieldValue(requestData, field))
      {
        assert field in ValidationOrder;
        var k :| 0 <= k < |ValidationOrder| && ValidationOrder[k] == field;
        assert guards[k].holds;
      }
    }
  }

  function GenerateCertificate(requestData: Option<CertificateRequest>): (r: Result<Call, ServiceError>)
    ensures requestData.None? ==> r == Failure(GenerationDataEmpty)
    ensures requestData.Some? ==>
      (r.Success? <==> forall field :: !IsNullOrWhiteSpace(FieldValue(requestData.value, field)))
    ensures r.Success? ==> r.value == GenerateCertificateCall(requestData.value)
    ensures requestData.Some? ==>
      forall k :: (&& 0 <= k < |ValidationOrder|
                   && IsNullOrWhiteSpace(FieldValue(requestData.value, ValidationOrder[k]))
                   && (forall i :: 0 <= i < k ==> !IsNullOrWhiteSpace(FieldValue(requestData.value, ValidationOrder[i]))))
                  ==> r == Failure(FieldError(ValidationOrder[k]))
  {
    if requestData.None? then Failure(GenerationDataEmpty)
    else
      ValidationOrderCoversEveryField();
      ProfileGuardsFollowValidationOrder(requestData.value);
      Check(ProfileGuards(requestData.value), GenerateCertificateCall(requestData.value))
  }

  function GetTransactionInfo(transactionId: Guid): (r: Result<Call, ServiceError>)
    ensures r == if transactionId == EmptyGuid then Failure(TransactionIdEmpty) else Success(GetTransactionInfoCall(transactionId))
  {
    Check([Guard(transactionId != EmptyGuid, TransactionIdEmpty)], GetTransactionInfoCall(transactionId))
  }

  function Activate(msisdn: Option<string>, iccid: Option<string>): (r: Result<Call, ServiceError>)
    ensures r == if IsNullOrWhiteSpace(msisdn) then Failure(PhoneEmpty)
                 else if IsNullOrWhiteSpace(iccid) then Failure(IccidEmpty)
                 else Success(ActivateCall(msisdn, iccid))
  {
    var guards := [Guard(!IsNullOrWhiteSpace(msisdn), PhoneEmpty), Guard(!IsNullOrWhiteSpace(iccid), IccidEmpty)];
    assert guards[0].error == PhoneEmpty && guards[1].error == IccidEmpty;
    Check(guards, ActivateCall(msisdn, iccid))
  }

  /** The document's byte array is present and not empty. */
  predicate HasData(document: FinanceDocument) {
    document.data.Some? && |document.data.value| != 0
  }

  function Sign(document: Option<FinanceDocument>, certificateId: Guid, textForUser: Option<string>): (r: Result<Call, ServiceError>)
    ensures document.None? ==> r == Failure(DocumentEmpty)
    ensures document.Some? ==>
      r == if !HasData(document.value) then Failure(DocumentEmpty)
           else if IsNullOrWhiteSpace(document.value.name) then Failure(DocumentNameEmpty)
           else if IsNullOrWhiteSpace(document.value.mimeType) then Failure(MimeTypeEmpty)
           else if certificateId == EmptyGuid then Failure(CertificateIdEmpty)
           else if IsNullOrWhiteSpace(textForUser) then Failure(UserTextEmpty)
           else Success(SignCall(document.value, certificateId, textForUser))
  {
    if document.None? then Failure(DocumentEmpty)
    else
      var d := document.value;
      var guards := [ Guard(HasData(d), DocumentEmpty),
                      Guard(!IsNullOrWhiteSpace(d.name), DocumentNameEmpty),
                      Guard(!IsNullOrWhiteSpace(d.mimeType), MimeTypeEmpty),
                      Guard(certificateId != EmptyGuid, CertificateIdEmpty),
                      Guard(!IsNullOrWhiteSpace(textForUser), UserTextEmpty) ];
      assert guards[0].error == DocumentEmpty && guards[1].error == DocumentNameEmpty && guards[2].error == MimeTypeEmpty
          && guards[3].error == CertificateIdEmpty && guards[4].error == UserTextEmpty;
      Check(guards, SignCall(d, certificateId, textForUser))
  }

  function Authenticate(certificateId: Guid, textForUser: Option<string>): (r: Result<Call, ServiceError>)
    ensures r == if certificateId == EmptyGuid then Failure(CertificateIdEmpty)
                 else if IsNullOrWhiteSpace(textForUser) then Failure(UserTextEmpty)
                 else Success(AuthenticateCall(certificateId, textForUser))
  {
    var guards := [Guard(certificateId != EmptyGuid, CertificateIdEmpty), Guard(!IsNullOrWhiteSpace(textForUser), UserTextEmpty)];
    assert guards[0].error == CertificateIdEmpty && guards[1].error == UserTextEmpty;
    Check(guards, AuthenticateCall(certificateId, textForUser))
  }

  function GetCertificate(certificateId: Guid): (r: Result<Call, ServiceError>)
    ensures r == if certificateId == EmptyGuid then Failure(CertificateIdEmpty) else Success(GetCertificateCall(certificateId))
  {
    Check([Guard(certificateId != EmptyGuid, CertificateIdEmpty)], GetCertificateCall(certificateId))
  }

  /** What a service operation returns: the validation error, or the reply of
      the repository to the one call the checks allowed. */
  function Delegate<R>(checked: Result<Call, ServiceError>, repository: Call -> R): Result<R, ServiceError> {
    match checked
    case Failure(e) => Failure(e)
    case Success(call) => Success(repository(call))
  }

  /** A rejected operation gives the same error whatever the repository would
      answer (it is never asked); an accepted one returns the repository's reply
      to the checked call unchanged. */
  lemma DelegateIsAllOrNothing<R>(checked: Result<Call, ServiceError>, repository: Call -> R, other: Call -> R)
    ensures checked.Failure? ==>
      Delegate(checked, repository) == Delegate(checked, other) == Failure(checked.error)
    ensures checked.Success? ==> Delegate(checked, repository) == Success(repository(checked.value))
  {
  }
}
