/** What the two layers guarantee together: a call the service accepts reaches
    the repository with every value the external service needs in place. */
module Pipeline {
  import opened Base
  import opened Text
  import opened Models
  import opened Rest
  import C1Service
  import C1Repository

  /** After GenerateCertificate accepts a profile, the MSISDN and every subject
      attribute the repository sends is a non-blank string. */
  lemma AcceptedProfileIsSentComplete(repo: C1Repository.Repository, requestData: Option<CertificateRequest>)
    requires C1Service.GenerateCertificate(requestData).Success?
    ensures var call := C1Service.GenerateCertificate(requestData).value;
            var parameters := C1Repository.Parameters(repo, call);
            var subject := C1Repository.Subject(requestData.value);
      && call == GenerateCertificateCall(requestData.value)
      && Property(parameters, "MSISDN") == Some(JString(requestData.value.msisdn.value))
      && !IsNullOrWhiteSpace(requestData.value.msisdn)
      && Property(parameters, "subject") == Some(JObject(subject))
      && forall i :: 0 <= i < |subject| ==> subject[i].value.JString? && !IsNullOrWhiteSpace(Some(subject[i].value.s))
  {
    var request := requestData.value;
    var call := C1Service.GenerateCertificate(requestData).value;
    C1Repository.ParametersCarryArguments(repo, call);
    C1Repository.SubjectKeysDistinct(request);
    var subject := C1Repository.Subject(request);
    forall i | 0 <= i < |subject|
      ensures subject[i].value.JString? && !IsNullOrWhiteSpace(Some(subject[i].value.s))
    {
      assert C1Repository.BoundToField(request, subject[i]);
      var field :| C1Repository.SubjectOid(field) == Some(subject[i].name) && subject[i].value == Str(FieldValue(request, field));
      assert !IsNullOrWhiteSpace(FieldValue(request, field));
    }
  }

  /** After Sign accepts a document, the request carries the signature part and
      then the document's non-empty bytes, with its name and MIME type. */
  lemma AcceptedSignAttachesDocument(repo: C1Repository.Repository, document: Option<FinanceDocument>, certificateId: Guid,
                                     textForUser: Option<string>, baseUrl: string)
    requires C1Service.Sign(document, certificateId, textForUser).Success?
    ensures var call := C1Service.Sign(document, certificateId, textForUser).value;
            var files := C1Repository.Outgoing(repo, baseUrl, C1Repository.Path(call), C1Repository.Parameters(repo, call),
                                               C1Repository.Hook(call), Post).files;
      && |files| == 2
      && files[0].name == "request"
      && files[1] == FilePart("data", document.value.data, document.value.name, document.value.mimeType)
      && files[1].bytes.Some? && |files[1].bytes.value| > 0
      && !IsNullOrWhiteSpace(files[1].fileName)
      && !IsNullOrWhiteSpace(files[1].contentType)
  {
  }

  /** Every call makes exactly the repository request of its operation:
      once the API URL is configured, one POST to the operation's path, whose
      parameter record was serialised, encoded and signed before sending. */
  lemma EveryCallIsSentOnce(repo: C1Repository.Repository, call: Call)
    requires C1Repository.GetConfig(repo.configuration, C1Repository.ApiUrlKey).Success?
    ensures var trace := C1Repository.PerformTrace(repo, call);
      && |trace| == 4
      && trace[0] == C1Repository.Serialized(C1Repository.Parameters(repo, call))
      && trace[3].Sent?
      && trace[3].request.resource == C1Repository.Path(call)
      && trace[3].request.verb == Post
    ensures forall j :: 0 <= j < 3 ==> !C1Repository.PerformTrace(repo, call)[j].Sent?
  {
  }
}
