/** What goes over the wire: JSON values, multipart requests as RestSharp builds
    them, and the responses the transport hands back. */
module Rest {
  import opened Base

  /** A JSON value as the serializer sees an object graph; object members keep
      their declaration (or insertion) order. */
  datatype Json = JNull | JBool(b: bool) | JString(s: string) | JGuid(g: Guid) | JObject(members: seq<Member>)
  datatype Member = Member(name: string, value: Json)

  /** A nullable C# string as a JSON value. */
  function Str(s: Option<string>): Json {
    match s
    case None => JNull
    case Some(v) => JString(v)
  }

  /** The member names of an object, in order. */
  function Names(members: seq<Member>): (names: seq<string>)
    ensures |names| == |members|
    ensures forall i :: 0 <= i < |members| ==> names[i] == members[i].name
  {
    if members == [] then [] else [members[0].name] + Names(members[1..])
  }

  /** The value of the first member called `name`. */
  function Lookup(members: seq<Member>, name: string): Option<Json> {
    if members == [] then None
    else if members[0].name == name then Some(members[0].value)
    else Lookup(members[1..], name)
  }

  /** A member whose name no earlier member has is what Lookup finds. */
  lemma {:induction false} LookupFirst(members: seq<Member>, i: nat)
    requires i < |members|
    requires forall j :: 0 <= j < i ==> members[j].name != members[i].name
    ensures Lookup(members, members[i].name) == Some(members[i].value)
  {
    if i > 0 {
      LookupFirst(members[1..], i - 1);
    }
  }

  /** A name no member has is not found. */
  lemma {:induction false} LookupAbsent(members: seq<Member>, name: string)
    requires forall j :: 0 <= j < |members| ==> members[j].name != name
    ensures Lookup(members, name) == None
  {
    if members != [] {
      LookupAbsent(members[1..], name);
    }
  }

  /** The property `name` of a JSON object; nothing for any other value. */
  function Property(j: Json, name: string): Option<Json> {
    if j.JObject? then Lookup(j.members, name) else None
  }

  /** RestSharp's Method enumeration. */
  datatype HttpMethod = Get | Post | Put | Delete | Head | Options | Patch | Merge | Copy

  datatype Header = Header(name: string, value: string)

  /** One file part of a multipart body: form name, bytes, file name, content type. */
  datatype FilePart = FilePart(name: string, bytes: Option<seq<byte>>, fileName: Option<string>, contentType: Option<string>)

  /** A request as handed to the transport. */
  datatype Wire = Wire(baseUrl: string, resource: string, verb: HttpMethod, headers: seq<Header>, files: seq<FilePart>)

  /** The service's response wrapper (C1Rescponse): a transaction reference and a payload. */
  datatype Envelope<T> = Envelope(transactionGuid: Guid, data: T)

  /** What the transport returns: the status code, the raw body, and the
      deserialised envelope (null when the body could not be read as one). */
  datatype HttpResponse<T> = HttpResponse(statusCode: int, content: string, data: Option<Envelope<T>>)

  /** RestSharp's RestRequest: a resource and method fixed at construction, and
      headers and file parts appended one at a time. */
  class RestRequest {
    const resource: string
    const verb: HttpMethod
    var headers: seq<Header>
    var files: seq<FilePart>

    constructor (resource: string, verb: HttpMethod)
      ensures this.resource == resource && this.verb == verb
      ensures headers == [] && files == []
    {
      this.resource := resource;
      this.verb := verb;
      headers := [];
      files := [];
    }

    method AddHeader(name: string, value: string)
      modifies this
      ensures headers == old(headers) + [Header(name, value)]
      ensures files == old(files)
    {
      headers := headers + [Header(name, value)];
    }

    method AddFileBytes(name: string, bytes: Option<seq<byte>>, fileName: Option<string>, contentType: Option<string>)
      modifies this
      ensures files == old(files) + [FilePart(name, bytes, fileName, contentType)]
      ensures headers == old(headers)
    {
      files := files + [FilePart(name, bytes, fileName, contentType)];
    }

    /** The request as the client sends it against `baseUrl`. */
    function ToWire(baseUrl: string): Wire
      reads this
    {
      Wire(baseUrl, resource, verb, headers, files)
    }
  }
}
