/** The generator's own templates, and that they fit. Long literals are written in pieces. */
module GeneratorWording {
  import opened Substitution
  import opened Printers
  import opened Routes
  import opened Generator
  import opened GeneratedText

  predicate Inert(s: string) {
    forall i :: 0 <= i < |s| ==> s[i] != '$' && s[i] != '"'
  }

  /** Fixed text, without dollars and quotes. */
  type Fixed = s: string | Inert(s)

  function Glue(pieces: seq<Fixed>): (text: Fixed)
    ensures pieces != [] && pieces[0] != "" ==> text != "" && text[0] == pieces[0][0]
  {
    if pieces == [] then "" else pieces[0] + Glue(pieces[1..])
  }

  const STATUS: Fixed := "fabricrpc::Status "
  const FIRST_PLACE: Fixed := Glue([", this, std::placeholders", "::_1,\n              "])

  const ROUTE_URL: Fixed := Glue(["::Service::Route(const ", "std::string & url, "])
  const ROUTE_BEGIN: Fixed := Glue(["std::unique_ptr<", "fabricrpc::IBeginOperation", "> & beginOp, "])
  const ROUTE_END: Fixed := Glue(["std::unique_ptr<", "fabricrpc::IEndOperation", "> & endOp) {"])
  const SIGNATURE_TAIL: Fixed := Glue([ROUTE_URL, ROUTE_BEGIN, ROUTE_END])

  const BIND_BEGIN: Fixed := Glue(["auto bo = std::bind(", "&Service::Begin"])
  const MORE_PLACES: Fixed := Glue(["std::placeholders::_2, ", "std::placeholders::_3, ", "std::placeholders::_4);\n"])
  const BIND_END: Fixed := Glue([FIRST_PLACE, MORE_PLACES, "auto eo = std::bind(", "&Service::End"])
  const BIND_REQUEST: Fixed := Glue([FIRST_PLACE, "std::placeholders::_2);\n", "beginOp = std::make_unique<",
    "fabricrpc::BeginOperation<"])
  const BIND_RESPONSE: Fixed := Glue([">>(bo);\nendOp = ", "std::make_unique<", "fabricrpc::EndOperation<"])
  const BIND_TAIL: Fixed := ">>(eo);\n"

  const OTHERWISE_HEAD: Fixed := Glue(["else {\n  return ", "fabricrpc::Status(", "fabricrpc::StatusCode::",
    "NOT_FOUND, "])
  const COMPLAINT: Fixed := "method not found: "
  const OTHERWISE_TAIL: Fixed := " + url);\n}\n"
  const SUCCEED: Fixed := "return fabricrpc::Status();"

  const CONVERTER: Fixed := Glue(["using privateconverter = ", "fabricrpc::FabricRPC", "HeaderProtoConverter<"])
  const CLIENT_HEAD: Fixed := Glue([CONVERTER, "fabricrpc::request_header, ", "fabricrpc::reply_header>;\n"])
  const CLIENT_SCOPE: Fixed := "Client::"
  const CLIENT_FIELDS: Fixed := Glue(["client_(), cv_(std::", "make_shared<", "privateconverter>()) {\n"])
  const CLIENT_BODY: Fixed := Glue(["  client->AddRef();\n", "  client_.Attach(client);\n", "}\n"])
  const CLIENT_TAIL: Fixed := Glue(["Client(", "IFabricTransportClient ", "*client)\n  : ", CLIENT_FIELDS, CLIENT_BODY])

  const CALL_BEGIN: Fixed := "Client::Begin"
  const CALL_REQUEST: Fixed := "(const "
  const CALL_CALLBACK: Fixed := Glue(["IFabricAsyncOperation", "Callback *callback, "])
  const CALL_CONTEXT: Fixed := Glue(["/*out*/ IFabricAsync", "OperationContext ", "**context){\n"])
  const CALL_EXEC: Fixed := Glue(["  return fabricrpc::", "ExecClientBegin(", "client_, cv_, ",
    "timeoutMilliseconds, "])
  const CALL_HEAD: Fixed := Glue(["* request, DWORD ", "timeoutMilliseconds, ", CALL_CALLBACK, CALL_CONTEXT, CALL_EXEC])
  const CALL_TAIL: Fixed := Glue([", request,\n             ", "callback, context);}\n"])

  const END_BEGIN: Fixed := "Client::End"
  const END_RESPONSE: Fixed := Glue(["(IFabricAsyncOperation", "Context *context, ", "/*out*/"])
  const END_TAIL: Fixed := Glue(["* response){\n  return ", "fabricrpc::ExecClientEnd", "(client_, cv_, context, ",
    "response);}\n"])

  /** The wording of gen.hpp. */
  function Own(): Wording {
    Wording(Signature(), Bind(), OTHERWISE_HEAD, COMPLAINT, OTHERWISE_TAIL, SUCCEED, Client(), CallBegin(),
      CALL_TAIL, CallEnd())
  }

  function Signature(): Template {
    Then(STATUS, "Service", End(SIGNATURE_TAIL))
  }

  function Bind(): Template {
    Then(BIND_BEGIN, "Method",
      Then(BIND_END, "Method", Then(BIND_REQUEST, "Request", Then(BIND_RESPONSE, "Response", End(BIND_TAIL)))))
  }

  function Client(): Template {
    Then(CLIENT_HEAD, "Service", Then(CLIENT_SCOPE, "Service", End(CLIENT_TAIL)))
  }

  function CallBegin(): Template {
    Then(STATUS, "Service", Then(CALL_BEGIN, "Method", Then(CALL_REQUEST, "Request", End(CALL_HEAD))))
  }

  function CallEnd(): Template {
    Then(STATUS, "Service", Then(END_BEGIN, "Method", Then(END_RESPONSE, "Response", End(END_TAIL))))
  }

  // ----- They fit -----

  lemma InertIs(s: Fixed)
    ensures Plain(s) && Unquoted(s)
  {
  }

  lemma ProperEnd(lit: Fixed)
    ensures Proper(End(lit))
  {
    InertIs(lit);
  }

  lemma ProperThen(lit: Fixed, name: string, rest: Template)
    requires GoodName(name) && Proper(rest) && (rest.Then? ==> Marked(rest.lit))
    ensures Proper(Then(lit, name, rest))
  {
    InertIs(lit);
  }

  lemma ShortMarks()
    ensures Marked(CLIENT_SCOPE) && Marked(CALL_BEGIN) && Marked(CALL_REQUEST) && Marked(END_BEGIN)
  {
    assert CLIENT_SCOPE[6] == ':' && CALL_BEGIN[6] == ':' && CALL_REQUEST[0] == '(' && END_BEGIN[6] == ':';
  }

  lemma StartMarked(s: string)
    requires s != "" && s[0] < 'A'
    ensures Marked(s)
  {
  }

  lemma LongMarks()
    ensures Marked(BIND_END) && Marked(BIND_REQUEST) && Marked(BIND_RESPONSE) && Marked(END_RESPONSE)
  {
    assert FIRST_PLACE[0] == ',' && BIND_END[0] == ',' && BIND_REQUEST[0] == ',';
    assert BIND_RESPONSE[0] == '>' && END_RESPONSE[0] == '(';
    StartMarked(BIND_END);
    StartMarked(BIND_REQUEST);
    StartMarked(BIND_RESPONSE);
    StartMarked(END_RESPONSE);
  }

  lemma SignatureFits()
    ensures Proper(Signature())
  {
    GeneratorLetters();
    ProperEnd(SIGNATURE_TAIL);
    ProperThen(STATUS, "Service", End(SIGNATURE_TAIL));
  }

  lemma BindFits()
    ensures Proper(Bind())
  {
    GeneratorLetters();
    LongMarks();
    ProperEnd(BIND_TAIL);
    var response := Then(BIND_RESPONSE, "Response", End(BIND_TAIL));
    ProperThen(BIND_RESPONSE, "Response", End(BIND_TAIL));
    var request := Then(BIND_REQUEST, "Request", response);
    ProperThen(BIND_REQUEST, "Request", response);
    ProperThen(BIND_END, "Method", request);
    ProperThen(BIND_BEGIN, "Method", Then(BIND_END, "Method", request));
  }

  lemma ClientFits()
    ensures Proper(Client())
  {
    GeneratorLetters();
    ShortMarks();
    ProperEnd(CLIENT_TAIL);
    ProperThen(CLIENT_SCOPE, "Service", End(CLIENT_TAIL));
    ProperThen(CLIENT_HEAD, "Service", Then(CLIENT_SCOPE, "Service", End(CLIENT_TAIL)));
  }

  lemma CallBeginFits()
    ensures Proper(CallBegin())
  {
    GeneratorLetters();
    ShortMarks();
    ProperEnd(CALL_HEAD);
    ProperThen(CALL_REQUEST, "Request", End(CALL_HEAD));
    ProperThen(CALL_BEGIN, "Method", Then(CALL_REQUEST, "Request", End(CALL_HEAD)));
    ProperThen(STATUS, "Service", Then(CALL_BEGIN, "Method", Then(CALL_REQUEST, "Request", End(CALL_HEAD))));
  }

  lemma CallEndFits()
    ensures Proper(CallEnd())
  {
    GeneratorLetters();
    ShortMarks();
    LongMarks();
    ProperEnd(END_TAIL);
    ProperThen(END_RESPONSE, "Response", End(END_TAIL));
    ProperThen(END_BEGIN, "Method", Then(END_RESPONSE, "Response", End(END_TAIL)));
    ProperThen(STATUS, "Service", Then(END_BEGIN, "Method", Then(END_RESPONSE, "Response", End(END_TAIL))));
  }

  lemma ComplaintOneLine()
    ensures OneLine(COMPLAINT)
  {
  }

  lemma AllFit(w: Wording, tail: Fixed, head: Fixed, complaint: Fixed, rest: Fixed, succeed: Fixed)
    requires Proper(w.signature) && Proper(w.bind) && Proper(w.client) && Proper(w.beginHead) && Proper(w.end)
    requires w.beginTail == tail && w.otherwiseHead == head && w.complaint == complaint && w.otherwiseTail == rest
    requires w.success == succeed
    requires OneLine(complaint)
    ensures Fits(w)
  {
    InertIs(tail);
    InertIs(head);
    InertIs(complaint);
    InertIs(rest);
    InertIs(succeed);
  }

  /** Every template of gen.hpp's chain and client separates its placeholders and quotes only the urls and
      the complaint. */
  lemma OwnFits()
    ensures Fits(Own())
  {
    SignatureFits();
    BindFits();
    ClientFits();
    CallBeginFits();
    CallEndFits();
    ComplaintOneLine();
    AllFit(Own(), CALL_TAIL, OTHERWISE_HEAD, COMPLAINT, OTHERWISE_TAIL, SUCCEED);
  }

  /** What the generator prints for a service, read back: the urls of its methods in order and the
      complaint; and in its client the same urls in the same order. */
  lemma GeneratedFileReadsBack(n: nat, n': nat, svc: Service)
    requires Declared(svc)
    ensures Literals(ServiceText(Own(), n, svc)) == Urls(Arms(svc)) + ["method not found: "]
    ensures Literals(ClientText(Own(), n', svc)) == Urls(Arms(svc))
  {
    OwnFits();
    ServiceReadsBack(Own(), n, svc);
    ClientReadsBack(Own(), n', svc);
  }

  /** The generator on one service. */
  method Generate(svc: Service) returns (service: string, client: string)
    requires Declared(svc)
    ensures Literals(service) == Urls(Arms(svc)) + [COMPLAINT] && Literals(client) == Urls(Arms(svc))
  {
    OwnFits();
    service, client := PrintBoth(Own(), svc);
  }
}
