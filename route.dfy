/**
 * The POST handler of the SVO verification route, with every external call
 * (request decoding, the database client, prompt formatting, the embedding
 * service, the similarity search, the language model and the output parser's
 * JSON extraction) given as a parameter. A call that throws is a `None`
 * result; every throw after the request is received ends in the handler's
 * single catch, which replies 500.
 */
module VerifyRoute {
  import opened Wrappers
  import opened JsonValues
  import opened Steps
  import opened PromptAssembly

  const MissingDiagramMessage: string := "No Mermaid diagram provided"
  const FailureMessage: string := "Failed to verify protocol"

  /** The request field that carries the diagram. */
  const DiagramKey: string := "mermaidDiagram"

  /** The fixed text whose embedding is used to look up examples. */
  const RetrievalQuery: string := "Formal Verification using SVO Logic"

  /** The similarity search asks for at most ten rows, with no filter and a
      zero similarity threshold. */
  const MatchCount: nat := 10
  const MinSimilarity: real := 0.0

  /** A request; `None` is a body that is not valid JSON. */
  datatype Request = Request(body: Option<Json>)

  /** The arguments of the `match_documents` call. */
  datatype MatchQuery = MatchQuery(
    queryEmbedding: seq<real>,
    matchCount: nat,
    filter: map<string, Json>,
    minSimilarity: real)

  /** The route's collaborators. `clientCreated` is false when creating the
      database client throws; the search reports its errors in a field rather
      than throwing, so its result is only the (possibly missing) rows. */
  datatype Services = Services(
    clientCreated: bool,
    formatPrompt: Json -> Option<string>,
    embedQuery: string -> Option<seq<real>>,
    matchDocuments: MatchQuery -> Option<seq<Example>>,
    invokeModel: string -> Option<string>,
    extractJson: string -> Option<Json>)

  datatype Body = Proof(steps: seq<Step>) | Error(message: string)

  datatype Reply = Reply(status: nat, body: Body)

  const BadRequest: Reply := Reply(400, Error(MissingDiagramMessage))
  const Failure: Reply := Reply(500, Error(FailureMessage))

  /** How far the handler gets before calling the model: an early reply, or
      the prompt it sends. */
  datatype Stage = Replied(reply: Reply) | Generate(prompt: string)

  /** The request was decoded, its body is not `null`, and its diagram field
      is falsy (missing, `null`, `false`, `0` or the empty string). */
  predicate DiagramMissing(req: Request)
  {
    req.body.Some? && !req.body.value.JNull? && !Truthy(DiagramField(req.body.value))
  }

  /** `body.mermaidDiagram` on a decoded, non-null body; `None` stands for
      `undefined`. No prototype of a JSON value defines this key, and strings,
      numbers, booleans and arrays have no such own property, so only an
      object holding the key yields a value. (Destructuring `null` throws; the
      handler checks for it first.) */
  function DiagramField(body: Json): Option<Json>
    requires !body.JNull?
  {
    if body.JObj? && DiagramKey in body.fields then Some(body.fields[DiagramKey]) else None
  }

  function RetrievalRequest(queryEmbedding: seq<real>): MatchQuery
  {
    MatchQuery(queryEmbedding, MatchCount, map[], MinSimilarity)
  }

  /** Everything the handler does before the model is called. Decoding the
      body, destructuring it (which throws on `null`) and creating the client
      all come before the diagram check, so a failure of any of them is a 500
      even when the diagram is missing. The prompt is sent exactly when all of
      them succeed, the diagram is truthy, and formatting and embedding do not
      throw. A failed search is not fatal: the prompt then goes out without
      examples. */
  function Prepare(req: Request, svc: Services): (r: Stage)
    ensures r == Replied(BadRequest) <==> DiagramMissing(req) && svc.clientCreated
    ensures r.Replied? ==> r.reply == BadRequest || r.reply == Failure
    ensures r.Generate? <==>
      && req.body.Some? && !req.body.value.JNull? && svc.clientCreated
      && Truthy(DiagramField(req.body.value))
      && svc.formatPrompt(DiagramField(req.body.value).value).Some?
      && svc.embedQuery(RetrievalQuery).Some?
    ensures r.Generate? ==>
      var diagram := DiagramField(req.body.value).value;
      var embedding := svc.embedQuery(RetrievalQuery).value;
      r.prompt == PromptWithExamples(svc.formatPrompt(diagram).value,
                                     svc.matchDocuments(RetrievalRequest(embedding)))
  {
    if req.body.None? || req.body.value.JNull? || !svc.clientCreated then Replied(Failure)
    else
      var diagram := DiagramField(req.body.value);
      if !Truthy(diagram) then Replied(BadRequest)
      else
        match svc.formatPrompt(diagram.value)
        case None => Replied(Failure)
        case Some(prompt) =>
          match svc.embedQuery(RetrievalQuery)
          case None => Replied(Failure)
          case Some(embedding) =>
            Generate(PromptWithExamples(prompt, svc.matchDocuments(RetrievalRequest(embedding))))
  }

  /** The model's reply to a prompt, as the output parser decodes it. */
  function ModelOutput(svc: Services, prompt: string): Option<Json>
  {
    match svc.invokeModel(prompt)
    case None => None
    case Some(text) => svc.extractJson(text)
  }

  /** The rest of the handler: generate, parse and validate (the output parser
      validates against the proof schema, and the route validates once more).
      It succeeds exactly when the model's decoded output passes the schema,
      and then replies with the steps the schema returned. */
  function Complete(svc: Services, prompt: string): (r: Reply)
    ensures r.status == 200 <==>
      ModelOutput(svc, prompt).Some? && ValidateProof(ModelOutput(svc, prompt).value).Some?
    ensures r.status == 200 ==>
      r.body == Proof(ValidateProof(ModelOutput(svc, prompt).value).value)
    ensures r.status != 200 ==> r == Failure
  {
    match ModelOutput(svc, prompt)
    case None => Failure
    case Some(decoded) =>
      match ValidateProof(decoded)
      case None => Failure
      case Some(steps) =>
        RevalidateProof(decoded);
        match ValidateProof(ProofToJson(steps))
        case None => Failure
        case Some(validated) => Reply(200, Proof(validated))
  }

  /** The handler. Its replies are 200 with the validated steps, 400 when the
      diagram is missing (and the model is never called), and 500 for every
      other failure. A 200 carries exactly the schema's reading of the
      model's output. */
  function Post(req: Request, svc: Services): (r: Reply)
    ensures r.status == 200 || r.status == 400 || r.status == 500
    ensures r.status == 400 <==> DiagramMissing(req) && svc.clientCreated
    ensures r.status == 400 ==> r.body == Error(MissingDiagramMessage) && Prepare(req, svc).Replied?
    ensures r.status == 500 <==> r.body == Error(FailureMessage)
    ensures r.status == 200 <==>
      && Prepare(req, svc).Generate?
      && ModelOutput(svc, Prepare(req, svc).prompt).Some?
      && ValidateProof(ModelOutput(svc, Prepare(req, svc).prompt).value).Some?
    ensures r.status == 200 ==>
      && r.body == Proof(ValidateProof(ModelOutput(svc, Prepare(req, svc).prompt).value).value)
      && ValidProof(r.body.steps)
  {
    match Prepare(req, svc)
    case Replied(reply) => reply
    case Generate(prompt) => Complete(svc, prompt)
  }

  /** A missing diagram is answered the same way whatever the formatter, the
      embedding service, the search, the model and the parser would do. */
  lemma MissingDiagramIgnoresServices(req: Request, svc: Services, other: Services)
    requires DiagramMissing(req) && svc.clientCreated && other.clientCreated
    ensures Post(req, svc) == Post(req, other) == BadRequest
  {
  }

  /** Without retrieved examples (the search failed or found nothing) the
      model receives the formatted prompt itself. */
  lemma NoExamplesPromptUnchanged(req: Request, svc: Services)
    requires Prepare(req, svc).Generate?
    ensures var diagram := DiagramField(req.body.value).value;
      var hits := svc.matchDocuments(RetrievalRequest(svc.embedQuery(RetrievalQuery).value));
      Prepare(req, svc).prompt == svc.formatPrompt(diagram).value <==> hits.None? || hits.value == []
  {
    var diagram := DiagramField(req.body.value).value;
    var hits := svc.matchDocuments(RetrievalRequest(svc.embedQuery(RetrievalQuery).value));
    PromptUnchangedIff(svc.formatPrompt(diagram).value, hits);
  }
}
