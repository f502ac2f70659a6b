/** What ApiRouteService answers for each operation and what it asks its
    collaborators to do, as a function of the configuration, the request and
    the collaborators' answers. Every operation runs: the API-enabled gate,
    then its pipeline of gates, then its business action. */
module Routes {
  import opened ApiTypes
  import opened Signing
  import opened Gates

  const ApiNotEnabled := "API not enabled"
  const ReindexForced := "reindex forced"
  const ReindexFailed := "was unable to force the index"
  const QueuedForDeletion := "repository queued for deletion"
  const AddedRepository := "added repository successfully"

  /** The fields of the add operation, in validation order, which is also the
      order in which they are signed after `pub`. */
  const AddFields: seq<string> :=
    ["reponame", "repourl", "repotype", "repousername", "repopassword", "reposource", "repobranch"]
  const DeleteFields: seq<string> := ["reponame"]

  datatype Operation = Reindex | IndexOne | ListRepos | DeleteRepo | AddRepo

  /** Orders and messages the behaviour leaves open. Whether delete checks
      `reponame` before or after the signature, whether add checks its fields
      before or after the signature, and the message of a delete whose
      repository the DAO does not find. Every property below holds for all of them. */
  datatype OpenChoices = OpenChoices(
    deleteNameBeforeAuth: bool, addFieldsBeforeAuth: bool, deleteNotFoundMessage: string)

  /** The calls made on the collaborators while answering one request:
      JobService.rebuildAll() and JobService.forceEnqueue() counts, the
      repositories passed to JobService.forceEnqueue(repo), those added to the
      deletion queue, and those passed to Repo.saveRepo. */
  datatype Effects = Effects(
    rebuildAll: nat, forceEnqueue: nat, indexed: seq<RepoRecord>,
    queuedForDeletion: seq<RepoRecord>, saved: seq<RepoRecord>)
  {
    function Then(next: Effects): Effects {
      Effects(rebuildAll + next.rebuildAll, forceEnqueue + next.forceEnqueue, indexed + next.indexed,
              queuedForDeletion + next.queuedForDeletion, saved + next.saved)
    }
  }

  const NoEffects := Effects(0, 0, [], [], [])

  /** A refused request leaves the record of calls as it was. */
  lemma ThenNoEffects(e: Effects)
    ensures e.Then(NoEffects) == e
  {
    assert e.indexed + [] == e.indexed && e.queuedForDeletion + [] == e.queuedForDeletion && e.saved + [] == e.saved;
  }

  datatype Outcome = Outcome(response: Response, effects: Effects)

  function Refuse(message: string): Outcome {
    Outcome(Failure(message), NoEffects)
  }

  /** The parameters an operation requires (and signs, after `pub`). */
  function OperationFields(op: Operation): seq<string> {
    match op
    case DeleteRepo => DeleteFields
    case AddRepo => AddFields
    case _ => []
  }

  /** Whether the signature gate guards the operation when authentication is on. */
  predicate Signed(op: Operation) {
    op != IndexOne
  }

  /** Whether the operation checks its fields before its signature. */
  predicate FieldsFirst(op: Operation, choices: OpenChoices) {
    match op
    case DeleteRepo => choices.deleteNameBeforeAuth
    case AddRepo => choices.addFieldsBeforeAuth
    case _ => true
  }

  function AuthGates(op: Operation, apiAuth: bool): seq<Gate> {
    if apiAuth && Signed(op) then [Authenticate(OperationFields(op))] else []
  }

  /** The gates run after the API-enabled gate, in order. */
  function Pipeline(op: Operation, apiAuth: bool, choices: OpenChoices): seq<Gate> {
    var fields := FieldGates(OperationFields(op));
    var auth := AuthGates(op, apiAuth);
    if FieldsFirst(op, choices) then fields + auth else auth + fields
  }

  /** A pipeline that lets the request through has checked every required field. */
  lemma PassedPipelineHasFields(op: Operation, apiAuth: bool, choices: OpenChoices, p: Params, validate: Validator)
    requires RunGates(p, Pipeline(op, apiAuth, choices), validate).None?
    ensures FieldsPresent(p, OperationFields(op))
  {
    var names := OperationFields(op);
    var fields, auth := FieldGates(names), AuthGates(op, apiAuth);
    var gates := Pipeline(op, apiAuth, choices);
    var offset := if FieldsFirst(op, choices) then 0 else |auth|;
    forall i | 0 <= i < |names| ensures Param(p, names[i]).Some? {
      assert gates[offset + i] == Require(names[i]);
      assert CheckGate(p, gates[offset + i], validate).None?;
    }
  }

  /** The record the add operation saves, built from the request's fields. */
  function NewRecord(p: Params): RepoRecord
    requires FieldsPresent(p, AddFields)
  {
    RepoRecord(Param(p, AddFields[0]).value, Param(p, AddFields[1]).value, Param(p, AddFields[2]).value,
               Param(p, AddFields[3]).value, Param(p, AddFields[4]).value, Param(p, AddFields[5]).value,
               Param(p, AddFields[6]).value)
  }

  /** The guarantees on side effects that hold for every answer: a request
      that fails enqueues and saves nothing (a failed reindex has still
      called rebuildAll once); forceEnqueue() follows a rebuildAll() and each
      happens at most once, and only for reindex; only a successful list
      carries a payload; a successful delete queues exactly one repository and
      a successful add saves exactly one record. */
  predicate EffectRules(op: Operation, out: Outcome) {
    (!out.response.successful ==>
       out.effects.forceEnqueue == 0 && out.effects.indexed == [] &&
       out.effects.queuedForDeletion == [] && out.effects.saved == []) &&
    out.effects.forceEnqueue <= out.effects.rebuildAll <= 1 &&
    (out.effects.rebuildAll == 1 ==> op == Reindex) &&
    (out.response.repos.Some? <==> op == ListRepos && out.response.successful) &&
    |out.effects.indexed| == (if op == IndexOne && out.response.successful then 1 else 0) &&
    |out.effects.queuedForDeletion| == (if op == DeleteRepo && out.response.successful then 1 else 0) &&
    |out.effects.saved| == (if op == AddRepo && out.response.successful then 1 else 0)
  }

  /** The business action, reached once every gate has passed. */
  function Act(op: Operation, choices: OpenChoices, p: Params, s: Services): (out: Outcome)
    requires FieldsPresent(p, OperationFields(op))
    ensures EffectRules(op, out)
  {
    match op
    case Reindex =>
      if s.rebuildAll then Outcome(Success(ReindexForced), Effects(1, 1, [], [], []))
      else Outcome(Failure(ReindexFailed), Effects(1, 0, [], [], []))
    case IndexOne =>
      var url := Param(p, "repoUrl");
      (match s.repoByUrl(url)
       case None => Refuse("Was unable to find repository " + Render(url))
       case Some(repo) => Outcome(Success("Enqueued repository " + Render(url)), Effects(0, 0, [repo], [], [])))
    case ListRepos =>
      Outcome(Response("", true, Some(s.allRepos)), NoEffects)
    case DeleteRepo =>
      (match s.repoByName(Param(p, DeleteFields[0]).value)
       case None => Refuse(choices.deleteNotFoundMessage)
       case Some(repo) => Outcome(Success(QueuedForDeletion), Effects(0, 0, [], [repo], [])))
    case AddRepo =>
      Outcome(Success(AddedRepository), Effects(0, 0, [], [], [NewRecord(p)]))
  }

  /** The response to one request and the calls it makes on the collaborators.
      A null request is only ever handed in while the API is disabled. */
  function Handle(op: Operation, cfg: Config, choices: OpenChoices, req: Option<Params>, s: Services): (out: Outcome)
    requires cfg.apiEnabled ==> req.Some?
    ensures !cfg.apiEnabled ==> out == Refuse(ApiNotEnabled)
    ensures EffectRules(op, out)
  {
    if !cfg.apiEnabled then Refuse(ApiNotEnabled)
    else
      var p := req.value;
      match RunGates(p, Pipeline(op, cfg.apiAuth, choices), s.validate)
      case Some(m) => Refuse(m)
      case None =>
        PassedPipelineHasFields(op, cfg.apiAuth, choices, p, s.validate);
        Act(op, choices, p, s)
  }
}
