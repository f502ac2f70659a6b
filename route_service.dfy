/** ApiRouteService as an object: its two configuration flags, the
    collaborators it was built with, the deletion queue it shares
    (UniqueRepoQueue), and a record of the calls made on JobService and on the
    Repo DAO. Each operation is a method that checks the API-enabled flag,
    runs the operation's gates with one RunGates call and then performs its
    action step by step; each promises the response Routes.Handle gives and
    changes the queue and the call record by exactly the effects
    Routes.Handle lists. */
module RouteService {
  import opened ApiTypes
  import opened Gates
  import opened Routes

  class ApiRouteService {
    var apiEnabled: bool
    var apiAuth: bool
    const services: Services
    const choices: OpenChoices
    /** The repositories queued for deletion, in order. */
    var deleteQueue: seq<RepoRecord>
    /** Calls to JobService.rebuildAll() and JobService.forceEnqueue(). */
    ghost var rebuildAllCalls: nat
    ghost var forceEnqueueCalls: nat
    /** Arguments of JobService.forceEnqueue(repo) and of Repo.saveRepo(repo). */
    ghost var indexed: seq<RepoRecord>
    ghost var saved: seq<RepoRecord>

    /** Everything this service has asked its collaborators to do so far. */
    ghost function Log(): Effects
      reads this`rebuildAllCalls, this`forceEnqueueCalls, this`indexed, this`deleteQueue, this`saved
    {
      Effects(rebuildAllCalls, forceEnqueueCalls, indexed, deleteQueue, saved)
    }

    function Cfg(): Config
      reads this`apiEnabled, this`apiAuth
    {
      Config(apiEnabled, apiAuth)
    }

    /** UniqueRepoQueue.size() of the deletion queue. */
    function QueueSize(): nat
      reads this`deleteQueue
    {
      |deleteQueue|
    }

    constructor (services: Services, choices: OpenChoices, apiEnabled: bool, apiAuth: bool)
      ensures this.services == services && this.choices == choices
      ensures this.apiEnabled == apiEnabled && this.apiAuth == apiAuth
      ensures Log() == NoEffects
    {
      this.services := services;
      this.choices := choices;
      this.apiEnabled := apiEnabled;
      this.apiAuth := apiAuth;
      deleteQueue := [];
      rebuildAllCalls, forceEnqueueCalls := 0, 0;
      indexed, saved := [], [];
    }

    method RepositoryReindex(req: Option<Params>) returns (r: Response)
      requires apiEnabled ==> req.Some?
      modifies this`rebuildAllCalls, this`forceEnqueueCalls
      ensures var out := Handle(Reindex, Cfg(), choices, req, services);
              r == out.response && Log() == old(Log()).Then(out.effects)
    {
      ThenNoEffects(Log());
      if !apiEnabled {
        return Failure(ApiNotEnabled);
      }
      var refusal := RunGates(req.value, Pipeline(Reindex, apiAuth, choices), services.validate);
      if refusal.Some? {
        return Failure(refusal.value);
      }
      rebuildAllCalls := rebuildAllCalls + 1;
      if !services.rebuildAll {
        return Failure(ReindexFailed);
      }
      forceEnqueueCalls := forceEnqueueCalls + 1;
      r := Success(ReindexForced);
    }

    method RepositoryIndex(req: Option<Params>) returns (r: Response)
      requires apiEnabled ==> req.Some?
      modifies this`indexed
      ensures var out := Handle(IndexOne, Cfg(), choices, req, services);
              r == out.response && Log() == old(Log()).Then(out.effects)
    {
      ThenNoEffects(Log());
      if !apiEnabled {
        return Failure(ApiNotEnabled);
      }
      var url := Param(req.value, "repoUrl");
      var found := services.repoByUrl(url);
      if found.None? {
        return Failure("Was unable to find repository " + Render(url));
      }
      indexed := indexed + [found.value];
      r := Success("Enqueued repository " + Render(url));
    }

    method RepoList(req: Option<Params>) returns (r: Response)
      requires apiEnabled ==> req.Some?
      ensures r == Handle(ListRepos, Cfg(), choices, req, services).response
    {
      if !apiEnabled {
        return Failure(ApiNotEnabled);
      }
      var refusal := RunGates(req.value, Pipeline(ListRepos, apiAuth, choices), services.validate);
      if refusal.Some? {
        return Failure(refusal.value);
      }
      r := Response("", true, Some(services.allRepos));
    }

    method RepoDelete(req: Option<Params>) returns (r: Response)
      requires apiEnabled ==> req.Some?
      modifies this`deleteQueue
      ensures var out := Handle(DeleteRepo, Cfg(), choices, req, services);
              r == out.response && Log() == old(Log()).Then(out.effects)
    {
      ThenNoEffects(Log());
      if !apiEnabled {
        return Failure(ApiNotEnabled);
      }
      var p := req.value;
      var refusal := RunGates(p, Pipeline(DeleteRepo, apiAuth, choices), services.validate);
      if refusal.Some? {
        return Failure(refusal.value);
      }
      PassedPipelineHasFields(DeleteRepo, apiAuth, choices, p, services.validate);
      var found := services.repoByName(Param(p, "reponame").value);
      if found.None? {
        return Failure(choices.deleteNotFoundMessage);
      }
      deleteQueue := deleteQueue + [found.value];
      r := Success(QueuedForDeletion);
    }

    method RepoAdd(req: Option<Params>) returns (r: Response)
      requires apiEnabled ==> req.Some?
      modifies this`saved
      ensures var out := Handle(AddRepo, Cfg(), choices, req, services);
              r == out.response && Log() == old(Log()).Then(out.effects)
    {
      ThenNoEffects(Log());
      if !apiEnabled {
        return Failure(ApiNotEnabled);
      }
      var p := req.value;
      var refusal := RunGates(p, Pipeline(AddRepo, apiAuth, choices), services.validate);
      if refusal.Some? {
        return Failure(refusal.value);
      }
      PassedPipelineHasFields(AddRepo, apiAuth, choices, p, services.validate);
      var record := NewRecord(p);
      assert Handle(AddRepo, Cfg(), choices, req, services) == Outcome(Success(AddedRepository), Effects(0, 0, [], [], [record]));
      saved := saved + [record];
      r := Success(AddedRepository);
    }
  }
}
