/** Nine of the unit tests' scenarios, replayed against an ApiRouteService object
    configured as each test configures it, over collaborators answering as
    the tests' stubs do. Each checks what the test asserts, and holds for
    every choice of the orders the tests leave open. Each frame names only
    the fields the operation may change, so every other field of the
    service is left as it was. */
module RouteScenarios {
  import opened ApiTypes
  import opened Gates
  import opened Routes
  import opened RouteService
  import opened RouteProperties

  /** rebuildAll() succeeds: "reindex forced", one rebuildAll(), one forceEnqueue(). */
  method ReindexWithoutAuth(svc: ApiRouteService) returns (r: Response)
    requires svc.Cfg() == Config(true, false) && svc.services.rebuildAll
    modifies svc`rebuildAllCalls, svc`forceEnqueueCalls
    ensures r == Success("reindex forced")
    ensures svc.rebuildAllCalls == old(svc.rebuildAllCalls) + 1
    ensures svc.forceEnqueueCalls == old(svc.forceEnqueueCalls) + 1
    ensures svc.Log() == old(svc.Log()).Then(Effects(1, 1, [], [], []))
  {
    r := svc.RepositoryReindex(Some(map[]));
    ReindexOutcome(svc.Cfg(), svc.choices, map[], svc.services);
  }

  /** rebuildAll() fails: "was unable to force the index", and no forceEnqueue(). */
  method ReindexRebuildFails(svc: ApiRouteService) returns (r: Response)
    requires svc.Cfg() == Config(true, false) && !svc.services.rebuildAll
    modifies svc`rebuildAllCalls, svc`forceEnqueueCalls
    ensures r == Failure("was unable to force the index")
    ensures svc.rebuildAllCalls == old(svc.rebuildAllCalls) + 1
    ensures svc.forceEnqueueCalls == old(svc.forceEnqueueCalls)
    ensures svc.Log() == old(svc.Log()).Then(Effects(1, 0, [], [], []))
  {
    r := svc.RepositoryReindex(Some(map[]));
    ReindexOutcome(svc.Cfg(), svc.choices, map[], svc.services);
  }

  /** A disabled API refuses a null request, whatever the operation, and asks
      nothing of its collaborators. */
  method DisabledRefusesNull(svc: ApiRouteService)
    returns (r1: Response, r2: Response, r3: Response, r4: Response, r5: Response)
    requires !svc.apiEnabled
    modifies svc`rebuildAllCalls, svc`forceEnqueueCalls, svc`indexed, svc`deleteQueue, svc`saved
    ensures r1 == r2 == r3 == r4 == r5 == Failure("API not enabled")
    ensures svc.Log() == old(svc.Log())
  {
    r1 := svc.RepositoryReindex(None);
    r2 := svc.RepositoryIndex(None);
    r3 := svc.RepoList(None);
    r4 := svc.RepoDelete(None);
    r5 := svc.RepoAdd(None);
  }

  /** Index without repoUrl, which the DAO cannot find: the absent value is
      echoed as "null", with or without authentication. */
  method IndexWithoutRepoUrl(svc: ApiRouteService) returns (r: Response)
    requires svc.apiEnabled && svc.services.repoByUrl(None).None?
    modifies svc`indexed
    ensures r == Failure("Was unable to find repository " + "null")
    ensures svc.indexed == old(svc.indexed)
  {
    r := svc.RepositoryIndex(Some(map[]));
    IndexOneOutcome(svc.Cfg(), svc.choices, map[], svc.services);
  }

  /** Index of a repository the DAO knows: that repository is enqueued. */
  method IndexKnownRepository(svc: ApiRouteService) returns (r: Response)
    requires svc.apiEnabled && svc.services.repoByUrl(Some("http://test/")).Some?
    modifies svc`indexed
    ensures r == Success("Enqueued repository " + "http://test/")
    ensures svc.indexed == old(svc.indexed) + [svc.services.repoByUrl(Some("http://test/")).value]
  {
    var p := map["repoUrl" := Some("http://test/")];
    r := svc.RepositoryIndex(Some(p));
    IndexOneOutcome(svc.Cfg(), svc.choices, p, svc.services);
  }

  /** Delete without authentication: queued, and the queue grows by one. */
  method DeleteWithoutAuth(svc: ApiRouteService) returns (r: Response, size: nat)
    requires svc.Cfg() == Config(true, false) && svc.services.repoByName("unit-test").Some?
    modifies svc`deleteQueue
    ensures r == Success("repository queued for deletion") && size == old(svc.QueueSize()) + 1
    ensures svc.deleteQueue == old(svc.deleteQueue) + [svc.services.repoByName("unit-test").value]
  {
    var p := map["reponame" := Some("unit-test")];
    r := svc.RepoDelete(Some(p));
    DeleteOutcome(svc.Cfg(), svc.choices, p, svc.services);
    size := svc.QueueSize();
  }

  /** Delete with authentication and a validator that rejects everything:
      "invalid signed url", and the queue is unchanged. */
  method DeleteBadSignature(svc: ApiRouteService) returns (r: Response, size: nat)
    requires svc.Cfg() == Config(true, true)
    requires forall pub, sig, canonical, hmac :: !svc.services.validate(pub, sig, canonical, hmac)
    modifies svc`deleteQueue
    ensures r == Failure("invalid signed url") && size == old(svc.QueueSize())
    ensures svc.deleteQueue == old(svc.deleteQueue)
  {
    var p := map["pub" := Some("test"), "sig" := Some("test"), "reponame" := Some("unit-test")];
    r := svc.RepoDelete(Some(p));
    BadSignatureRefused(DeleteRepo, svc.Cfg(), svc.choices, p, svc.services);
    size := svc.QueueSize();
  }

  /** Delete with authentication but no pub: refused, and the queue is unchanged. */
  method DeleteWithoutPub(svc: ApiRouteService) returns (r: Response, size: nat)
    requires svc.Cfg() == Config(true, true)
    modifies svc`deleteQueue
    ensures r == Failure("pub is a required parameter") && size == old(svc.QueueSize())
    ensures svc.deleteQueue == old(svc.deleteQueue)
  {
    var p := map["reponame" := Some("unit-test")];
    r := svc.RepoDelete(Some(p));
    MissingPubRefused(DeleteRepo, svc.Cfg(), svc.choices, p, svc.services);
    size := svc.QueueSize();
  }

  /** Add without authentication, every field given: one record saved, built
      from the fields. */
  method AddWithoutAuth(svc: ApiRouteService) returns (r: Response)
    requires svc.Cfg() == Config(true, false)
    modifies svc`saved
    ensures r == Success("added repository successfully")
    ensures svc.saved == old(svc.saved) + [RepoRecord("test", "test", "test", "test", "test", "test", "test")]
  {
    var p := map["reponame" := Some("test"), "repourl" := Some("test"), "repotype" := Some("test"),
                 "repousername" := Some("test"), "repopassword" := Some("test"), "reposource" := Some("test"),
                 "repobranch" := Some("test")];
    r := svc.RepoAdd(Some(p));
    AddOutcome(svc.Cfg(), svc.choices, p, svc.services);
  }
}
