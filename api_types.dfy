/** Values exchanged by the repository-management API: requests, responses,
    repository records and the collaborators the route service consults. */
module ApiTypes {

  datatype Option<+T> = None | Some(value: T)

  /** The query parameters of a request. A name that is not a key, or that maps
      to None, is absent (Spark's queryParams returns null for it). */
  type Params = map<string, Option<string>>

  /** The value of query parameter `name`, or None when it is absent. */
  function Param(p: Params, name: string): Option<string> {
    if name in p then p[name] else None
  }

  /** Java's rendering of a possibly-null string inside a concatenation. */
  function Render(v: Option<string>): string {
    match v
    case Some(s) => s
    case None => "null"
  }

  /** The hash variant handed to the signature validator. The route service
      only ever passes SHA1. */
  datatype HmacType = SHA1

  /** ApiService.validateRequest(pub, sig, canonicalQueryString, hmacType):
      an uninterpreted oracle (the HMAC computation is not part of this model). */
  type Validator = (string, string, string, HmacType) -> bool

  /** A repository record (RepoResult) as built by the add operation. */
  datatype RepoRecord = RepoRecord(
    name: string, url: string, scm: string, username: string,
    password: string, source: string, branch: string)

  /** ApiResponse and RepoResultApiResponse: a message, a success flag and, for
      the list operation, a payload that is null (None) on every failure. */
  datatype Response = Response(message: string, successful: bool, repos: Option<seq<RepoRecord>>)

  function Failure(message: string): Response {
    Response(message, false, None)
  }

  function Success(message: string): Response {
    Response(message, true, None)
  }

  /** The two configuration flags of the route service. */
  datatype Config = Config(apiEnabled: bool, apiAuth: bool)

  /** What the collaborators answer: the signature validator (ApiService), the
      result of JobService.rebuildAll, and the Repo DAO's lookups and listing. */
  datatype Services = Services(
    validate: Validator,
    rebuildAll: bool,
    repoByUrl: Option<string> -> Option<RepoRecord>,
    repoByName: string -> Option<RepoRecord>,
    allRepos: seq<RepoRecord>)
}
