/** The HTTP service of the pages: the base URL taken from the environment, the joining of a path
    onto it, and the response interceptor that lifts the server's error message onto the error. */
module ApiService {
  import opened Wrappers

  const DefaultBaseUrl: string := "http://localhost:4000"

  predicate EndsWithSlash(s: string)
  {
    |s| > 0 && s[|s| - 1] == '/'
  }

  /** `.replace(/\/$/, "")`: one trailing `/` is removed, if there is one. */
  function StripTrailingSlash(s: string): (r: string)
    ensures EndsWithSlash(s) ==> s == r + "/"
    ensures !EndsWithSlash(s) ==> r == s
  {
    if EndsWithSlash(s) then s[..|s| - 1] else s
  }

  /** Only one slash goes: a value ending in a single slash loses it, one ending in two keeps one. */
  lemma StripRemovesOneSlash(r: string)
    ensures StripTrailingSlash(r + "/") == r
    ensures !EndsWithSlash(r) ==> !EndsWithSlash(StripTrailingSlash(r + "/"))
  {
  }

  /** `baseURL`: the environment value without its trailing slash, or the local default when the
      variable is unset or strips to the empty string. */
  function BaseUrl(env: Option<string>): (r: string)
    ensures r != []
    ensures env.None? ==> r == DefaultBaseUrl
    ensures env.Some? && StripTrailingSlash(env.value) != "" ==> r == StripTrailingSlash(env.value)
    ensures env.Some? && (env.value == "" || env.value == "/") ==> r == DefaultBaseUrl
  {
    var stripped := if env.Some? then StripTrailingSlash(env.value) else "";
    if stripped != "" then stripped else DefaultBaseUrl
  }

  /** A configured base never ends in a slash unless its value ended in two. */
  lemma BaseUrlHasNoTrailingSlash(env: Option<string>)
    requires env.Some? ==> !(|env.value| >= 2 && env.value[|env.value| - 1] == '/' && env.value[|env.value| - 2] == '/')
    ensures !EndsWithSlash(BaseUrl(env))
  {
  }

  /** `getApiUrl(path)`: the base itself for an empty path, else the base followed by the path with a
      `/` in front if it has none. */
  function GetApiUrl(base: string, path: string := ""): (r: string)
    ensures path == "" ==> r == base
    ensures path != "" ==> |r| > |base| && r[..|base|] == base && r[|base|] == '/'
    ensures path != "" ==> r[|base|..] == (if path[0] == '/' then path else "/" + path)
  {
    if path == "" then base
    else base + (if path[0] == '/' then path else "/" + path)
  }

  /** A path written with or without its leading slash gives the same URL. */
  lemma LeadingSlashOptional(base: string, path: string)
    requires path != "" && path[0] != '/'
    ensures GetApiUrl(base, "/" + path) == GetApiUrl(base, path)
  {
  }

  /** With a base from the environment and a path not starting with `//`, the joint holds exactly
      one slash. */
  lemma SingleSlashAtJoint(env: Option<string>, path: string)
    requires env.Some? ==> !(|env.value| >= 2 && env.value[|env.value| - 1] == '/' && env.value[|env.value| - 2] == '/')
    requires path != "" && !(|path| >= 2 && path[0] == '/' && path[1] == '/')
    ensures var base := BaseUrl(env);
      var r := GetApiUrl(base, path);
      && r[|base| - 1] != '/'
      && r[|base|] == '/'
      && (|r| > |base| + 1 ==> r[|base| + 1] != '/')
  {
    BaseUrlHasNoTrailingSlash(env);
  }

  /** The parts of an axios error the interceptor reads and writes. */
  datatype ErrorBody = ErrorBody(error: Option<string>)
  datatype ErrorResponse = ErrorResponse(status: int, data: Option<ErrorBody>)
  datatype HttpError = HttpError(response: Option<ErrorResponse>, userMessage: Option<string>)

  /** A settled request as the caller sees it. */
  datatype Settled<T> = Resolved(value: T) | Rejected(error: HttpError)

  /** `error.response?.data?.error`, when it is truthy (a non-empty string). */
  function ServerMessage(e: HttpError): (m: Option<string>)
    ensures m.Some? ==> m.value != ""
    ensures m.Some? <==> e.response.Some? && e.response.value.data.Some?
                         && e.response.value.data.value.error.Some? && e.response.value.data.value.error.value != ""
    ensures m.Some? ==> m == e.response.value.data.value.error
  {
    if e.response.Some? && e.response.value.data.Some? && e.response.value.data.value.error.Some?
       && e.response.value.data.value.error.value != ""
    then e.response.value.data.value.error
    else None
  }

  /** The error handler: copies the server's message to `userMessage` when there is one and rejects
      again, whatever the error. */
  function OnRejected<T>(e: HttpError): (s: Settled<T>)
    ensures s.Rejected?
    ensures s.error.response == e.response
    ensures ServerMessage(e).Some? ==> s.error.userMessage == ServerMessage(e)
    ensures ServerMessage(e).None? ==> s.error.userMessage == e.userMessage
  {
    if ServerMessage(e).Some? then Rejected(e.(userMessage := ServerMessage(e))) else Rejected(e)
  }

  /** `err.userMessage || fallback`, as the pages display it. */
  function Shown(e: HttpError, fallback: string): string
  {
    if e.userMessage.Some? && e.userMessage.value != "" then e.userMessage.value else fallback
  }

  /** A page shows the server's message when the response carried one, and its own text otherwise. */
  lemma ShownAfterInterception<T>(e: HttpError, fallback: string)
    requires e.userMessage.None?
    ensures var s: Settled<T> := OnRejected(e);
      Shown(s.error, fallback) == (if ServerMessage(e).Some? then ServerMessage(e).value else fallback)
  {
  }
}
