/**
 * GitHub data shaping and fallback (plugins/github_integration/github_plugin.py).
 * Every HTTP call is an input `Response`; the server is an oracle from the request
 * (username and headers) to its answers.
 */
module GitHub {
  import opened Wrappers
  import opened Config

  const DefaultUsername := "bhowiebkr"

  /** A fork with fewer stars than this is skipped. */
  const MinForkStars := 5

  /** `https://github.com/<path>`, for profiles and repositories alike. */
  function GitHubUrl(path: string): string {
    "https://github.com/" + path
  }

  type Headers = map<string, string>

  /** The request headers: an Authorization header exactly when a token is set. */
  function RequestHeaders(username: string, token: Option<string>): (h: Headers)
    ensures "Authorization" in h <==> Truthy(token)
    ensures Truthy(token) ==> h["Authorization"] == "token " + token.value
    ensures h.Keys - {"Authorization"} == {"Accept", "User-Agent"}
    ensures h["Accept"] == "application/vnd.github.v3+json"
    ensures h["User-Agent"] == username + "-website"
  {
    var base := map["Accept" := "application/vnd.github.v3+json", "User-Agent" := username + "-website"];
    if Truthy(token) then base["Authorization" := "token " + token.value] else base
  }

  // ---- Upstream records, as decoded; Option fields are the ones read with .get ----

  datatype UserJson = UserJson(
    login: string, name: Option<string>, bio: Option<string>, location: Option<string>,
    blog: Option<string>, twitterUsername: Option<string>,
    publicRepos: int, followers: int, following: int,
    avatarUrl: string, htmlUrl: string, createdAt: string, updatedAt: string)

  datatype RepoJson = RepoJson(
    name: string, fullName: string, description: Option<string>, htmlUrl: string,
    cloneUrl: string, language: Option<string>, stargazersCount: int, watchersCount: int,
    forksCount: int, openIssuesCount: int, size: int, defaultBranch: string,
    topics: Option<seq<string>>, createdAt: string, updatedAt: string, pushedAt: string,
    isFork: bool, isPrivate: bool, archived: Option<bool>)

  /** `license` is None when absent or empty. */
  datatype LicenseJson = LicenseJson(name: Option<string>)
  datatype RepoInfoJson = RepoInfoJson(
    license: Option<LicenseJson>, homepage: Option<string>,
    hasIssues: Option<bool>, hasProjects: Option<bool>, hasWiki: Option<bool>)
  datatype ReleaseJson = ReleaseJson(
    name: Option<string>, tagName: Option<string>, publishedAt: Option<string>, htmlUrl: Option<string>)

  datatype Commit = Commit(message: Option<string>)
  datatype IssueJson = IssueJson(title: Option<string>, htmlUrl: Option<string>)
  datatype EventPayload = EventPayload(
    commits: Option<seq<Commit>>, refType: Option<string>, action: Option<string>, issue: Option<IssueJson>)
  datatype EventJson = EventJson(
    kind: string, repoName: string, createdAt: string, isPublic: bool, payload: EventPayload)

  /** The server's answers for one username and set of request headers. */
  datatype Api = Api(
    user: Response<UserJson>,                        // /users/{u}
    repos: Response<seq<RepoJson>>,                 // /users/{u}/repos
    repo: string -> Response<RepoInfoJson>,         // /repos/{full_name}
    languages: string -> Response<map<string, int>>, // /repos/{full_name}/languages
    release: string -> Response<ReleaseJson>,       // /repos/{full_name}/releases/latest
    events: Response<seq<EventJson>>)               // /users/{u}/events/public

  // ---- Shaped records ----

  /** `twitterUsername` is None where the key is absent (the fallback profile). */
  datatype Profile = Profile(
    username: string, name: string, bio: string, location: string, blog: string,
    twitterUsername: Option<string>, publicRepos: int, followers: int, following: int,
    avatarUrl: string, htmlUrl: string, createdAt: string, updatedAt: string)

  datatype Release = Release(name: string, tagName: string, publishedAt: string, htmlUrl: string)

  datatype RepoDetails = RepoDetails(
    languages: map<string, int>, latestRelease: Option<Release>, license: string,
    homepage: string, hasIssues: bool, hasProjects: bool, hasWiki: bool)

  /** A repository entry; `details` is None when its details fetch raised (base fields only). */
  datatype Repository = Repository(
    name: string, fullName: string, description: string, htmlUrl: string, cloneUrl: string,
    language: string, stargazersCount: int, watchersCount: int, forksCount: int,
    openIssuesCount: int, size: int, defaultBranch: string, topics: seq<string>,
    createdAt: string, updatedAt: string, pushedAt: string,
    isFork: bool, isPrivate: bool, archived: bool,
    details: Option<RepoDetails>)

  /** The type-specific part of an activity entry. */
  datatype ActivityDetail =
    | NoDetail
    | Push(commitsCount: nat, commitMessage: Option<string>)
    | Create(refType: string)
    | IssueChange(action: string, issueTitle: string, issueUrl: string)

  datatype Activity = Activity(
    kind: string, repoName: string, repoUrl: string, createdAt: string, isPublic: bool,
    detail: ActivityDetail)

  /** Contribution statistics; NoStats is the empty dictionary of the fallback. */
  datatype Contributions =
    | Stats(totalContributions: int, currentStreak: int, longestStreak: int, calendar: seq<int>)
    | NoStats

  /** `github_data`; `fallback` is false where the key is absent. */
  datatype GitHubData = GitHubData(
    profile: Profile, repositories: seq<Repository>, activity: seq<Activity>,
    contributions: Contributions, lastUpdated: string, fallback: bool)

  // ---- Shaping ----

  /** `_get_user_profile`: None stands for the exception raised on a failed fetch. */
  function UserProfile(r: Response<UserJson>): (p: Option<Profile>)
    ensures p.Some? <==> r.Ok?
    ensures p.Some? ==> p.value.username == r.body.login && p.value.htmlUrl == r.body.htmlUrl
  {
    match r
    case Ok(u) =>
      Some(Profile(u.login, u.name.GetOr(""), u.bio.GetOr(""), u.location.GetOr(""),
                   u.blog.GetOr(""), Some(u.twitterUsername.GetOr("")), u.publicRepos,
                   u.followers, u.following, u.avatarUrl, u.htmlUrl, u.createdAt, u.updatedAt))
    case _ => None
  }

  /**
   * `_get_repository_details`: None when the repository fetch fails or the languages
   * request raises; a languages answer other than 200 gives {}; any release failure
   * gives no release.
   */
  function RepositoryDetails(api: Api, fullName: string): (d: Option<RepoDetails>)
    ensures d.Some? <==> api.repo(fullName).Ok? && !api.languages(fullName).Fail?
    ensures d.Some? ==> (d.value.latestRelease.Some? <==> api.release(fullName).Ok?)
  {
    match api.repo(fullName)
    case Ok(info) =>
      if api.languages(fullName).Fail? then None
      else
        var languages := if api.languages(fullName).Ok? then api.languages(fullName).body else map[];
        var release := match api.release(fullName)
          case Ok(rel) =>
            Some(Release(rel.name.GetOr(""), rel.tagName.GetOr(""), rel.publishedAt.GetOr(""), rel.htmlUrl.GetOr("")))
          case _ => None;
        var license := if info.license.Some? then info.license.value.name.GetOr("") else "";
        Some(RepoDetails(languages, release, license, info.homepage.GetOr(""),
                         info.hasIssues.GetOr(false), info.hasProjects.GetOr(false), info.hasWiki.GetOr(false)))
    case _ => None
  }

  /** The filter: a fork with fewer than `MinForkStars` stars is skipped. */
  predicate Kept(r: RepoJson) {
    !(r.isFork && r.stargazersCount < MinForkStars)
  }

  /** The base `repository` dictionary built from one upstream repository. */
  function BaseRepository(r: RepoJson): Repository {
    Repository(r.name, r.fullName, r.description.GetOr(""), r.htmlUrl, r.cloneUrl,
               r.language.GetOr(""), r.stargazersCount, r.watchersCount, r.forksCount,
               r.openIssuesCount, r.size, r.defaultBranch, r.topics.GetOr([]),
               r.createdAt, r.updatedAt, r.pushedAt, r.isFork, r.isPrivate, r.archived.GetOr(false),
               None)
  }

  /** One kept repository: its base fields, updated with its details when they could be fetched. */
  function ShapeRepository(r: RepoJson, api: Api): (x: Repository)
    ensures x.(details := None) == BaseRepository(r)
    ensures x.details == RepositoryDetails(api, r.fullName)
    ensures x.fullName == r.fullName
  {
    var repository := BaseRepository(r);
    var details := RepositoryDetails(api, r.fullName);
    if details.Some? then repository.(details := details) else repository
  }

  /** The list `_get_repositories` builds from the upstream list, in order. */
  function ShapeRepositories(data: seq<RepoJson>, api: Api): seq<Repository>
    decreases |data|
  {
    if data == [] then []
    else
      var init := ShapeRepositories(data[..|data| - 1], api);
      var r := data[|data| - 1];
      if Kept(r) then init + [ShapeRepository(r, api)] else init
  }

  /** The indices of the upstream repositories the filter keeps, increasing. */
  function KeptIndices(data: seq<RepoJson>): (idx: seq<nat>)
    decreases |data|
    ensures |idx| <= |data|
    ensures forall k :: 0 <= k < |idx| ==> idx[k] < |data| && Kept(data[idx[k]])
    ensures forall k, l :: 0 <= k < l < |idx| ==> idx[k] < idx[l]
    ensures forall j :: 0 <= j < |data| ==> (j in idx <==> Kept(data[j]))
  {
    if data == [] then []
    else
      var init := KeptIndices(data[..|data| - 1]);
      assert forall k :: 0 <= k < |init| ==> data[..|data| - 1][init[k]] == data[init[k]];
      if Kept(data[|data| - 1]) then init + [|data| - 1] else init
  }

  /**
   * The repository list is the kept upstream repositories, shaped, in their upstream
   * order: entry k comes from upstream index KeptIndices(data)[k].
   */
  lemma {:induction false} RepositoriesFollowKeptIndices(data: seq<RepoJson>, api: Api)
    ensures |ShapeRepositories(data, api)| == |KeptIndices(data)| <= |data|
    ensures forall k :: 0 <= k < |KeptIndices(data)| ==>
              ShapeRepositories(data, api)[k] == ShapeRepository(data[KeptIndices(data)[k]], api)
    decreases |data|
  {
    if data != [] {
      var init := data[..|data| - 1];
      RepositoriesFollowKeptIndices(init, api);
      var shaped, idx := ShapeRepositories(init, api), KeptIndices(init);
      forall k | 0 <= k < |idx|
        ensures ShapeRepositories(data, api)[k] == ShapeRepository(data[KeptIndices(data)[k]], api)
      {
        assert init[idx[k]] == data[idx[k]];
        if Kept(data[|data| - 1]) {
          assert ShapeRepositories(data, api)[k] == shaped[k];
          assert KeptIndices(data)[k] == idx[k];
        }
      }
    }
  }

  /**
   * Only the details of each entry depend on the server's per-repository answers, and
   * only on the answers for that entry's own full name.
   */
  lemma {:induction false} OnlyDetailsDependOnDetailFetches(data: seq<RepoJson>, api: Api, api2: Api)
    ensures |ShapeRepositories(data, api2)| == |ShapeRepositories(data, api)|
    ensures forall k :: 0 <= k < |ShapeRepositories(data, api)| ==>
              ShapeRepositories(data, api2)[k] ==
              ShapeRepositories(data, api)[k].(details := RepositoryDetails(api2, ShapeRepositories(data, api)[k].fullName))
    decreases |data|
  {
    if data != [] {
      OnlyDetailsDependOnDetailFetches(data[..|data| - 1], api, api2);
    }
  }

  /**
   * When the details fetch of the repository named f fails, that repository is still
   * listed with its base fields only, and every other entry is unaffected.
   */
  lemma FailedDetailsAreIsolated(data: seq<RepoJson>, api: Api, api2: Api, f: string)
    requires forall g :: g != f ==> api2.repo(g) == api.repo(g)
    requires forall g :: g != f ==> api2.languages(g) == api.languages(g)
    requires forall g :: g != f ==> api2.release(g) == api.release(g)
    requires RepositoryDetails(api2, f).None?
    ensures |ShapeRepositories(data, api2)| == |ShapeRepositories(data, api)|
    ensures forall k :: 0 <= k < |ShapeRepositories(data, api)| && ShapeRepositories(data, api)[k].fullName != f ==>
              ShapeRepositories(data, api2)[k] == ShapeRepositories(data, api)[k]
    ensures forall k :: 0 <= k < |ShapeRepositories(data, api)| && ShapeRepositories(data, api)[k].fullName == f ==>
              ShapeRepositories(data, api2)[k] == ShapeRepositories(data, api)[k].(details := None)
  {
    OnlyDetailsDependOnDetailFetches(data, api, api2);
    var out := ShapeRepositories(data, api);
    forall k | 0 <= k < |out| && out[k].fullName != f
      ensures RepositoryDetails(api2, out[k].fullName) == out[k].details
    {
      OnlyDetailsDependOnDetailFetches(data, api, api);
    }
  }

  /** `_get_repositories`: None stands for the exception a failed list fetch raises. */
  method GetRepositories(api: Api) returns (result: Option<seq<Repository>>)
    ensures result.Some? <==> api.repos.Ok?
    ensures result.Some? ==> result.value == ShapeRepositories(api.repos.body, api)
  {
    if !api.repos.Ok? {
      return None;
    }
    var data := api.repos.body;
    var repositories: seq<Repository> := [];
    for i := 0 to |data|
      invariant repositories == ShapeRepositories(data[..i], api)
    {
      assert data[..i + 1][..i] == data[..i];
      var repo := data[i];
      if repo.isFork && repo.stargazersCount < MinForkStars {
        continue;
      }
      var repository := BaseRepository(repo);
      var details := RepositoryDetails(api, repo.fullName);
      if details.Some? {
        repository := repository.(details := details);
      }
      repositories := repositories + [repository];
    }
    assert data[..|data|] == data;
    return Some(repositories);
  }

  /** One activity entry shaped from one event. */
  function ShapeActivity(e: EventJson): (a: Activity)
    ensures a.repoName == e.repoName && a.repoUrl == GitHubUrl(a.repoName)
    ensures a.kind == e.kind && a.createdAt == e.createdAt && a.isPublic == e.isPublic
    ensures e.kind == "PushEvent" ==>
              a.detail.Push? && a.detail.commitsCount == |e.payload.commits.GetOr([])|
              && (a.detail.commitMessage.Some? <==> e.payload.commits.GetOr([]) != [])
              && (e.payload.commits.GetOr([]) != [] ==>
                    a.detail.commitMessage == Some(e.payload.commits.GetOr([])[0].message.GetOr("")))
    ensures e.kind == "CreateEvent" ==> a.detail == Create(e.payload.refType.GetOr(""))
    ensures e.kind == "IssuesEvent" ==>
              a.detail.IssueChange? && a.detail.action == e.payload.action.GetOr("")
              && (e.payload.issue.None? ==> a.detail.issueTitle == "" && a.detail.issueUrl == "")
              && (e.payload.issue.Some? ==>
                    a.detail.issueTitle == e.payload.issue.value.title.GetOr("")
                    && a.detail.issueUrl == e.payload.issue.value.htmlUrl.GetOr(""))
    ensures e.kind !in {"PushEvent", "CreateEvent", "IssuesEvent"} ==> a.detail == NoDetail
  {
    var detail :=
      if e.kind == "PushEvent" then
        var commits := e.payload.commits.GetOr([]);
        Push(|commits|, if commits != [] then Some(commits[0].message.GetOr("")) else None)
      else if e.kind == "CreateEvent" then
        Create(e.payload.refType.GetOr(""))
      else if e.kind == "IssuesEvent" then
        var issue := e.payload.issue.GetOr(IssueJson(None, None));
        IssueChange(e.payload.action.GetOr(""), issue.title.GetOr(""), issue.htmlUrl.GetOr(""))
      else NoDetail;
    Activity(e.kind, e.repoName, GitHubUrl(e.repoName), e.createdAt, e.isPublic, detail)
  }

  /** The activity list of a fetch; a failed fetch gives the empty list, never an error. */
  function Activities(r: Response<seq<EventJson>>): seq<Activity> {
    if r.Ok? then seq(|r.body|, k requires 0 <= k < |r.body| => ShapeActivity(r.body[k])) else []
  }

  /** `_get_recent_activity`. */
  method GetRecentActivity(events: Response<seq<EventJson>>) returns (activities: seq<Activity>)
    ensures !events.Ok? ==> activities == []
    ensures events.Ok? ==> |activities| == |events.body|
    ensures forall k :: 0 <= k < |activities| ==>
              activities[k] == ShapeActivity(events.body[k])
              && activities[k].repoUrl == GitHubUrl(activities[k].repoName)
    ensures activities == Activities(events)
  {
    if !events.Ok? {
      return [];
    }
    var data := events.body;
    activities := [];
    for i := 0 to |data|
      invariant |activities| == i
      invariant forall k :: 0 <= k < i ==> activities[k] == ShapeActivity(data[k])
    {
      activities := activities + [ShapeActivity(data[i])];
    }
  }

  /** `_get_contribution_stats`: a stub, always zeros and an empty calendar. */
  function ContributionStats(): (c: Contributions)
    ensures c.Stats? && c.totalContributions == 0 && c.currentStreak == 0 && c.longestStreak == 0
    ensures c.calendar == []
  {
    Stats(0, 0, 0, [])
  }

  /** `_get_fallback_data`. */
  function FallbackData(username: string, now: string): (d: GitHubData)
    ensures d.fallback && d.repositories == [] && d.activity == [] && d.contributions == NoStats
    ensures d.profile.username == username && d.profile.htmlUrl == GitHubUrl(username)
    ensures d.lastUpdated == now
  {
    GitHubData(
      Profile(username, "Bryan Howard",
              "Developer passionate about Python, web technologies, and content creation",
              "", "", None, 0, 0, 0, "", GitHubUrl(username), "", ""),
      [], [], NoStats, now, true)
  }

  /**
   * The data `generate_context` stores: the fetch sequence profile, repositories,
   * activity, contributions; an exception (a failed profile or repository-list fetch)
   * substitutes the fallback data.
   */
  function ContextData(username: string, api: Api, now: string): (d: GitHubData)
    ensures d.fallback <==> !api.user.Ok? || !api.repos.Ok?
    ensures d.fallback ==> d == FallbackData(username, now)
    ensures !d.fallback ==>
              && d.profile == UserProfile(api.user).value
              && d.repositories == ShapeRepositories(api.repos.body, api)
              && d.activity == Activities(api.events)
              && d.contributions == ContributionStats()
              && d.lastUpdated == now
  {
    match (UserProfile(api.user), api.repos)
    case (Some(profile), Ok(data)) =>
      GitHubData(profile, ShapeRepositories(data, api), Activities(api.events), ContributionStats(), now, false)
    case _ => FallbackData(username, now)
  }

  /** The GitHub data generator and its `github_data` field (None: the initial `{}`). */
  class DataGenerator {
    const settings: Settings
    var githubData: Option<GitHubData>

    constructor (settings: Settings)
      ensures this.settings == settings && githubData == None
    {
      this.settings := settings;
      githubData := None;
    }

    /** The configured username, `bhowiebkr` when unset. */
    function Username(): string
      reads this
    {
      settings.githubUsername.GetOr(DefaultUsername)
    }

    /**
     * `generate_context`; `token` is the GITHUB_TOKEN environment variable and `server`
     * gives GitHub's answers to requests for a username carrying the given headers.
     */
    method GenerateContext(token: Option<string>, server: (string, Headers) -> Api, now: string)
      modifies this
      ensures githubData == Some(ContextData(Username(), server(Username(), RequestHeaders(Username(), token)), now))
    {
      var username := settings.githubUsername.GetOr(DefaultUsername);
      var headers := RequestHeaders(username, token);
      var api := server(username, headers);
      var profile := UserProfile(api.user);
      if profile.None? {
        githubData := Some(FallbackData(username, now));
        return;
      }
      var repositories := GetRepositories(api);
      if repositories.None? {
        githubData := Some(FallbackData(username, now));
        return;
      }
      var activity := GetRecentActivity(api.events);
      var contributions := ContributionStats();
      githubData := Some(GitHubData(profile.value, repositories.value, activity, contributions, now, false));
    }
  }
}
