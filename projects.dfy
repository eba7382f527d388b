/**
 * The repository feed of the portfolio page: the list of repositories the
 * GitHub API returns is filtered, cut to four, turned into cards and
 * appended to the project grid (script.js, fetchGitHubProjects).
 */
module Projects {
  import opened Wrappers
  import opened Text

  const GitHubUsername: string := "RaeXp917"
  /** The site's own repository. */
  const SiteRepo: string := GitHubUsername + ".github.io"
  /** How many cards one fetch renders at most. */
  const MaxCards: nat := 4
  const NoDescription: string := "No description provided."
  const NoLanguage: string := "N/A"
  /** A repository whose lower-cased name contains this word gets `EfimerevonId`. */
  const PharmacyKeyword := "pharmacy"
  const EfimerevonId: string := "project-e-efimerevon"

  /** One record of the parsed API response. */
  datatype Repo = Repo(
    name: string,
    description: Option<string>,
    language: Option<string>,
    htmlUrl: string,
    fork: bool)

  /** What one inserted `glow-card` shows; `id` is its optional element id. */
  datatype Card = Card(
    id: Option<string>,
    title: string,
    body: string,
    languageLabel: string,
    link: string)

  /** The outcome of the `fetch` call: a rejected promise, or a response with
      its `ok` flag and its body when that parses as a list of repositories. */
  datatype Response =
    | NetworkError
    | HttpResponse(ok: bool, body: Option<seq<Repo>>)

  /** The filter predicate: not a fork, not the site repository, not the profile repository. */
  predicate Listed(repo: Repo)
  {
    !repo.fork && repo.name != SiteRepo && repo.name != GitHubUsername
  }

  /** `repos.filter(Listed)`. */
  function Filter(repos: seq<Repo>): (r: seq<Repo>)
    ensures |r| <= |repos|
    ensures forall x :: x in r ==>
      x in repos && !x.fork && x.name != "RaeXp917.github.io" && x.name != "RaeXp917"
    ensures forall x :: x in repos && !x.fork && x.name != "RaeXp917.github.io" && x.name != "RaeXp917" ==>
      x in r
  {
    if repos == [] then []
    else (if Listed(repos[0]) then [repos[0]] else []) + Filter(repos[1..])
  }

  /** Filtering keeps the order of the list: it works piece by piece. */
  lemma {:induction false} FilterAppend(a: seq<Repo>, b: seq<Repo>)
    ensures Filter(a + b) == Filter(a) + Filter(b)
  {
    if a == [] {
      assert a + b == b;
    } else {
      assert (a + b)[1..] == a[1..] + b;
      FilterAppend(a[1..], b);
    }
  }

  /** `s.slice(0, n)`: the longest prefix of `s` of length at most `n`. */
  function Take<T>(s: seq<T>, n: nat): (r: seq<T>)
    ensures r <= s
    ensures |r| == if |s| < n then |s| else n
  {
    if |s| <= n then s else s[..n]
  }

  /** The repositories that become cards, in order. */
  function ProjectsToShow(repos: seq<Repo>): (r: seq<Repo>)
    ensures |r| <= MaxCards
    ensures |r| == if |Filter(repos)| < MaxCards then |Filter(repos)| else MaxCards
    ensures r <= Filter(repos)
    ensures forall x :: x in r ==> x in repos && Listed(x)
  {
    Take(Filter(repos), MaxCards)
  }

  /** The lower-cased name contains the word "pharmacy" somewhere. */
  ghost predicate MentionsPharmacy(name: string)
  {
    exists i :: OccursAt(LowerAscii(name), "pharmacy", i)
  }

  /** The element id of a card: present exactly for the pharmacy project. */
  function CardId(name: string): (r: Option<string>)
    ensures r.Some? <==> MentionsPharmacy(name)
    ensures r.Some? ==> r.value == "project-e-efimerevon"
  {
    var found := Includes(LowerAscii(name), PharmacyKeyword);
    assert found ==> exists i :: OccursAt(LowerAscii(name), "pharmacy", i);
    if found then Some(EfimerevonId) else None
  }

  /** The card one repository is rendered as. */
  function ToCard(repo: Repo): (c: Card)
    ensures |c.title| == |repo.name| && '-' !in c.title
    ensures forall i :: 0 <= i < |repo.name| ==>
      c.title[i] == (if repo.name[i] == '-' then ' ' else repo.name[i])
    ensures c.body != ""
    ensures (repo.description == None || repo.description == Some("")) ==> c.body == "No description provided."
    ensures repo.description.Some? && repo.description.value != "" ==> c.body == repo.description.value
    ensures c.languageLabel != ""
    ensures (repo.language == None || repo.language == Some("")) ==> c.languageLabel == "N/A"
    ensures repo.language.Some? && repo.language.value != "" ==> c.languageLabel == repo.language.value
    ensures c.link == repo.htmlUrl
    ensures c.id.Some? <==> MentionsPharmacy(repo.name)
    ensures c.id.Some? ==> c.id.value == "project-e-efimerevon"
  {
    var id := CardId(repo.name);
    Card(id, ReplaceHyphens(repo.name), Or(repo.description, NoDescription),
         Or(repo.language, NoLanguage), repo.htmlUrl)
  }

  /** The cards of a list of repositories, one per repository, in order. */
  function Cards(repos: seq<Repo>): (cs: seq<Card>)
    ensures |cs| == |repos|
    ensures forall i :: 0 <= i < |repos| ==> cs[i] == ToCard(repos[i])
  {
    if repos == [] then [] else [ToCard(repos[0])] + Cards(repos[1..])
  }

  /** Rendering a list one more repository long appends one more card. */
  lemma CardsSnoc(repos: seq<Repo>, repo: Repo)
    ensures Cards(repos + [repo]) == Cards(repos) + [ToCard(repo)]
  {
  }

  /** The cards one call of fetchGitHubProjects appends to an existing grid:
      none when the fetch fails, the status is not OK or the body does not
      parse; otherwise the first four listed repositories, in order. */
  function Appended(response: Response): (cs: seq<Card>)
    ensures |cs| <= MaxCards
    ensures !(response.HttpResponse? && response.ok && response.body.Some?) ==> cs == []
    ensures response.HttpResponse? && response.ok && response.body.Some? ==>
      var listed := Filter(response.body.value);
      |cs| == (if |listed| < MaxCards then |listed| else MaxCards) &&
      forall i :: 0 <= i < |cs| ==> cs[i] == ToCard(listed[i])
  {
    match response
    case HttpResponse(true, Some(repos)) => Cards(ProjectsToShow(repos))
    case _ => []
  }

  /** The `project-grid` element: the cards it holds, in document order. */
  class Grid {
    var cards: seq<Card>

    /** A grid with the cards the page already holds. */
    constructor (initial: seq<Card>)
      ensures cards == initial
    {
      cards := initial;
    }

    /** `insertAdjacentHTML('beforeend', …)`: the card goes after the existing ones. */
    method InsertBeforeEnd(card: Card)
      modifies this
      ensures cards == old(cards) + [card]
    {
      cards := cards + [card];
    }

    /** The `forEach` over the repositories to show: one card per repository,
        appended in order after the existing cards. */
    method InsertAll(shown: seq<Repo>)
      modifies this
      ensures cards == old(cards) + Cards(shown)
    {
      var i := 0;
      while i < |shown|
        invariant 0 <= i <= |shown|
        invariant cards == old(cards) + Cards(shown[..i])
      {
        var card := ToCard(shown[i]);
        ghost var before := Cards(shown[..i]);
        assert shown[..i + 1] == shown[..i] + [shown[i]];
        CardsSnoc(shown[..i], shown[i]);
        InsertBeforeEnd(card);
        assert cards == old(cards) + before + [card];
        i := i + 1;
      }
      assert shown[..i] == shown;
    }
  }

  /** fetchGitHubProjects with the network call replaced by its outcome. A
      missing grid leaves everything alone; a failure leaves the grid as it
      was; otherwise the cards are appended after the grid's existing ones. */
  method FetchGitHubProjects(grid: Grid?, response: Response)
    modifies grid
    ensures grid != null ==> grid.cards == old(grid.cards) + Appended(response)
  {
    if grid == null {
      return;
    }
    if !response.HttpResponse? || !response.ok || !response.body.Some? {
      // the thrown error or the rejected promise is caught and logged
      return;
    }
    var shown := ProjectsToShow(response.body.value);
    assert Appended(response) == Cards(shown);
    grid.InsertAll(shown);
  }
}
