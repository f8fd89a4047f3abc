/**
 * The second repository formatter, app/utils/github.ts: the fork filter of
 * `getGithubRepos` and the record built by `formatRepoData`. Its title and
 * screenshot rules differ from those of the project cards, and both are
 * kept as written.
 */
module GithubUtils {
  import opened Wrappers
  import opened Text
  import opened RepoData
  import Projects

  /**
   * Lines 16-36: the non-fork repositories of a successful response; `[]`
   * when the request throws (axios rejects on a status that is not ok) or
   * when the body is not an array, since `.filter` then throws inside the `try`.
   */
  function GetGithubRepos(response: Fetched<ReposJson>): (r: seq<Repo>)
    ensures response.Ok? && response.body.RepoList? ==> r == WithoutForks(response.body.repos)
    ensures !(response.Ok? && response.body.RepoList?) ==> r == []
    ensures forall x :: x in r ==> !x.fork
  {
    match response
    case Ok(RepoList(repos)) => WithoutForks(repos)
    case _ => []
  }

  /** Line 41: only `-` becomes a space before the `\b\w` capitalisation. */
  function GithubTitle(name: string): string {
    CapitalizeWords(ReplaceChar(name, '-', ' '))
  }

  /** Line 48: the screenshot path, the lower-cased name with `_` turned into `-`. */
  function GithubImage(name: string): string {
    "/projects/" + ReplaceChar(ToLower(name), '_', '-') + ".png"
  }

  /** Line 43: `[repo.language, ...(repo.topics || [])].filter(Boolean)`. */
  function GithubTechnologies(repo: Repo): seq<string> {
    Compact([OrEmpty(repo.language)] + repo.topics.GetOr([]))
  }

  /** Lines 39-49: the record for one repository. */
  function Format(repo: Repo): Project {
    Project(repo.id, GithubTitle(repo.name), OrElse(repo.description, NoDescription), GithubTechnologies(repo),
      repo.htmlUrl, OrEmpty(repo.homepage), repo.stars, repo.forks, GithubImage(repo.name))
  }

  /** Lines 38-50: one record per repository, in the same order. */
  function FormatRepoData(repos: seq<Repo>): (r: seq<Project>)
    ensures |r| == |repos|
    ensures forall i :: 0 <= i < |repos| ==> r[i] == Format(repos[i])
  {
    seq(|repos|, i requires 0 <= i < |repos| => Format(repos[i]))
  }

  /**
   * The title keeps the name's length and has no `-`; a character is
   * upper-cased exactly where a word starts and is otherwise the name's,
   * with `-` read as a space.
   */
  lemma GithubTitleShape(name: string)
    ensures |GithubTitle(name)| == |name|
    ensures '-' !in GithubTitle(name)
    ensures forall i :: 0 <= i < |name| ==>
      var s := ReplaceChar(name, '-', ' ');
      GithubTitle(name)[i] == if WordStart(s, i) then ToUpperChar(s[i]) else s[i]
  {
    var s := ReplaceChar(name, '-', ' ');
    forall i | 0 <= i < |name|
      ensures GithubTitle(name)[i] == if WordStart(s, i) then ToUpperChar(s[i]) else s[i]
    {
      CapitalizeWordsAt(s, i);
    }
    forall i | 0 <= i < |name| ensures GithubTitle(name)[i] != '-' {
    }
  }

  /**
   * `_` is a word character and is kept, so the character after it does not
   * start a word and is not upper-cased: `my_app` becomes `My_app`.
   */
  lemma UnderscoreDoesNotSplitWords(name: string, i: nat)
    requires 0 < i < |name| && name[i - 1] == '_'
    ensures GithubTitle(name)[i - 1] == '_'
    ensures GithubTitle(name)[i] == (if name[i] == '-' then ' ' else name[i])
  {
    var s := ReplaceChar(name, '-', ' ');
    CapitalizeWordsAt(s, i - 1);
    CapitalizeWordsAt(s, i);
  }

  /** A name with an `_` gets a different title here than on the project cards. */
  lemma TitlesDifferOnUnderscore(name: string)
    requires '_' in name
    ensures GithubTitle(name) != Projects.Title(name)
  {
    var i :| 0 <= i < |name| && name[i] == '_';
    Projects.TitleShape(name);
    var s := ReplaceChar(name, '-', ' ');
    CapitalizeWordsAt(s, i);
    assert GithubTitle(name)[i] == '_';
  }

  /**
   * The path is `/projects/`, then the lower-cased name with every `_` made
   * a `-` (one character for one), then `.png`; no `_` or upper-case letter
   * is left in the middle part.
   */
  lemma GithubImageShape(name: string)
    ensures var p := GithubImage(name);
      |p| == |name| + 14 && p[..10] == "/projects/" && p[|p| - 4..] == ".png"
      && (forall i :: 0 <= i < |name| ==>
            p[10 + i] == if name[i] == '_' then '-' else ToLowerChar(name[i]))
      && (forall i :: 10 <= i < |p| - 4 ==> p[i] != '_' && !IsUpper(p[i]))
  {
    var p, mid := GithubImage(name), ReplaceChar(ToLower(name), '_', '-');
    assert p == "/projects/" + mid + ".png";
    assert p[..10] == "/projects/";
    assert p[|p| - 4..] == ".png";
    forall i | 0 <= i < |name| ensures p[10 + i] == mid[i] {
    }
  }

  /** The technologies: a truthy language, then the topics that are not empty, nothing else. */
  lemma GithubTechnologiesOrder(repo: Repo)
    ensures GithubTechnologies(repo) ==
      (if Truthy(repo.language) then [repo.language.value] else []) + Compact(repo.topics.GetOr([]))
    ensures [] !in GithubTechnologies(repo)
  {
    CompactAppend([OrEmpty(repo.language)], repo.topics.GetOr([]));
  }

  /** The record copies id, link and counters and applies the two `||` defaults. */
  lemma FormatFields(repo: Repo)
    ensures var p := Format(repo);
      p.id == repo.id && p.github == repo.htmlUrl && p.stars == repo.stars && p.forks == repo.forks
      && p.description == (if Truthy(repo.description) then repo.description.value else NoDescription)
      && p.demo == (if Truthy(repo.homepage) then repo.homepage.value else "")
      && p.title == GithubTitle(repo.name) && p.image == GithubImage(repo.name)
  {
  }

  /** Formatting a concatenation formats each part, so records follow the input order. */
  lemma FormatRepoDataAppend(a: seq<Repo>, b: seq<Repo>)
    ensures FormatRepoData(a + b) == FormatRepoData(a) + FormatRepoData(b)
  {
    var l, r := FormatRepoData(a + b), FormatRepoData(a) + FormatRepoData(b);
    forall i | 0 <= i < |l| ensures l[i] == r[i] {
      if i < |a| {
        assert (a + b)[i] == a[i];
      } else {
        assert (a + b)[i] == b[i - |a|];
      }
    }
  }
}
