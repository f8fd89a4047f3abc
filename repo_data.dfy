/**
 * The repository record of the GitHub "list repositories for a user"
 * endpoint, restricted to the fields the portfolio reads, and the
 * JavaScript truthiness rules applied to them.
 */
module RepoData {
  import opened Wrappers

  /**
   * `null` text fields are `None`; `topics` is `None` when the response
   * has no topics array.
   */
  datatype Repo = Repo(
    id: int,
    name: string,
    description: Option<string>,
    htmlUrl: string,
    homepage: Option<string>,
    language: Option<string>,
    topics: Option<seq<string>>,
    stars: int,
    forks: int,
    fork: bool)

  /** The decoded body of the repository-list response: an array of repositories, or some other JSON value. */
  datatype ReposJson = RepoList(repos: seq<Repo>) | NotAList

  /** A possibly-null string is truthy when it is present and not empty. */
  predicate Truthy(s: Option<string>) {
    s.Some? && s.value != []
  }

  /** `s || fallback` for a possibly-null string. */
  function OrElse(s: Option<string>, fallback: string): (r: string)
    ensures Truthy(s) ==> r == s.value
    ensures !Truthy(s) ==> r == fallback
  {
    if Truthy(s) then s.value else fallback
  }

  /** The value spread into a list for a possibly-null string, `""` standing for a falsy one. */
  function OrEmpty(s: Option<string>): string {
    OrElse(s, "")
  }

  /**
   * The card both formatters produce (app/components/Projects.tsx:288-298,
   * app/utils/github.ts:39-49).
   */
  datatype Project = Project(
    id: int,
    title: string,
    description: string,
    technologies: seq<string>,
    github: string,
    demo: string,
    stars: int,
    forks: int,
    image: string)

  /** The description shown for a repository whose description is falsy. */
  const NoDescription := "No description provided"

  /** `.filter(repo => !repo.fork)`. */
  function WithoutForks(repos: seq<Repo>): (r: seq<Repo>)
    ensures forall x :: x in r <==> x in repos && !x.fork
    ensures |r| <= |repos|
  {
    if repos == [] then []
    else (if repos[0].fork then [] else [repos[0]]) + WithoutForks(repos[1..])
  }

  /** The filter works element by element, so it keeps the order of the list. */
  lemma {:induction false} WithoutForksAppend(a: seq<Repo>, b: seq<Repo>)
    ensures WithoutForks(a + b) == WithoutForks(a) + WithoutForks(b)
  {
    if a == [] {
      assert a + b == b;
    } else {
      assert (a + b)[1..] == a[1..] + b;
      WithoutForksAppend(a[1..], b);
    }
  }

  /** A list without forks passes the filter unchanged. */
  lemma {:induction false} WithoutForksIdentity(repos: seq<Repo>)
    requires forall i :: 0 <= i < |repos| ==> !repos[i].fork
    ensures WithoutForks(repos) == repos
  {
    if repos != [] {
      WithoutForksIdentity(repos[1..]);
    }
  }
}
