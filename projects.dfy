/**
 * The project cards of app/components/Projects.tsx: what `fetchProjects`
 * does with the repository list once it has arrived. Forks are dropped,
 * each repository gets a title, a screenshot name and heuristic extra tags,
 * the list is cut down to an allow-list of showcased titles, and every
 * survivor becomes a card whose technologies are its basic tags followed by
 * the tags `detectTechnologies` found in its code.
 *
 * The per-repository detection (a network-backed routine that never throws)
 * is a parameter `detect` from repository name to its tags; `Promise.all`
 * over independent calls is an ordered map.
 */
module Projects {
  import opened Wrappers
  import opened Text
  import opened RepoData

  /* ---------- title ---------- */

  /** Both separators become spaces: `.replace(/-/g, ' ').replace(/_/g, ' ')`. */
  function Spaced(name: string): string {
    ReplaceChar(ReplaceChar(name, '-', ' '), '_', ' ')
  }

  /** The separator rewrite as one pointwise map. */
  function SepToSpace(c: char): char {
    if c == '-' || c == '_' then ' ' else c
  }

  /** Line 269: the displayed title, with every word-initial character upper-cased. */
  function Title(name: string): string {
    CapitalizeWords(Spaced(name))
  }

  /**
   * The title has the length of the name and no separator left; each
   * character is the spaced name's, upper-cased exactly where a word starts.
   */
  lemma TitleShape(name: string)
    ensures |Title(name)| == |name|
    ensures '-' !in Title(name) && '_' !in Title(name)
    ensures forall i :: 0 <= i < |name| ==>
      Title(name)[i] == if WordStart(Spaced(name), i) then ToUpperChar(Spaced(name)[i]) else Spaced(name)[i]
    ensures forall i :: 0 <= i < |name| ==>
      Spaced(name)[i] == if name[i] == '-' || name[i] == '_' then ' ' else name[i]
  {
    var s := Spaced(name);
    forall i | 0 <= i < |name|
      ensures Title(name)[i] == if WordStart(s, i) then ToUpperChar(s[i]) else s[i]
    {
      CapitalizeWordsAt(s, i);
    }
    forall i | 0 <= i < |name| ensures Title(name)[i] != '-' && Title(name)[i] != '_' {
    }
  }

  /** Lower-casing the title gives the lower-cased name with its separators turned into spaces. */
  lemma TitleLower(name: string)
    ensures ToLower(Title(name)) == MapChars(SepToSpace, ToLower(name))
  {
    CapitalizeWordsLower(Spaced(name));
    var a, b := ToLower(Spaced(name)), MapChars(SepToSpace, ToLower(name));
    forall i | 0 <= i < |a| ensures a[i] == b[i] {
    }
  }

  /* ---------- screenshot ---------- */

  /** Lines 216-225: the screenshot chosen by the first keyword the lower-cased name contains. */
  function ImageFor(name: string): string {
    var n := ToLower(name);
    if Contains(n, "algoquest") then "algoquest.png"
    else if Contains(n, "talktome") || Contains(n, "talk to me") then "talktome.png"
    else if Contains(n, "mental-health-awareness-among-children") then "mental-health.png"
    else ""
  }

  /** Lines 277-282: the allow-list, on the lower-cased title. */
  predicate Allowed(title: string) {
    var t := ToLower(title);
    Contains(t, "algoquest") || Contains(t, "talktome") || Contains(t, "talk to me") || Contains(t, "mental health")
  }

  lemma MapSepIdentity(k: string)
    requires '-' !in k && '_' !in k
    ensures MapChars(SepToSpace, k) == k
  {
  }

  /** A keyword without separators found in the name is still found in the lower-cased title. */
  lemma KeywordSurvivesTitle(name: string, k: string)
    requires '-' !in k && '_' !in k
    requires Contains(ToLower(name), k)
    ensures Contains(ToLower(Title(name)), k)
  {
    TitleLower(name);
    ContainsMapped(SepToSpace, ToLower(name), k);
    MapSepIdentity(k);
  }

  /** The long screenshot keyword, once its dashes are spaces, contains the allow-list's `mental health`. */
  lemma MentalHealthSurvivesTitle(name: string)
    requires Contains(ToLower(name), "mental-health-awareness-among-children")
    ensures Contains(ToLower(Title(name)), "mental health")
  {
    var n := ToLower(name);
    MentalHealthPrefix();
    ContainsTransitive(n, "mental-health-awareness-among-children", "mental-health");
    TitleLower(name);
    ContainsMapped(SepToSpace, n, "mental-health");
    MentalHealthSpaced();
  }

  lemma MentalHealthPrefix()
    ensures Contains("mental-health-awareness-among-children", "mental-health")
  {
    var long := "mental-health-awareness-among-children";
    assert long[..13] == "mental-health";
  }

  lemma MentalHealthSpaced()
    ensures MapChars(SepToSpace, "mental-health") == "mental health"
  {
  }

  /** Every repository that gets a screenshot passes the allow-list. */
  lemma ImageImpliesAllowed(name: string)
    requires ImageFor(name) != ""
    ensures Allowed(Title(name))
  {
    var n := ToLower(name);
    if Contains(n, "algoquest") {
      KeywordSurvivesTitle(name, "algoquest");
    } else if Contains(n, "talktome") {
      KeywordSurvivesTitle(name, "talktome");
    } else if Contains(n, "talk to me") {
      KeywordSurvivesTitle(name, "talk to me");
    } else {
      MentalHealthSurvivesTitle(name);
    }
  }

  /** The allow-list is wider than the screenshot table: `mental_health` is shown without a screenshot. */
  lemma AllowedWithoutImage()
    ensures Allowed(Title("mental_health"))
    ensures ImageFor("mental_health") == ""
  {
    UnderscoreNameAllowed();
    UnderscoreNameNoImage();
  }

  lemma UnderscoreNameNoImage()
    ensures var n := ToLower("mental_health");
      !Contains(n, "algoquest") && !Contains(n, "talktome") && !Contains(n, "talk to me")
      && !Contains(n, "mental-health-awareness-among-children")
  {
    var n := "mental_health";
    UnderscoreNameFacts();
    ContainsNeedsChar(n, "algoquest", 'q');
    ContainsNeedsChar(n, "talktome", 'k');
    ContainsNeedsChar(n, "talk to me", 'k');
    ContainsNeedsChar(n, "mental-health-awareness-among-children", '-');
  }

  lemma UnderscoreNameAllowed()
    ensures Contains(ToLower(Title("mental_health")), "mental health")
  {
    UnderscoreNameFacts();
    TitleLower("mental_health");
    ContainsSelf("mental health");
  }

  lemma UnderscoreNameFacts()
    ensures ToLower("mental_health") == "mental_health"
    ensures MapChars(SepToSpace, "mental_health") == "mental health"
    ensures 'q' !in "mental_health" && 'k' !in "mental_health" && '-' !in "mental_health"
  {
  }

  /* ---------- extra tags ---------- */

  /** `repo.description && repo.description.toLowerCase().includes(k)`. */
  predicate DescHas(description: Option<string>, k: string) {
    Truthy(description) && Contains(ToLower(description.value), k)
  }

  /** The conditions of the eight `if`s of lines 230-265, evaluated on the lower-cased name and description. */
  datatype Cues = Cues(algorithms: bool, react: bool, next: bool, aiml: bool, web: bool,
                       algoquest: bool, talk: bool, awareness: bool)

  function CuesOf(name: string, description: Option<string>): Cues {
    var n := ToLower(name);
    Cues(
      algorithms := Contains(n, "dsa") || Contains(n, "algorithm") || DescHas(description, "algorithm"),
      react := Contains(n, "react") || DescHas(description, "react"),
      next := Contains(n, "next") || DescHas(description, "next.js"),
      aiml := Contains(n, "ai") || Contains(n, "ml") || DescHas(description, "ai") || DescHas(description, "machine learning"),
      web := Contains(n, "web") || Contains(n, "frontend") || Contains(n, "website"),
      algoquest := Contains(n, "algoquest"),
      talk := Contains(n, "talktome") || Contains(n, "talk to me"),
      awareness := Contains(n, "mental-health-awareness-among-children"))
  }

  /** `if (cond) additionalTags.add(x)`. */
  function AddIf(xs: seq<string>, cond: bool, x: string): seq<string> {
    if cond then Add(xs, x) else xs
  }

  lemma AddIfMember(xs: seq<string>, cond: bool, x: string, t: string)
    ensures t in AddIf(xs, cond, x) <==> t in xs || (cond && t == x)
  {
    AddFacts(xs, x);
  }

  lemma AddIfDistinct(xs: seq<string>, cond: bool, x: string)
    ensures NoDuplicates(xs) ==> NoDuplicates(AddIf(xs, cond, x))
  {
    AddFacts(xs, x);
  }

  /** Lines 228-265: `Array.from(additionalTags)`, the set's elements in insertion order. */
  function TagsOf(c: Cues): seq<string> {
    LateTags(EarlyTags(c), c)
  }

  /** Lines 230-251: the tags added for the algorithm, React, Next.js, AI/ML and web cues. */
  function EarlyTags(c: Cues): seq<string> {
    var s := AddIf([], c.algorithms, "Algorithms");
    var s := AddIf(s, c.algorithms, "Data Structures");
    var s := AddIf(s, c.react, "React");
    var s := AddIf(s, c.next, "Next.js");
    var s := AddIf(s, c.aiml, "AI/ML");
    AddIf(s, c.web, "Web")
  }

  /** Lines 253-265: the tags the three named projects add to `xs`. */
  function LateTags(xs: seq<string>, c: Cues): seq<string> {
    var s := AddIf(xs, c.algoquest, "Competitive Programming");
    var s := AddIf(s, c.algoquest, "JavaScript");
    var s := AddIf(s, c.talk, "Mental Health");
    var s := AddIf(s, c.talk, "Chatbot");
    var s := AddIf(s, c.awareness, "Mental Health");
    AddIf(s, c.awareness, "Awareness")
  }

  function AdditionalTags(name: string, description: Option<string>): seq<string> {
    TagsOf(CuesOf(name, description))
  }

  /** Lines 228-265: the extra-tag set built by its `add` calls, given the conditions of its `if`s. */
  method CollectAdditionalTags(c: Cues) returns (tags: seq<string>)
    ensures tags == TagsOf(c)
  {
    tags := [];
    tags := AddWhen(tags, c.algorithms, "Algorithms");
    tags := AddWhen(tags, c.algorithms, "Data Structures");
    tags := AddWhen(tags, c.react, "React");
    tags := AddWhen(tags, c.next, "Next.js");
    tags := AddWhen(tags, c.aiml, "AI/ML");
    tags := AddWhen(tags, c.web, "Web");
    tags := AddWhen(tags, c.algoquest, "Competitive Programming");
    tags := AddWhen(tags, c.algoquest, "JavaScript");
    tags := AddWhen(tags, c.talk, "Mental Health");
    tags := AddWhen(tags, c.talk, "Chatbot");
    tags := AddWhen(tags, c.awareness, "Mental Health");
    tags := AddWhen(tags, c.awareness, "Awareness");
  }

  /** One `if (cond) additionalTags.add(x)`: the tag is appended when the condition holds and it is new. */
  method AddWhen(tags: seq<string>, cond: bool, x: string) returns (r: seq<string>)
    ensures r == AddIf(tags, cond, x)
    ensures cond && x !in tags ==> r == tags + [x]
    ensures !cond || x in tags ==> r == tags
  {
    r := tags;
    if cond {
      r := Add(r, x);
    }
  }

  /**
   * Which cue yields which tag: each tag is present exactly when one of its
   * conditions held; `Mental Health` comes from either of two rules.
   */
  lemma TagsOfMember(c: Cues, t: string)
    ensures t in TagsOf(c) <==>
      (c.algorithms && (t == "Algorithms" || t == "Data Structures"))
      || (c.react && t == "React") || (c.next && t == "Next.js")
      || (c.aiml && t == "AI/ML") || (c.web && t == "Web")
      || (c.algoquest && (t == "Competitive Programming" || t == "JavaScript"))
      || ((c.talk || c.awareness) && t == "Mental Health")
      || (c.talk && t == "Chatbot") || (c.awareness && t == "Awareness")
  {
    EarlyTagsMember(c, t);
    LateTagsMember(EarlyTags(c), c, t);
  }

  lemma EarlyTagsMember(c: Cues, t: string)
    ensures t in EarlyTags(c) <==>
      (c.algorithms && (t == "Algorithms" || t == "Data Structures"))
      || (c.react && t == "React") || (c.next && t == "Next.js")
      || (c.aiml && t == "AI/ML") || (c.web && t == "Web")
  {
    var s1 := AddIf([], c.algorithms, "Algorithms");
    var s2 := AddIf(s1, c.algorithms, "Data Structures");
    var s3 := AddIf(s2, c.react, "React");
    var s4 := AddIf(s3, c.next, "Next.js");
    var s5 := AddIf(s4, c.aiml, "AI/ML");
    AddIfMember([], c.algorithms, "Algorithms", t);
    AddIfMember(s1, c.algorithms, "Data Structures", t);
    AddIfMember(s2, c.react, "React", t);
    AddIfMember(s3, c.next, "Next.js", t);
    AddIfMember(s4, c.aiml, "AI/ML", t);
    AddIfMember(s5, c.web, "Web", t);
  }

  lemma LateTagsMember(xs: seq<string>, c: Cues, t: string)
    ensures t in LateTags(xs, c) <==>
      t in xs
      || (c.algoquest && (t == "Competitive Programming" || t == "JavaScript"))
      || ((c.talk || c.awareness) && t == "Mental Health")
      || (c.talk && t == "Chatbot") || (c.awareness && t == "Awareness")
  {
    var s1 := AddIf(xs, c.algoquest, "Competitive Programming");
    var s2 := AddIf(s1, c.algoquest, "JavaScript");
    var s3 := AddIf(s2, c.talk, "Mental Health");
    var s4 := AddIf(s3, c.talk, "Chatbot");
    var s5 := AddIf(s4, c.awareness, "Mental Health");
    AddIfMember(xs, c.algoquest, "Competitive Programming", t);
    AddIfMember(s1, c.algoquest, "JavaScript", t);
    AddIfMember(s2, c.talk, "Mental Health", t);
    AddIfMember(s3, c.talk, "Chatbot", t);
    AddIfMember(s4, c.awareness, "Mental Health", t);
    AddIfMember(s5, c.awareness, "Awareness", t);
  }

  /** Each tag appears once, even when two rules add it. */
  lemma TagsOfDistinct(c: Cues)
    ensures NoDuplicates(TagsOf(c))
  {
    AddIfDistinct([], c.algorithms, "Algorithms");
    var s1 := AddIf([], c.algorithms, "Algorithms");
    AddIfDistinct(s1, c.algorithms, "Data Structures");
    var s2 := AddIf(s1, c.algorithms, "Data Structures");
    AddIfDistinct(s2, c.react, "React");
    var s3 := AddIf(s2, c.react, "React");
    AddIfDistinct(s3, c.next, "Next.js");
    var s4 := AddIf(s3, c.next, "Next.js");
    AddIfDistinct(s4, c.aiml, "AI/ML");
    var s5 := AddIf(s4, c.aiml, "AI/ML");
    AddIfDistinct(s5, c.web, "Web");
    var s6 := AddIf(s5, c.web, "Web");
    AddIfDistinct(s6, c.algoquest, "Competitive Programming");
    var s7 := AddIf(s6, c.algoquest, "Competitive Programming");
    AddIfDistinct(s7, c.algoquest, "JavaScript");
    var s8 := AddIf(s7, c.algoquest, "JavaScript");
    AddIfDistinct(s8, c.talk, "Mental Health");
    var s9 := AddIf(s8, c.talk, "Mental Health");
    AddIfDistinct(s9, c.talk, "Chatbot");
    var s10 := AddIf(s9, c.talk, "Chatbot");
    AddIfDistinct(s10, c.awareness, "Mental Health");
    var s11 := AddIf(s10, c.awareness, "Mental Health");
    AddIfDistinct(s11, c.awareness, "Awareness");
  }

  /* ---------- cards ---------- */

  /** The intermediate record of lines 267-273. */
  datatype Shaped = Shaped(repo: Repo, title: string, description: string, basicTechnologies: seq<string>, image: string)

  /** Line 271: the language, the topics and the extra tags, falsy entries removed. */
  function BasicTechnologies(repo: Repo): seq<string> {
    Compact([OrEmpty(repo.language)] + repo.topics.GetOr([]) + AdditionalTags(repo.name, repo.description))
  }

  /** Lines 214-273: one repository shaped. */
  function Shape(repo: Repo): Shaped {
    Shaped(repo, Title(repo.name), OrElse(repo.description, NoDescription), BasicTechnologies(repo), ImageFor(repo.name))
  }

  /** Lines 288-298: one card, given the tags detected in the repository's code. */
  function Card(s: Shaped, codeTech: seq<string>): Project {
    Project(s.repo.id, s.title, s.description, Compact(s.basicTechnologies + codeTech), s.repo.htmlUrl,
      OrEmpty(s.repo.homepage), s.repo.stars, s.repo.forks, s.image)
  }

  /** Lines 212-274: `.map(...)` over the non-forks; ShapeAllIsMap and KeepAllowedShapeAll are its properties. */
  function ShapeAll(repos: seq<Repo>): (r: seq<Shaped>)
    ensures |r| == |repos|
    ensures forall i :: 0 <= i < |repos| ==> r[i] == Shape(repos[i])
  {
    seq(|repos|, i requires 0 <= i < |repos| => Shape(repos[i]))
  }

  /** Lines 277-282: the shaped repositories whose title passes the allow-list. */
  function KeepAllowed(shaped: seq<Shaped>): (r: seq<Shaped>)
    ensures forall x :: x in r <==> x in shaped && Allowed(x.title)
  {
    if shaped == [] then []
    else (if Allowed(shaped[0].title) then [shaped[0]] else []) + KeepAllowed(shaped[1..])
  }

  /**
   * Lines 285-300: each kept repository becomes a card, in order.
   * `detect(name)` stands for `detectTechnologies('anurag-yv', name)`, that is
   * `TechDetect.Detect` over the replies of that repository's requests; the
   * replies are outside input, so the whole map is a parameter.
   */
  function CardsOf(kept: seq<Shaped>, detect: string -> seq<string>): (r: seq<Project>)
    ensures |r| == |kept|
  {
    seq(|kept|, i requires 0 <= i < |kept| => Card(kept[i], detect(kept[i].repo.name)))
  }

  /** Lines 212-300: the whole pipeline on a non-empty repository list. */
  function Cards(repos: seq<Repo>, detect: string -> seq<string>): seq<Project> {
    CardsOf(KeepAllowed(ShapeAll(WithoutForks(repos))), detect)
  }

  /** The repositories that end up on a card, in their original order. */
  function Showcased(repos: seq<Repo>): (r: seq<Repo>)
    ensures forall x :: x in r <==> x in repos && !x.fork && Allowed(Title(x.name))
  {
    if repos == [] then []
    else (if !repos[0].fork && Allowed(Title(repos[0].name)) then [repos[0]] else []) + Showcased(repos[1..])
  }

  /** The allow-list applied to repositories rather than to shaped records. */
  function AllowedOnly(repos: seq<Repo>): (r: seq<Repo>)
    ensures forall x :: x in r <==> x in repos && Allowed(Title(x.name))
  {
    if repos == [] then []
    else (if Allowed(Title(repos[0].name)) then [repos[0]] else []) + AllowedOnly(repos[1..])
  }

  /** Applying `f` to each repository. */
  function MapRepos(repos: seq<Repo>, f: Repo -> Shaped): (r: seq<Shaped>)
    ensures |r| == |repos|
    ensures forall i :: 0 <= i < |repos| ==> r[i] == f(repos[i])
  {
    if repos == [] then [] else [f(repos[0])] + MapRepos(repos[1..], f)
  }

  /** Filtering by title commutes with any map that keeps a repository's title. */
  lemma {:induction false} KeepAllowedMap(repos: seq<Repo>, f: Repo -> Shaped)
    requires forall x :: f(x).title == Title(x.name)
    ensures KeepAllowed(MapRepos(repos, f)) == MapRepos(AllowedOnly(repos), f)
  {
    if repos != [] {
      var m := MapRepos(repos, f);
      KeepAllowedMap(repos[1..], f);
      assert m[0] == f(repos[0]) && m[1..] == MapRepos(repos[1..], f);
      var rest := AllowedOnly(repos[1..]);
      if Allowed(Title(repos[0].name)) {
        var a := [repos[0]] + rest;
        assert AllowedOnly(repos) == a && a[0] == repos[0] && a[1..] == rest;
      } else {
        assert AllowedOnly(repos) == rest;
      }
    }
  }

  lemma ShapeKeepsTitle(x: Repo)
    ensures Shape(x).title == Title(x.name)
  {
  }

  /** Shaping commutes with the allow-list, since a shaped record's title is its repository's title. */
  lemma KeepAllowedShapeAll(repos: seq<Repo>)
    ensures KeepAllowed(ShapeAll(repos)) == ShapeAll(AllowedOnly(repos))
  {
    forall x ensures Shape(x).title == Title(x.name) {
      ShapeKeepsTitle(x);
    }
    KeepAllowedMap(repos, Shape);
    ShapeAllIsMap(repos);
    ShapeAllIsMap(AllowedOnly(repos));
  }

  lemma ShapeAllIsMap(repos: seq<Repo>)
    ensures ShapeAll(repos) == MapRepos(repos, Shape)
  {
  }

  /** Dropping forks and then applying the allow-list keeps exactly the showcased repositories, in order. */
  lemma {:induction false} FiltersCompose(repos: seq<Repo>)
    ensures AllowedOnly(WithoutForks(repos)) == Showcased(repos)
  {
    if repos != [] {
      FiltersCompose(repos[1..]);
      var rest := WithoutForks(repos[1..]);
      if !repos[0].fork {
        var w := [repos[0]] + rest;
        assert WithoutForks(repos) == w;
        assert w[0] == repos[0] && w[1..] == rest;
      } else {
        assert WithoutForks(repos) == rest;
      }
    }
  }

  /**
   * The cards are those of the showcased repositories, one each, in order:
   * forks and titles off the allow-list are dropped and nothing else is.
   */
  lemma CardsAreShowcased(repos: seq<Repo>, detect: string -> seq<string>)
    ensures |Cards(repos, detect)| == |Showcased(repos)|
    ensures forall i :: 0 <= i < |Showcased(repos)| ==>
      Cards(repos, detect)[i] == Card(Shape(Showcased(repos)[i]), detect(Showcased(repos)[i].name))
  {
    KeepAllowedShapeAll(WithoutForks(repos));
    FiltersCompose(repos);
  }

  /** No card is made from a fork or from a repository whose title is off the allow-list. */
  lemma CardsSource(repos: seq<Repo>, detect: string -> seq<string>, c: Project)
    requires c in Cards(repos, detect)
    ensures exists x :: x in repos && !x.fork && Allowed(Title(x.name)) && c == Card(Shape(x), detect(x.name))
  {
    CardsAreShowcased(repos, detect);
    var i :| 0 <= i < |Cards(repos, detect)| && Cards(repos, detect)[i] == c;
    var x := Showcased(repos)[i];
    assert x in Showcased(repos);
  }

  /** The basic tags: a truthy language, then the non-empty topics, then the extra tags. */
  lemma BasicTechnologiesOrder(repo: Repo)
    ensures BasicTechnologies(repo) ==
      (if Truthy(repo.language) then [repo.language.value] else [])
      + Compact(repo.topics.GetOr([])) + AdditionalTags(repo.name, repo.description)
  {
    var extra := AdditionalTags(repo.name, repo.description);
    var lang := [OrEmpty(repo.language)];
    CompactAppend(lang + repo.topics.GetOr([]), extra);
    CompactAppend(lang, repo.topics.GetOr([]));
    TagsOfMember(CuesOf(repo.name, repo.description), []);
    assert forall i :: 0 <= i < |extra| ==> extra[i] in extra;
    CompactIdentity(extra);
  }

  /**
   * A card copies the repository's id, link and counters, defaults a falsy
   * homepage to `""`, and lists the basic tags followed by the non-empty
   * detected tags, none of them empty.
   */
  lemma CardFields(repo: Repo, codeTech: seq<string>)
    ensures var c := Card(Shape(repo), codeTech);
      c.id == repo.id && c.github == repo.htmlUrl && c.stars == repo.stars && c.forks == repo.forks
      && c.demo == (if Truthy(repo.homepage) then repo.homepage.value else "")
      && c.description == (if Truthy(repo.description) then repo.description.value else NoDescription)
      && c.title == Title(repo.name) && c.image == ImageFor(repo.name)
      && c.technologies == BasicTechnologies(repo) + Compact(codeTech)
      && [] !in c.technologies
  {
    var basic := BasicTechnologies(repo);
    CompactAppend(basic, codeTech);
    assert forall i :: 0 <= i < |basic| ==> basic[i] in basic;
    CompactIdentity(basic);
  }

  /**
   * The two tag lists are joined without removing repeats: an AlgoQuest
   * repository whose code is detected as JavaScript lists `JavaScript` twice.
   */
  lemma CardTechnologiesMayRepeat(repo: Repo, codeTech: seq<string>)
    requires Contains(ToLower(repo.name), "algoquest")
    requires "JavaScript" in codeTech
    ensures multiset(Card(Shape(repo), codeTech).technologies)["JavaScript"] >= 2
  {
    CardFields(repo, codeTech);
    BasicTechnologiesOrder(repo);
    TagsOfMember(CuesOf(repo.name, repo.description), "JavaScript");
    var basic, found := BasicTechnologies(repo), Compact(codeTech);
    assert "JavaScript" in basic && "JavaScript" in found;
    assert multiset(basic + found) == multiset(basic) + multiset(found);
  }

  /* ---------- the section's state ---------- */

  const FetchError := "Failed to fetch projects. Please try again later."

  /**
   * Lines 204-305: the cards for a repository-list response, or `None` when
   * the `try` throws: a status that is not ok, an exception, a body that is
   * not an array, or an empty array.
   */
  function LoadCards(response: Fetched<ReposJson>, detect: string -> seq<string>): Option<seq<Project>> {
    match response
    case Ok(RepoList(repos)) => if |repos| > 0 then Some(Cards(repos, detect)) else None
    case _ => None
  }

  /** The `projects`, `isLoading` and `error` state of the section. */
  class ProjectsSection {
    var projects: seq<Project>
    var isLoading: bool
    var error: Option<string>

    /** Lines 196-198: no cards, loading, no error. */
    constructor()
      ensures projects == [] && isLoading && error == None
    {
      projects, isLoading, error := [], true, None;
    }

    /**
     * Lines 201-313: on success the cards replace the list and the error is
     * left as it was; on failure the list is emptied and the fixed error is
     * set; either way loading ends.
     */
    method FetchProjects(response: Fetched<ReposJson>, detect: string -> seq<string>)
      modifies this
      ensures !isLoading
      ensures LoadCards(response, detect).Some? ==>
        projects == LoadCards(response, detect).value && error == old(error)
      ensures LoadCards(response, detect).None? ==> projects == [] && error == Some(FetchError)
    {
      if response.Ok? && response.body.RepoList? && |response.body.repos| > 0 {
        projects := Cards(response.body.repos, detect);
      } else {
        error := Some(FetchError);
        projects := [];
      }
      isLoading := false;
    }
  }
}
