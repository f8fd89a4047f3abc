# Codefolio portfolio logic in Dafny

This project models the logic behind the Codefolio portfolio site (a Next.js
application). Everything that five files of the site compute from network
replies and user input is modelled: the project cards, the repository
formatter, the contact endpoint, the contact form and the
competitive-programming section. Layout, animation and styling are not, and
neither are the other components (the navigation bar's scroll tracking among
them) or the `app/api/github` relay. The parts are:

- **Project cards** (`app/components/Projects.tsx`):
  - the fork filter;
  - title casing;
  - the screenshot choice;
  - the keyword extra-tags;
  - the allow-list of showcased projects;
  - the card record;
  - the section's `projects` / `isLoading` / `error` state.
- **Technology detection** (`detectTechnologies` in `Projects.tsx`):
  - scan a repository's file tree for extensions and root manifests;
  - read `package.json`, `requirements.txt` and `pom.xml`;
  - return a deduplicated tag list.
- **The second repository formatter** (`app/utils/github.ts`): `getGithubRepos` and `formatRepoData`.
- **The contact endpoint** (`app/api/contact/route.ts`):
  - field presence after trimming;
  - the email regular expression;
  - the mail configuration;
  - the mail options;
  - the HTML body;
  - the status codes.
- **The contact form** (`app/components/Contact.tsx`):
  - its `formData` / `status` / `errorMessage` state;
  - the two handlers;
  - what the button and banners show;
  - what it does against the endpoint.
- **Competitive-programming stats** (`app/components/CompetitiveProgramming.tsx`):
  - the three platform cards;
  - the per-provider stat records;
  - the update-by-name;
  - the distinct-solved count for Codeforces;
  - the error sweep.

**How outside effects appear.** Each network reply is an input value of type
`Fetched<T>`:

- `Ok(body)`: the decoded body;
- `NotOk`: the response's `ok` flag is false;
- `Threw`: the request or the decoding threw.

The contact endpoint takes the outcome of `sendMail` as a boolean, and the
form takes the decoded reply or an exception. Object state that React keeps
with `useState` is modelled as a class whose methods assign its fields.

**Modules.** The files follow the source:

| file | models |
|---|---|
| `wrappers.dfy` | `Option` and `Fetched` |
| `text.dfy` | the JavaScript string operations the code relies on |
| `repo_data.dfy` | the GitHub repository record, the card record and the fork filter |
| `tech_detect.dfy` | `detectTechnologies` |
| `projects.dfy` | the Projects section |
| `github_utils.dfy` | `app/utils/github.ts` |
| `contact_api.dfy` | the POST route |
| `contact_form.dfy` | the Contact form |
| `competitive.dfy` | the CompetitiveProgramming section |

**Where the code behaves otherwise than its intent suggests, the model follows the code:**
- A `package.json`, `requirements.txt` or `pom.xml` fetch that throws aborts all detection. It goes to the `catch` and returns `[]`. It does not merely skip that manifest. See `TechDetect.ManifestThrowGivesNothing`.
- The card's `technologies` list is not deduplicated. The base tags and the detected tags can repeat a name. See `Projects.CardTechnologiesMayRepeat`.
- When the Codeforces `user.info` reply is not ok, or has an empty `result`, nothing is thrown and the Codeforces card stays loading. See `Competitive.EmptyCodeforcesStaysLoading`.
- The mail subject fallback of `sendEmail` cannot be reached through POST, since the route refuses a blank subject first. See `ContactApi.SentMailUsesTrimmedFields`.

## Model

| member | source | states |
|---|---|---|
| RepoData.OrElse | app/utils/github.ts:42 | `s \|\| fallback`: the string when present and non-empty, otherwise the fallback |
| RepoData.WithoutForks | app/components/Projects.tsx:213 | a repository is kept exactly when it is in the input and is not a fork; never longer than the input |
| RepoData.WithoutForksAppend | app/utils/github.ts:31 | filtering a concatenation filters each part, so the input order is kept |
| RepoData.WithoutForksIdentity | app/utils/github.ts:31 | a list without forks passes the filter unchanged |
| Text.ToLowerChar | app/components/Projects.tsx:217 | `toLowerCase` on one character: an upper-case ASCII letter becomes its own lower-case letter, 32 code points on; any other character is kept |
| Text.ToUpperChar | app/components/Projects.tsx:269 | `toUpperCase` on one character: a lower-case ASCII letter becomes its own upper-case letter, 32 code points back; any other character is kept |
| Text.LowerOfUpper | app/components/Projects.tsx:269 | lower-casing undoes upper-casing, and upper-casing keeps a character's `\w` class |
| Text.MapChars | app/components/Projects.tsx:269 | a per-character rewrite keeps the length and maps each position |
| Text.ToLower | app/components/Projects.tsx:217 | `toLowerCase` keeps the length and lower-cases each character |
| Text.ReplaceChar | app/components/Projects.tsx:269 | `replace(/a/g, b)`: every `a` becomes `b`, every other character stays |
| Text.ReplaceCharRemoves | app/utils/github.ts:41 | after replacing `a` by a different character no `a` is left |
| Text.Contains | app/components/Projects.tsx:219 | `s.includes(k)`: `k` starts here or somewhere later; ContainsIff ties it to a position |
| Text.ContainsIff | app/components/Projects.tsx:219 | `includes(k)` holds exactly when `k` occurs at some position |
| Text.ContainsTransitive | app/components/Projects.tsx:219-223 | a text holding `k` holds every infix of `k` |
| Text.ContainsMapped | app/components/Projects.tsx:277-282 | a per-character rewrite of a text holds the rewrite of each of its infixes |
| Text.ContainsNeedsChar | app/components/Projects.tsx:219-223 | a text lacking a character of `k` does not hold `k` |
| Text.ContainsSelf | app/components/Projects.tsx:219-223 | every text holds itself |
| Text.BeforeFirst | app/components/Projects.tsx:167 | `split(p)[0]`: the longest prefix before the first occurrence of `p`, the whole text when there is none |
| Text.BeforeFirstHasNoOccurrence | app/components/Projects.tsx:167 | the piece before the first `p` holds no `p` |
| Text.TrimStart | app/api/contact/route.ts:61 | removes exactly the leading white space |
| Text.TrimEnd | app/api/contact/route.ts:61 | removes exactly the trailing white space |
| Text.Trim | app/api/contact/route.ts:61 | `trim()` as TrimStart then TrimEnd; TrimShape and TrimEmptyIffBlank state what it keeps |
| Text.TrimEmptyIffBlank | app/api/contact/route.ts:61 | `trim()` is empty exactly when the text is all white space |
| Text.TrimShape | app/api/contact/route.ts:78-81 | the trimmed text is an infix of the text and neither starts nor ends with white space |
| Text.TrimNoSpace | app/api/contact/route.ts:78-81 | a text without white space is its own trim |
| Text.IndexOfChar | app/api/contact/route.ts:68 | the first position of a character in a text that holds it |
| Text.Split | app/components/Projects.tsx:119 | `split(sep)` yields at least one piece |
| Text.SplitPieces | app/components/Projects.tsx:119 | no piece of `split(sep)` holds the separator |
| Text.SplitLast | app/components/Projects.tsx:119 | the last piece of `split(sep)` is the last piece of the text after the first separator |
| Text.SplitJoin | app/components/Projects.tsx:165 | joining the pieces of `split(sep)` with `sep` gives the text back |
| Text.JoinCons | app/components/Projects.tsx:165 | joining a piece in front of a non-empty list adds the piece and one separator |
| Text.ReplaceAll | app/api/contact/route.ts:39 | `replace(/c/g, rep)` with a replacement free of `c` leaves no `c`; ReplaceAllAppend and ReplaceAllOne state where each replacement goes |
| Text.ReplaceAllAppend | app/api/contact/route.ts:39 | replacing in a concatenation is replacing in each part, so every `c` becomes `rep` in its own place |
| Text.ReplaceAllOne | app/api/contact/route.ts:39 | a single `c` becomes `rep` and any other single character is kept |
| Text.ReplaceAllLength | app/api/contact/route.ts:39 | each occurrence of `c` grows the text by the replacement's length minus one |
| Text.ReplaceAllAbsent | app/api/contact/route.ts:39 | a text without `c` is unchanged |
| Text.NoDuplicatesAppend | app/components/Projects.tsx:188 | the halves of a duplicate-free list are duplicate-free and share nothing |
| Text.NoDuplicatesConcat | app/components/Projects.tsx:188 | two duplicate-free lists that share nothing concatenate to a duplicate-free list |
| Text.AddFacts | app/components/Projects.tsx:228-265 | `Set.add` keeps earlier elements in order, adds exactly `x`, and never makes a repeat |
| Text.Dedup | app/components/Projects.tsx:188 | `[...new Set(xs)]` has no repeats, the same elements as `xs`, and no more entries |
| Text.DedupSnoc | app/components/Projects.tsx:188 | deduplicating one more element is a `Set.add` of it |
| Text.DedupPrefix | app/components/Projects.tsx:188 | first occurrences keep their order |
| Text.DedupIdentity | app/components/Projects.tsx:188 | a duplicate-free list is its own deduplication |
| Text.Compact | app/components/Projects.tsx:271 | `filter(Boolean)` on strings keeps exactly the non-empty ones |
| Text.CompactAppend | app/components/Projects.tsx:292 | filtering a concatenation filters each part |
| Text.CompactIdentity | app/components/Projects.tsx:292 | a list without empty strings passes unchanged |
| Text.DigitChar | app/components/CompetitiveProgramming.tsx:277 | a digit's character is a decimal digit |
| Text.NatToString | app/components/CompetitiveProgramming.tsx:277 | a number's decimal text is non-empty, all digits, with no leading zero |
| Text.IntToString | app/components/CompetitiveProgramming.tsx:302 | an integer's decimal text is non-empty and starts with `-` exactly for a negative integer |
| Text.IntToStringRoundTrip | app/components/CompetitiveProgramming.tsx:302 | after the sign, the text is all digits and reads back as the integer's magnitude |
| Text.NatToStringRoundTrip | app/components/CompetitiveProgramming.tsx:277 | reading the decimal text back gives the number |
| Text.CapitalizeFrom | app/components/Projects.tsx:269 | the `\b\w` upper-casing keeps the length |
| Text.CapitalizeWords | app/components/Projects.tsx:269 | the `\b\w` upper-casing keeps the length |
| Text.CapitalizeFromAt | app/components/Projects.tsx:269 | a character is upper-cased exactly when it is `\w` and the character before it is not |
| Text.CapitalizeWordsAt | app/components/Projects.tsx:269 | the character at a word start is upper-cased; every other character is kept |
| Text.CapitalizeWordsLower | app/components/Projects.tsx:277-282 | lower-casing the capitalised text equals lower-casing the text |
| TechDetect.Blobs | app/components/Projects.tsx:111 | an entry is kept exactly when it is in the tree and its type is `blob` |
| TechDetect.Extension | app/components/Projects.tsx:119 | `split('.').pop()` contains no dot |
| TechDetect.ExtensionAfterDot | app/components/Projects.tsx:119 | only the text after the last dot matters |
| TechDetect.ExtensionNoDot | app/components/Projects.tsx:119 | a path without a dot is its own extension |
| TechDetect.ExtensionIsLastPiece | app/components/Projects.tsx:119 | the extension is the last piece of `split('.')` |
| TechDetect.ExtensionsOf | app/components/Projects.tsx:117-120 | the extension set of the tree loop; ExtensionsOfMember states its members |
| TechDetect.ExtensionsOfMember | app/components/Projects.tsx:117-120 | an extension is collected exactly when it is non-empty and is some file's lower-cased extension |
| TechDetect.KeyFilesOf | app/components/Projects.tsx:122-126 | the key-file list of the tree loop; KeyFilesOfMember states its members |
| TechDetect.KeyFilesOfMember | app/components/Projects.tsx:123-125 | a manifest is a key file exactly when some file's lower-cased path is that name, so only at the root |
| TechDetect.Pushed | app/components/Projects.tsx:131-138 | the pushed tags come from the table |
| TechDetect.PushedMember | app/components/Projects.tsx:131-138 | a tag of a duplicate-free table is pushed exactly when its condition holds |
| TechDetect.Labels | app/components/Projects.tsx:131-183 | one label per table row |
| TechDetect.TablesDistinct | app/components/Projects.tsx:131-183 | the four tables together push no label twice |
| TechDetect.LabelsListed | app/components/Projects.tsx:131-183 | the label columns of the four tables, in row order |
| TechDetect.TablesEachDistinct | app/components/Projects.tsx:131-183 | no table lists a label twice |
| TechDetect.LanguageLabelsApart | app/components/Projects.tsx:131-183 | no language label appears in the framework, Python or build-file table |
| TechDetect.ManifestLabelsApart | app/components/Projects.tsx:146-183 | the framework, Python and build-file tables share no label |
| TechDetect.FamiliesDisjoint | app/components/Projects.tsx:131-183 | each table is duplicate-free and no two tables share a label |
| TechDetect.LanguageTags | app/components/Projects.tsx:131-138 | language tags are extension-table labels |
| TechDetect.Deps | app/components/Projects.tsx:146 | the merged dependency map; DevDependencyWins states which entry wins |
| TechDetect.DevDependencyWins | app/components/Projects.tsx:146 | in `{...dependencies, ...devDependencies}` a dev entry overrides a plain one |
| TechDetect.ManifestTags | app/components/Projects.tsx:148-154 | framework tags are dependency-table labels |
| TechDetect.PackageName | app/components/Projects.tsx:167 | the package part of a requirement line; PackageNameClean states its shape |
| TechDetect.PackageNameClean | app/components/Projects.tsx:167 | the package name is a prefix of the line with no `==`, `>` or `<` |
| TechDetect.LineTags | app/components/Projects.tsx:168-170 | a line's tags are requirement-table labels |
| TechDetect.RequirementLines | app/components/Projects.tsx:165 | a line is kept exactly when it is non-empty and does not start with `#` |
| TechDetect.TagsOfLines | app/components/Projects.tsx:166-172 | the tags of the lines are requirement-table labels |
| TechDetect.TagsOfLinesMember | app/components/Projects.tsx:166-172 | a tag is pushed exactly when some line pushes it |
| TechDetect.RequirementsTags | app/components/Projects.tsx:164-172 | the tags of `requirements.txt` are requirement-table labels |
| TechDetect.PomTags | app/components/Projects.tsx:182-183 | the tags of `pom.xml` are pom-table labels |
| TechDetect.Detect | app/components/Projects.tsx:104-193 | the result has no duplicates, and a tree reply that is not ok or throws gives `[]` |
| TechDetect.ScanTree | app/components/Projects.tsx:117-128 | the `forEach` loop collects exactly the extension set and the key-file list |
| TechDetect.VisitFile | app/components/Projects.tsx:118-125 | one `forEach` step extends the extension set and the key-file list by exactly that file's contribution |
| TechDetect.ScanRequirements | app/components/Projects.tsx:165-172 | the per-line loop pushes exactly the requirement tags of the content |
| TechDetect.DetectTechnologies | app/components/Projects.tsx:104-193 | the whole imperative detection returns the specified tag list |
| TechDetect.ManifestThrowGivesNothing | app/components/Projects.tsx:189-191 | a manifest fetch that throws makes the whole detection return `[]` |
| TechDetect.RawTags | app/components/Projects.tsx:131-183 | the pushed tags in push order, each manifest consulted only when it is a key file; DetectRaw states membership |
| TechDetect.DetectRaw | app/components/Projects.tsx:131-188 | a tag is detected exactly when the languages or one of the three manifests give it |
| TechDetect.DetectMember | app/components/Projects.tsx:131-188 | each tag family is decided by its own source alone |
| TechDetect.BlobsExtension | app/components/Projects.tsx:111-120 | an extension set meets the collected extensions exactly when some blob has one of them |
| TechDetect.LanguageTagsMember | app/components/Projects.tsx:131-138 | a language tag is pushed exactly when one of its extensions was seen |
| TechDetect.ManifestTagsMember | app/components/Projects.tsx:148-154 | a framework tag is pushed exactly when one of its keys is a truthy dependency |
| TechDetect.LineTagsMember | app/components/Projects.tsx:168-170 | a line pushes a tag exactly when its lower-cased package name holds one of the tag's substrings |
| TechDetect.PomTagsMember | app/components/Projects.tsx:182-183 | Spring Boot and Maven are pushed exactly when their XML markers occur |
| TechDetect.LanguageTagExact | app/components/Projects.tsx:131-138 | a language is detected exactly when some blob in the tree has one of its extensions |
| TechDetect.ExtensionKeysNonEmpty | app/components/Projects.tsx:131-138 | no extension key is empty |
| TechDetect.RootFileKey | app/components/Projects.tsx:123-125 | a manifest is a key file exactly when a root blob has its name |
| TechDetect.FrameworkTagExact | app/components/Projects.tsx:141-157 | with a root `package.json`, a framework is detected exactly when one of its keys is a truthy dependency |
| TechDetect.FrameworkKeyDetected | app/components/Projects.tsx:146-154 | one truthy dependency key of a row is enough for that row's framework tag |
| TechDetect.ReactNextRows | app/components/Projects.tsx:148-149 | the first two framework rows are React, keyed by `react`, and Next.js, keyed by `next` |
| TechDetect.ReactAndNextDetected | app/components/Projects.tsx:148-149 | truthy `react` and `next` dependencies yield both React and Next.js |
| TechDetect.RequirementTagExact | app/components/Projects.tsx:160-174 | with a root `requirements.txt`, a Python tag is detected exactly when some kept line's package matches it |
| TechDetect.PomTagExact | app/components/Projects.tsx:177-186 | with a root `pom.xml`, Spring Boot and Maven are detected exactly when their markers occur |
| TechDetect.NestedManifestIgnored | app/components/Projects.tsx:123-125 | without a root `package.json` the manifest reply does not matter |
| Projects.Title | app/components/Projects.tsx:269 | the displayed title; TitleShape and TitleLower state its characters |
| Projects.TitleShape | app/components/Projects.tsx:269 | the title keeps the name's length and has no `-` or `_`; a character is upper-cased exactly at a word start of the spaced name |
| Projects.TitleLower | app/components/Projects.tsx:269 | the lower-cased title is the lower-cased name with separators made spaces |
| Projects.MapSepIdentity | app/components/Projects.tsx:269 | a keyword without separators is unchanged by the separator rewrite |
| Projects.KeywordSurvivesTitle | app/components/Projects.tsx:277-282 | a separator-free keyword in the lower-cased name is still in the lower-cased title |
| Projects.MentalHealthSurvivesTitle | app/components/Projects.tsx:269-281 | a name holding the awareness keyword has "mental health" in its title |
| Projects.MentalHealthPrefix | app/components/Projects.tsx:223 | the awareness keyword holds `mental-health` |
| Projects.MentalHealthSpaced | app/components/Projects.tsx:281 | `mental-health` with separators spaced is `mental health` |
| Projects.ImageFor | app/components/Projects.tsx:216-225 | the screenshot of the first keyword found, or none; ImageImpliesAllowed relates it to the allow-list |
| Projects.Allowed | app/components/Projects.tsx:277-282 | the allow-list test on the lower-cased title; ImageImpliesAllowed and AllowedWithoutImage use it |
| Projects.ImageImpliesAllowed | app/components/Projects.tsx:216-282 | every repository that gets a screenshot passes the allow-list |
| Projects.AllowedWithoutImage | app/components/Projects.tsx:216-282 | the converse fails: `mental_health` passes the allow-list but gets no screenshot |
| Projects.UnderscoreNameNoImage | app/components/Projects.tsx:219-223 | `mental_health` holds none of the screenshot keywords |
| Projects.UnderscoreNameAllowed | app/components/Projects.tsx:281 | the title of `mental_health` holds "mental health" |
| Projects.UnderscoreNameFacts | app/components/Projects.tsx:269 | `mental_health` is lower case, spaces to `mental health`, and lacks `q`, `k` and `-` |
| Projects.CuesOf | app/components/Projects.tsx:230-265 | the eight `if` conditions on the lower-cased name and description |
| Projects.TagsOf | app/components/Projects.tsx:228-265 | the extra tags in insertion order; TagsOfMember and TagsOfDistinct state them |
| Projects.AddIfMember | app/components/Projects.tsx:228-265 | a conditional `add` adds its tag exactly when the condition holds |
| Projects.AddIfDistinct | app/components/Projects.tsx:228 | a conditional `add` keeps the set free of repeats |
| Projects.CollectAdditionalTags | app/components/Projects.tsx:228-265 | the imperative sequence of `add` calls builds the specified tag set |
| Projects.AddWhen | app/components/Projects.tsx:228-265 | one guarded `add`: the tag is appended exactly when the condition holds and the tag is new |
| Projects.TagsOfMember | app/components/Projects.tsx:228-265 | a tag is present exactly when the condition of one of its `if`s holds |
| Projects.EarlyTagsMember | app/components/Projects.tsx:230-251 | the five keyword rules add exactly the tags whose condition holds |
| Projects.LateTagsMember | app/components/Projects.tsx:253-265 | the three named-project rules add exactly the tags whose condition holds, keeping earlier tags |
| Projects.TagsOfDistinct | app/components/Projects.tsx:228 | the extra tags have no repeats, "Mental Health" included |
| Projects.Shape | app/components/Projects.tsx:214-273 | one shaped record; ShapeKeepsTitle and BasicTechnologiesOrder state its fields |
| Projects.ShapeAll | app/components/Projects.tsx:214-274 | one shaped repository per input, in order |
| Projects.KeepAllowed | app/components/Projects.tsx:277-282 | a shaped repository is kept exactly when its title passes the allow-list |
| Projects.Card | app/components/Projects.tsx:288-298 | one card; CardFields states each field |
| Projects.CardsOf | app/components/Projects.tsx:285-300 | `Promise.all` over the kept repositories gives one card each |
| Projects.Showcased | app/components/Projects.tsx:212-282 | a repository is showcased exactly when it is no fork and its title passes the allow-list |
| Projects.AllowedOnly | app/components/Projects.tsx:277-282 | a repository is kept exactly when its title passes the allow-list |
| Projects.MapRepos | app/components/Projects.tsx:214 | a map gives one result per repository, in order |
| Projects.KeepAllowedMap | app/components/Projects.tsx:214-282 | filtering after a title-keeping map equals mapping after the filter |
| Projects.ShapeKeepsTitle | app/components/Projects.tsx:269 | the shaped title is the title of the name |
| Projects.KeepAllowedShapeAll | app/components/Projects.tsx:214-282 | shaping then filtering equals filtering then shaping |
| Projects.ShapeAllIsMap | app/components/Projects.tsx:214 | shaping all is a plain map |
| Projects.FiltersCompose | app/components/Projects.tsx:213-282 | the fork filter followed by the allow-list gives the showcased repositories |
| Projects.Cards | app/components/Projects.tsx:212-300 | the pipeline from the repository list to the cards; CardsAreShowcased and CardsSource state it |
| Projects.CardsAreShowcased | app/components/Projects.tsx:212-300 | the cards are exactly the showcased repositories, in order, each with its own detected tags |
| Projects.CardsSource | app/components/Projects.tsx:212-300 | every card comes from a non-fork allowed repository |
| Projects.BasicTechnologies | app/components/Projects.tsx:271 | the base tags; BasicTechnologiesOrder states their order |
| Projects.BasicTechnologiesOrder | app/components/Projects.tsx:271 | base tags are a truthy language, then the non-empty topics, then the extra tags |
| Projects.CardFields | app/components/Projects.tsx:267-298 | the card copies id, link and counts, applies the `\|\|` defaults, and lists base tags then non-empty detected tags |
| Projects.CardTechnologiesMayRepeat | app/components/Projects.tsx:292 | an AlgoQuest repository whose code is detected as JavaScript lists JavaScript twice |
| Projects.LoadCards | app/components/Projects.tsx:204-305 | the cards for a list reply, or the failure; FetchProjects states the state it leads to |
| Projects.ProjectsSection.constructor | app/components/Projects.tsx:196-198 | no cards, loading, no error |
| Projects.ProjectsSection.FetchProjects | app/components/Projects.tsx:201-313 | loading ends; a non-empty list gives the cards, and anything else clears them and sets the error text |
| GithubUtils.GetGithubRepos | app/utils/github.ts:16-36 | a successful list reply gives its non-forks; a failure or a non-list gives `[]`; no fork is returned |
| GithubUtils.FormatRepoData | app/utils/github.ts:38-50 | one record per repository, in order |
| GithubUtils.GithubTitle | app/utils/github.ts:41 | the title with only `-` spaced; GithubTitleShape states its characters |
| GithubUtils.GithubTitleShape | app/utils/github.ts:41 | the title keeps the length and has no `-`; a character is upper-cased exactly at a word start |
| GithubUtils.UnderscoreDoesNotSplitWords | app/utils/github.ts:41 | `_` stays, and the character after it is not capitalised |
| GithubUtils.TitlesDifferOnUnderscore | app/utils/github.ts:41 | a name with `_` gets a different title than on the project cards |
| GithubUtils.GithubImage | app/utils/github.ts:48 | the screenshot path; GithubImageShape states its form |
| GithubUtils.GithubImageShape | app/utils/github.ts:48 | the path is `/projects/`, the lower-cased name with `_` as `-`, then `.png` |
| GithubUtils.GithubTechnologies | app/utils/github.ts:43 | the language and topics, falsy entries removed; GithubTechnologiesOrder states their order |
| GithubUtils.GithubTechnologiesOrder | app/utils/github.ts:43 | a truthy language, then the non-empty topics, and no empty entry |
| GithubUtils.Format | app/utils/github.ts:39-49 | the record for one repository; FormatFields states each field |
| GithubUtils.FormatFields | app/utils/github.ts:39-49 | the record copies id, link and counts and applies the two `\|\|` defaults |
| GithubUtils.FormatRepoDataAppend | app/utils/github.ts:38-50 | formatting a concatenation formats each part |
| ContactApi.Check | app/api/contact/route.ts:61 | a chain step passes exactly when its field is non-blank and the rest passes, and throws on a non-string |
| ContactApi.CheckPresent | app/api/contact/route.ts:61 | validation passes exactly when all four fields are strings that trim to non-empty |
| ContactApi.ValidEmail | app/api/contact/route.ts:68-69 | the email test, computed; ValidEmailIff ties it to the regular expression |
| ContactApi.ValidEmailIff | app/api/contact/route.ts:68 | the computed check accepts exactly the texts the regular expression matches |
| ContactApi.UntrimmedEmailRejected | app/api/contact/route.ts:68-74 | an email with leading or trailing white space is rejected |
| ContactApi.Configured | app/api/contact/route.ts:6-9 | a transporter exists exactly when user and password are truthy; MissingConfigGives500 and PostDelivers use it |
| ContactApi.MailOptionsFor | app/api/contact/route.ts:23-41 | the sender, the recipient with its fallback, the reply-to and the subject with its fallback |
| ContactApi.MessageText | app/api/contact/route.ts:28-33 | the plain-text body of the mail |
| ContactApi.MessageHtml | app/api/contact/route.ts:34-40 | the HTML body; MessageHtmlBreaks and MessageBreakInPlace state how the message is rewritten |
| ContactApi.MessageHtmlBreaks | app/api/contact/route.ts:39 | the HTML message has no line break, and each break adds three characters |
| ContactApi.MessageBreakInPlace | app/api/contact/route.ts:39 | a break-free text is kept, and each line break becomes `<br>` between the rewritten text on each side |
| ContactApi.Post | app/api/contact/route.ts:54-99 | the handler's outcome; PostStatus, PostDelivers and the 400 and 500 lemmas below state it |
| ContactApi.PostStatus | app/api/contact/route.ts:54-99 | the status is 200, 400 or 500; success exactly on 200; 200 carries the sent text and 500 the failure text |
| ContactApi.PostDelivers | app/api/contact/route.ts:54-99 | mail is attempted exactly when deliverable; 200 exactly when deliverable and sent |
| ContactApi.MissingFieldGives400 | app/api/contact/route.ts:61-66 | a missing or blank field gives 400 with the required-fields error and no mail |
| ContactApi.InvalidEmailGives400 | app/api/contact/route.ts:68-74 | present fields with a bad email give 400 with the email error and no mail |
| ContactApi.MissingConfigGives500 | app/api/contact/route.ts:6-9 | four present fields and a valid email meet a missing user or password: exactly the 500 failure response and no mail |
| ContactApi.SendFailureGives500 | app/api/contact/route.ts:89-98 | a deliverable request whose send fails: the 500 failure response, after a mail was attempted |
| ContactApi.UnparseableGives500 | app/api/contact/route.ts:57 | a body that is not JSON or is `null`: the 500 failure response and no mail |
| ContactApi.NonStringGives500 | app/api/contact/route.ts:61 | a non-string field reached by the `\|\|` chain: the 500 failure response and no mail |
| ContactApi.SentMailUsesTrimmedFields | app/api/contact/route.ts:77-82 | attempted mail uses the trimmed fields, so its subject is never the fallback |
| ContactForm.Set | app/components/Contact.tsx:28 | the named field gets the value and the others are unchanged |
| ContactForm.ReplyError | app/components/Contact.tsx:57 | the reply's error when truthy, otherwise the default text |
| ContactForm.SetGet | app/components/Contact.tsx:28 | reading a field after a change gives the new value for that field and the old value for the others |
| ContactForm.SetSame | app/components/Contact.tsx:28 | writing back a field's value changes nothing |
| ContactForm.Contact.constructor | app/components/Contact.tsx:17-24 | an empty form, idle, no error |
| ContactForm.Contact.HandleChange | app/components/Contact.tsx:26-29 | only the named field changes |
| ContactForm.Contact.BeginSubmit | app/components/Contact.tsx:33-34 | loading, and the error is cleared |
| ContactForm.Contact.ReceiveReply | app/components/Contact.tsx:47-58 | success empties the form; failure keeps it and shows the reply's error or the default |
| ContactForm.Contact.ReceiveException | app/components/Contact.tsx:59-62 | error status with the network text, and the form is kept |
| ContactForm.Contact.HandleSubmit | app/components/Contact.tsx:31-63 | the final state for a success, a failure reply and an exception |
| ContactForm.Contact.ButtonDisabled | app/components/Contact.tsx:362 | the button is disabled exactly while loading |
| ContactForm.Contact.ButtonLabel | app/components/Contact.tsx:366 | "Sending..." exactly while loading, "Send Message" otherwise |
| ContactForm.Contact.ErrorBanner | app/components/Contact.tsx:384-393 | the banner is shown exactly in the error state, and shows `errorMessage` |
| ContactForm.Contact.SuccessBannerShown | app/components/Contact.tsx:373 | the success banner is shown exactly in the success state |
| ContactForm.FormAgainstEndpoint | app/components/Contact.tsx:45-58 | the form succeeds exactly when the endpoint delivers and the mail is sent; otherwise it shows one of the endpoint's three errors |
| ContactForm.BlankFieldRefused | app/components/Contact.tsx:42-58 | a form with a blank field is refused with the required-fields error |
| Competitive.InitialPlatforms | app/components/CompetitiveProgramming.tsx:243-268 | LeetCode, CodeForces and CodeChef, all loading |
| Competitive.Names | app/components/CompetitiveProgramming.tsx:281 | the platform names, in order |
| Competitive.UpdateByName | app/components/CompetitiveProgramming.tsx:281 | (the same update is made at lines 330 and 345) the platform of that name gets the stats with loading off; every other platform is unchanged |
| Competitive.Sweep | app/components/CompetitiveProgramming.tsx:351-358 | every platform stops loading and gets the error, keeping its other stats |
| Competitive.UpdateByNameKeeps | app/components/CompetitiveProgramming.tsx:281 | names and order are kept; other platforms are unchanged; the updated one has the new stats and keeps its links |
| Competitive.UpdateAbsentName | app/components/CompetitiveProgramming.tsx:281 | an update for a name not in the list changes nothing |
| Competitive.SweepKeeps | app/components/CompetitiveProgramming.tsx:351-358 | after the sweep nothing is loading and every platform shows the error |
| Competitive.SweepIdempotent | app/components/CompetitiveProgramming.tsx:351-358 | sweeping twice is sweeping once |
| Competitive.LeetCodeStats | app/components/CompetitiveProgramming.tsx:275-280 | solved and rank with their falsy fallbacks, plus the two fixed badges |
| Competitive.AcceptedCount | app/components/CompetitiveProgramming.tsx:300 | the number of accepted submissions is at most the number of submissions |
| Competitive.Key | app/components/CompetitiveProgramming.tsx:301 | a problem's key, its contest number then its index |
| Competitive.SolvedKeys | app/components/CompetitiveProgramming.tsx:298-304 | the accepted keys collected into a set; SolvedKeysMember states its members |
| Competitive.SolvedKeysMember | app/components/CompetitiveProgramming.tsx:298-304 | a problem key is collected exactly when some accepted submission has it |
| Competitive.SolvedKeyWitness | app/components/CompetitiveProgramming.tsx:298-304 | a collected key names an accepted submission |
| Competitive.AcceptedKeySolved | app/components/CompetitiveProgramming.tsx:298-304 | every accepted submission's key is collected |
| Competitive.SolvedAtMostAccepted | app/components/CompetitiveProgramming.tsx:298-305 | the distinct solved count is at most the accepted count |
| Competitive.ResubmissionNotCounted | app/components/CompetitiveProgramming.tsx:298-305 | a second accepted submission of a solved problem adds nothing |
| Competitive.CountSolved | app/components/CompetitiveProgramming.tsx:298-305 | the loop counts the distinct keys of accepted submissions |
| Competitive.SolvedCount | app/components/CompetitiveProgramming.tsx:293-309 | the distinct count on success, and 0 when the request fails or throws |
| Competitive.ContestCount | app/components/CompetitiveProgramming.tsx:312-321 | the history length on success, and 0 when the request fails or throws |
| Competitive.CodeforcesStats | app/components/CompetitiveProgramming.tsx:323-329 | the user's rating and rank, the two counts, no badges |
| Competitive.CodeChefStats | app/components/CompetitiveProgramming.tsx:339-344 | rating and rank with their `N/A` fallbacks, and a badge only for a truthy rating |
| Competitive.TruthyRating | app/components/CompetitiveProgramming.tsx:342 | a numeric rating is truthy unless zero, a text unless empty |
| Competitive.FalsyRatingNoBadge | app/components/CompetitiveProgramming.tsx:342 | no rating, the number 0 or an empty text gives no badge |
| Competitive.CompetitiveSection.constructor | app/components/CompetitiveProgramming.tsx:234 | no platforms |
| Competitive.CompetitiveSection.FetchPlatformData | app/components/CompetitiveProgramming.tsx:237-359 | the final platform list of the effect |
| Competitive.CodeforcesStep | app/components/CompetitiveProgramming.tsx:286-332 | the list after the Codeforces step, or the throw; EmptyCodeforcesStaysLoading and CodeforcesSolvedBound state it |
| Competitive.FetchOutcome | app/components/CompetitiveProgramming.tsx:237-360 | the final platform list; FetchKeepsNames, FailureSweepsAll and the lemmas after it state it |
| Competitive.FetchKeepsNames | app/components/CompetitiveProgramming.tsx:237-359 | the result always has the three platforms, in order |
| Competitive.FailureSweepsAll | app/components/CompetitiveProgramming.tsx:347-358 | any failure that throws leaves every platform stopped with the error |
| Competitive.LeetCodeFailureIgnoresRest | app/components/CompetitiveProgramming.tsx:273-284 | a LeetCode failure decides the result on its own |
| Competitive.EmptyCodeforcesStaysLoading | app/components/CompetitiveProgramming.tsx:288-291 | a non-ok Codeforces info reply, or an empty user list, leaves that card loading and the other two finished |
| Competitive.CodeforcesSolvedBound | app/components/CompetitiveProgramming.tsx:293-305 | the Codeforces solved count never exceeds the accepted submissions |

## Left out

- Network I/O, `fetch`, `axios`, `response.json()`, `atob` and `JSON.parse` are left out. Each reply is an input `Fetched` value holding the decoded body; a decoding failure is `Threw`.
- The `docker` key file (`app/components/Projects.tsx:126`) is left out. It is pushed but never read, so it cannot change the result.
- The `detectTechnologies` username and repository name only form URLs. The model takes the replies instead.
- Promise.all is modelled as an ordered map. Concurrency and the order in which requests complete are not modelled.
- `getGithubProfile` (`app/utils/github.ts:52-62`) is left out, because it passes a network reply through unchanged.
- The `GITHUB_TOKEN` header and the `sort` parameter of `getGithubRepos` are left out, because they only shape the request.
- `toLowerCase`, `toUpperCase` and `\w` cover ASCII letters only. Unicode case mapping is not modelled.
- Nodemailer's `createTransport` and `sendMail`, and the `EMAIL_SERVICE` setting, are left out. The send outcome is the boolean `sent`.
- A request body whose fields are of another JSON type is modelled only through `Field.NonString`. A non-string field makes `.trim` throw, which leads to 500.
- `console.log` and `console.error` are left out.
- The React icons, animation, tabs and layout are left out.
- The never-set `streak` statistic is left out.
- Projects.CollectAdditionalTags: takes the eight evaluated `if` conditions (`Cues`) rather than the name and description. `Projects.CuesOf` computes those conditions from the name and description.
- Competitive.Key: concatenates the contest id and index as written. A missing contest id, which JavaScript would render as `undefined`, is not modelled.
- Competitive.CodeforcesStats: `user.rating` is modelled as a number or absent. Other JSON types are not modelled.
- Competitive.LeetCodeStats: `totalSolved` and `ranking` are modelled as integers or absent (`null` and a missing property alike). A string, a fractional number or another JSON type in those properties is not modelled.
- Competitive.CodeChefStats: `rating_number` and `global_rank` are modelled as integers or absent, and `rating` as an integer, a text or absent. A fractional number or another JSON type in those properties is not modelled.
- ContactForm.Contact.HandleSubmit: `e.preventDefault()` has no state effect and is left out. The decoded reply is reduced to the truth of `success` and the value of `error`.
