/**
 * `detectTechnologies` of app/components/Projects.tsx: guesses the
 * technology tags of one repository from its file tree and, when they are
 * present at the root, from its package manifest, Python requirements file
 * and Maven build file.
 *
 * Every network call is an input (`Fetched`). The manifest arrives already
 * base64-decoded and JSON-parsed (its two dependency maps); the
 * requirements file and build file arrive as decoded text. An exception
 * anywhere (including while decoding or parsing a manifest) is caught by
 * the routine's one `catch`, which returns no tags at all.
 */
module TechDetect {
  import opened Wrappers
  import opened Text

  /** One entry of the recursive git tree; `kind` is its `type` ("blob", "tree", "commit"). */
  datatype TreeEntry = TreeEntry(path: string, kind: string)

  /** A value of a dependency map as JSON gives it. */
  datatype DepValue = Str(s: string) | Num(n: int) | Bool(b: bool) | Null | Composite

  /** The parsed package manifest: `dependencies` and `devDependencies`, empty when absent. */
  datatype Manifest = Manifest(dependencies: map<string, DepValue>, devDependencies: map<string, DepValue>)

  predicate Truthy(v: DepValue) {
    match v
    case Str(s) => s != []
    case Num(n) => n != 0
    case Bool(b) => b
    case Null => false
    case Composite => true
  }

  /* ---------- the file tree ---------- */

  /** `tree.filter(item => item.type === 'blob')`. */
  function Blobs(tree: seq<TreeEntry>): (r: seq<TreeEntry>)
    ensures forall f :: f in r <==> f in tree && f.kind == "blob"
  {
    if tree == [] then []
    else (if tree[0].kind == "blob" then [tree[0]] else []) + Blobs(tree[1..])
  }

  /** `path.split('.').pop()`: the text after the last `.`, or the whole path when it has none. */
  function Extension(path: string): (r: string)
    ensures '.' !in r
  {
    if path == [] then []
    else if path[|path| - 1] == '.' then []
    else Extension(path[..|path| - 1]) + [path[|path| - 1]]
  }

  lemma {:induction false} ExtensionAfterDot(x: string, y: string)
    ensures Extension(x + ['.'] + y) == Extension(y)
  {
    if y != [] {
      var s := x + ['.'] + y;
      assert s[..|s| - 1] == x + ['.'] + y[..|y| - 1];
      ExtensionAfterDot(x, y[..|y| - 1]);
    } else {
      assert (x + ['.'] + y)[|x + ['.'] + y| - 1] == '.';
    }
  }

  lemma {:induction false} ExtensionNoDot(p: string)
    requires '.' !in p
    ensures Extension(p) == p
  {
    if p != [] {
      var init := p[..|p| - 1];
      assert '.' !in init;
      ExtensionNoDot(init);
      assert p == init + [p[|p| - 1]];
    }
  }

  /** `Extension` is the last piece of splitting the path at every `.`, as `split('.').pop()` takes it. */
  lemma {:induction false} ExtensionIsLastPiece(p: string)
    ensures Extension(p) == Last(Split(p, '.'))
    decreases |p|
  {
    if '.' in p {
      var i := IndexOfChar(p, '.');
      var rest := p[i + 1..];
      ExtensionIsLastPiece(rest);
      assert p[..i] + ['.'] + rest == p;
      ExtensionAfterDot(p[..i], rest);
      assert Extension(p) == Extension(rest);
      SplitLast(p, '.', i);
    } else {
      ExtensionNoDot(p);
      assert Split(p, '.') == [p];
    }
  }

  /** The extension set built by the tree loop: every non-empty extension of a lower-cased path. */
  function ExtensionsOf(files: seq<TreeEntry>): set<string>
  {
    if files == [] then {}
    else
      var e := Extension(ToLower(files[|files| - 1].path));
      ExtensionsOf(files[..|files| - 1]) + (if e != [] then {e} else {})
  }

  lemma {:induction false} ExtensionsOfMember(files: seq<TreeEntry>, e: string)
    ensures e in ExtensionsOf(files) <==>
      e != [] && exists k :: 0 <= k < |files| && Extension(ToLower(files[k].path)) == e
  {
    if files != [] {
      var init := files[..|files| - 1];
      ExtensionsOfMember(init, e);
      if e in ExtensionsOf(init) {
        var k :| 0 <= k < |init| && Extension(ToLower(init[k].path)) == e;
        assert files[k] == init[k];
      }
      if e != [] && exists k :: 0 <= k < |files| && Extension(ToLower(files[k].path)) == e {
        var k :| 0 <= k < |files| && Extension(ToLower(files[k].path)) == e;
        if k < |init| {
          assert init[k] == files[k];
        }
      }
    }
  }

  /** The key-file list built by the tree loop (the Dockerfile entry, which is never read, is left out). */
  function KeyFilesOf(files: seq<TreeEntry>): seq<string>
  {
    if files == [] then []
    else
      var p := ToLower(files[|files| - 1].path);
      KeyFilesOf(files[..|files| - 1])
      + (if p == "package.json" then ["package.json"] else [])
      + (if p == "requirements.txt" then ["requirements.txt"] else [])
      + (if p == "pom.xml" then ["pom.xml"] else [])
  }

  /** A key file is recognised only by its whole lower-cased path, so only at the repository root. */
  lemma {:induction false} KeyFilesOfMember(files: seq<TreeEntry>, name: string)
    requires name in {"package.json", "requirements.txt", "pom.xml"}
    ensures name in KeyFilesOf(files) <==> exists k :: 0 <= k < |files| && ToLower(files[k].path) == name
  {
    if files != [] {
      var init := files[..|files| - 1];
      KeyFilesOfMember(init, name);
      if name in KeyFilesOf(init) {
        var k :| 0 <= k < |init| && ToLower(init[k].path) == name;
        assert files[k] == init[k];
      }
      if exists k :: 0 <= k < |files| && ToLower(files[k].path) == name {
        var k :| 0 <= k < |files| && ToLower(files[k].path) == name;
        if k < |init| {
          assert init[k] == files[k];
        }
      }
    }
  }

  /* ---------- the tag tables ---------- */

  /**
   * A run of `if (…) detectedTech.push(tag)` statements: tag `k` is pushed
   * when `hits[k]` holds, in order.
   */
  function Pushed(tags: seq<string>, hits: seq<bool>): (r: seq<string>)
    requires |hits| == |tags|
    ensures forall t :: t in r ==> t in tags
  {
    if tags == [] then []
    else (if hits[0] then [tags[0]] else []) + Pushed(tags[1..], hits[1..])
  }

  /** With distinct tags, a tag is pushed exactly when its condition holds. */
  lemma {:induction false} PushedMember(tags: seq<string>, hits: seq<bool>, k: nat)
    requires |hits| == |tags| && NoDuplicates(tags)
    requires k < |tags|
    ensures tags[k] in Pushed(tags, hits) <==> hits[k]
  {
    if k > 0 {
      PushedMember(tags[1..], hits[1..], k - 1);
      assert tags[1..][k - 1] == tags[k];
    } else {
      forall j | 0 <= j < |tags[1..]| ensures tags[1..][j] != tags[0] {
        assert tags[1..][j] == tags[j + 1];
      }
    }
  }

  /** A table row: the tag and the keys (extensions, dependency names, substrings, markers) that trigger it. */
  type Table = seq<(string, set<string>)>

  /** Lines 131-138: the extension table. */
  const ExtensionTable: Table := [
    ("JavaScript", {"js", "jsx"}), ("TypeScript", {"ts", "tsx"}), ("Python", {"py"}), ("Java", {"java"}),
    ("C++", {"cpp", "c"}), ("HTML", {"html"}), ("CSS", {"css"}), ("SQL", {"sql"})]

  /** Lines 148-154: the dependency table of the package manifest. */
  const DependencyTable: Table := [
    ("React", {"react"}), ("Next.js", {"next"}), ("Angular", {"@angular/core"}), ("Express.js", {"express"}),
    ("React Native", {"react-native"}), ("TensorFlow", {"tensorflow", "@tensorflow/tfjs"}),
    ("PyTorch", {"pytorch", "torch"})]

  /** Lines 168-170: the package-name substrings of the requirements file. */
  const RequirementTable: Table := [
    ("Web Framework (Python)", {"flask", "django"}), ("Data Science", {"numpy", "pandas"}),
    ("Machine Learning", {"scikit-learn", "tensorflow"})]

  const SpringMarker := "<groupId>org.springframework</groupId>"
  const SurefireMarker := "<artifactId>maven-surefire-plugin</artifactId>"

  /** Lines 182-183: the raw-text markers of the build file. */
  const PomTable: Table := [("Spring Boot", {SpringMarker}), ("Maven", {SurefireMarker})]

  function Labels(table: Table): (r: seq<string>)
    ensures |r| == |table|
  {
    seq(|table|, k requires 0 <= k < |table| => table[k].0)
  }

  /** The labels of each table, written out. */
  lemma LabelsListed()
    ensures Labels(ExtensionTable) == ["JavaScript", "TypeScript", "Python", "Java", "C++", "HTML", "CSS", "SQL"]
    ensures Labels(DependencyTable) == ["React", "Next.js", "Angular", "Express.js", "React Native", "TensorFlow", "PyTorch"]
    ensures Labels(RequirementTable) == ["Web Framework (Python)", "Data Science", "Machine Learning"]
    ensures Labels(PomTable) == ["Spring Boot", "Maven"]
  {
  }

  /** Each table's tags are distinct. */
  lemma TablesEachDistinct()
    ensures NoDuplicates(Labels(ExtensionTable)) && NoDuplicates(Labels(DependencyTable))
    ensures NoDuplicates(Labels(RequirementTable)) && NoDuplicates(Labels(PomTable))
  {
    LabelsListed();
  }

  /** No language tag is the tag of another table. */
  lemma LanguageLabelsApart()
    ensures forall t :: t in Labels(ExtensionTable) ==>
      t !in Labels(DependencyTable) && t !in Labels(RequirementTable) && t !in Labels(PomTable)
  {
    LabelsListed();
  }

  /** No framework tag is a Python or build-file tag, and no Python tag is a build-file tag. */
  lemma ManifestLabelsApart()
    ensures forall t :: t in Labels(DependencyTable) ==> t !in Labels(RequirementTable) && t !in Labels(PomTable)
    ensures forall t :: t in Labels(RequirementTable) ==> t !in Labels(PomTable)
  {
    LabelsListed();
  }

  /** Each table's tags are distinct, and no tag belongs to two tables. */
  lemma FamiliesDisjoint()
    ensures NoDuplicates(Labels(ExtensionTable)) && NoDuplicates(Labels(DependencyTable))
    ensures NoDuplicates(Labels(RequirementTable)) && NoDuplicates(Labels(PomTable))
    ensures forall t :: t in Labels(ExtensionTable) ==>
      t !in Labels(DependencyTable) && t !in Labels(RequirementTable) && t !in Labels(PomTable)
    ensures forall t :: t in Labels(DependencyTable) ==> t !in Labels(RequirementTable) && t !in Labels(PomTable)
    ensures forall t :: t in Labels(RequirementTable) ==> t !in Labels(PomTable)
  {
    TablesEachDistinct();
    LanguageLabelsApart();
    ManifestLabelsApart();
  }

  /** The twenty tags of the four tables are all different. */
  lemma TablesDistinct()
    ensures NoDuplicates(Labels(ExtensionTable) + Labels(DependencyTable) + Labels(RequirementTable) + Labels(PomTable))
  {
    var a, b, c, d := Labels(ExtensionTable), Labels(DependencyTable), Labels(RequirementTable), Labels(PomTable);
    FamiliesDisjoint();
    NoDuplicatesConcat(a, b);
    NoDuplicatesConcat(a + b, c);
    NoDuplicatesConcat(a + b + c, d);
  }

  /** The language tags of a set of seen extensions. */
  function LanguageTags(exts: set<string>): (r: seq<string>)
    ensures forall t :: t in r ==> t in Labels(ExtensionTable)
  {
    Pushed(Labels(ExtensionTable), seq(|ExtensionTable|, k requires 0 <= k < |ExtensionTable| =>
      ExtensionTable[k].1 * exts != {}))
  }

  /** `{ ...dependencies, ...devDependencies }`: a key of both takes its development value. */
  function Deps(m: Manifest): map<string, DepValue> {
    m.dependencies + m.devDependencies
  }

  /** `deps[key]` is truthy. */
  predicate HasDep(m: Manifest, key: string) {
    var deps := Deps(m);
    key in deps && Truthy(deps[key])
  }

  /** A dependency counts by its development entry when there is one, and otherwise by its plain entry. */
  lemma DevDependencyWins(m: Manifest, key: string)
    ensures HasDep(m, key) <==>
      if key in m.devDependencies then Truthy(m.devDependencies[key])
      else key in m.dependencies && Truthy(m.dependencies[key])
  {
  }

  /** The framework tags of a package manifest. */
  function ManifestTags(m: Manifest): (r: seq<string>)
    ensures forall t :: t in r ==> t in Labels(DependencyTable)
  {
    Pushed(Labels(DependencyTable), seq(|DependencyTable|, k requires 0 <= k < |DependencyTable| =>
      exists key :: key in DependencyTable[k].1 && HasDep(m, key)))
  }

  /** `line.split('==')[0].split('>')[0].split('<')[0]`. */
  function PackageName(line: string): string {
    BeforeFirst(BeforeFirst(BeforeFirst(line, "=="), ">"), "<")
  }

  /** The package name is a prefix of the line that holds no version operator. */
  lemma PackageNameClean(line: string)
    ensures PackageName(line) <= line
    ensures '>' !in PackageName(line) && '<' !in PackageName(line)
    ensures !Contains(PackageName(line), "==")
  {
    var a := BeforeFirst(line, "==");
    var b := BeforeFirst(a, ">");
    var c := BeforeFirst(b, "<");
    forall i | 0 <= i < |c| ensures c[i] != '>' && c[i] != '<' {
      assert c[i..i + 1] == b[i..i + 1] == a[i..i + 1];
      assert !IsInfixAt(a, ">", i);
      assert !IsInfixAt(b, "<", i);
    }
    BeforeFirstHasNoOccurrence(line, "==");
    ContainsIff(a, "==");
    ContainsIff(c, "==");
    if Contains(c, "==") {
      var i :| 0 <= i <= |c| - 2 && IsInfixAt(c, "==", i);
      assert a[i..i + 2] == c[i..i + 2];
      assert IsInfixAt(a, "==", i);
    }
  }

  /** The tags one requirements line adds, matched case-insensitively on its package name. */
  function LineTags(line: string): (r: seq<string>)
    ensures forall t :: t in r ==> t in Labels(RequirementTable)
  {
    var pkg := ToLower(PackageName(line));
    Pushed(Labels(RequirementTable), seq(|RequirementTable|, k requires 0 <= k < |RequirementTable| =>
      exists sub :: sub in RequirementTable[k].1 && Contains(pkg, sub)))
  }

  /** A line that is read: not empty and not a `#` comment. */
  predicate IsRequirementLine(line: string) {
    line != [] && !StartsWith(line, "#")
  }

  /** `content.split('\n').filter(line => line && !line.startsWith('#'))`. */
  function RequirementLines(lines: seq<string>): (r: seq<string>)
    ensures forall l :: l in r <==> l in lines && IsRequirementLine(l)
  {
    if lines == [] then []
    else (if IsRequirementLine(lines[0]) then [lines[0]] else []) + RequirementLines(lines[1..])
  }

  /** The tags of a list of requirement lines, line after line. */
  function TagsOfLines(lines: seq<string>): (r: seq<string>)
    ensures forall t :: t in r ==> t in Labels(RequirementTable)
  {
    if lines == [] then [] else TagsOfLines(lines[..|lines| - 1]) + LineTags(lines[|lines| - 1])
  }

  lemma {:induction false} TagsOfLinesMember(lines: seq<string>, t: string)
    ensures t in TagsOfLines(lines) <==> exists l :: l in lines && t in LineTags(l)
  {
    if lines != [] {
      var init := lines[..|lines| - 1];
      TagsOfLinesMember(init, t);
      assert lines == init + [lines[|lines| - 1]];
    }
  }

  function RequirementsTags(content: string): (r: seq<string>)
    ensures forall t :: t in r ==> t in Labels(RequirementTable)
  {
    TagsOfLines(RequirementLines(Split(content, '\n')))
  }

  /** The build file is read as raw text and searched for the exact markers. */
  function PomTags(content: string): (r: seq<string>)
    ensures forall t :: t in r ==> t in Labels(PomTable)
  {
    Pushed(Labels(PomTable), seq(|PomTable|, k requires 0 <= k < |PomTable| =>
      exists marker :: marker in PomTable[k].1 && Contains(content, marker)))
  }

  /* ---------- the whole routine ---------- */

  /** Some key file is present and fetching or decoding it threw, which abandons the whole detection. */
  predicate AnyManifestThrew(keys: seq<string>, pkg: Fetched<Manifest>, req: Fetched<string>, pom: Fetched<string>) {
    ("package.json" in keys && pkg.Threw?)
    || ("requirements.txt" in keys && req.Threw?)
    || ("pom.xml" in keys && pom.Threw?)
  }

  function PkgPart(keys: seq<string>, pkg: Fetched<Manifest>): seq<string> {
    if "package.json" in keys && pkg.Ok? then ManifestTags(pkg.body) else []
  }

  function ReqPart(keys: seq<string>, req: Fetched<string>): seq<string> {
    if "requirements.txt" in keys && req.Ok? then RequirementsTags(req.body) else []
  }

  function PomPart(keys: seq<string>, pom: Fetched<string>): seq<string> {
    if "pom.xml" in keys && pom.Ok? then PomTags(pom.body) else []
  }

  /** The tags found before deduplication, in the order they are pushed. */
  function RawTags(files: seq<TreeEntry>, pkg: Fetched<Manifest>, req: Fetched<string>, pom: Fetched<string>): seq<string>
  {
    var keys := KeyFilesOf(files);
    LanguageTags(ExtensionsOf(files)) + PkgPart(keys, pkg) + ReqPart(keys, req) + PomPart(keys, pom)
  }

  /** What `detectTechnologies` returns for these responses. */
  function Detect(tree: Fetched<seq<TreeEntry>>, pkg: Fetched<Manifest>, req: Fetched<string>, pom: Fetched<string>): (r: seq<string>)
    ensures NoDuplicates(r)
    ensures !tree.Ok? ==> r == []
  {
    match tree
    case Ok(entries) =>
      var files := Blobs(entries);
      if AnyManifestThrew(KeyFilesOf(files), pkg, req, pom) then []
      else Dedup(RawTags(files, pkg, req, pom))
    case _ => []
  }

  /** The `forEach` over the blobs: fills the extension set and the key-file list. */
  method ScanTree(files: seq<TreeEntry>) returns (extensions: set<string>, keyFiles: seq<string>)
    ensures extensions == ExtensionsOf(files)
    ensures keyFiles == KeyFilesOf(files)
  {
    extensions, keyFiles := {}, [];
    for i := 0 to |files|
      invariant extensions == ExtensionsOf(files[..i])
      invariant keyFiles == KeyFilesOf(files[..i])
    {
      extensions, keyFiles := VisitFile(files, i, extensions, keyFiles);
    }
    assert files[..|files|] == files;
  }

  /** The `forEach` callback for file `i`: the extension set and key-file list grow to cover it. */
  method VisitFile(files: seq<TreeEntry>, i: nat, extensions: set<string>, keyFiles: seq<string>)
    returns (extensions': set<string>, keyFiles': seq<string>)
    requires i < |files|
    requires extensions == ExtensionsOf(files[..i]) && keyFiles == KeyFilesOf(files[..i])
    ensures extensions' == ExtensionsOf(files[..i + 1]) && keyFiles' == KeyFilesOf(files[..i + 1])
  {
    assert files[..i + 1][..i] == files[..i];
    var path := ToLower(files[i].path);
    var ext := Extension(path);
    extensions', keyFiles' := extensions, keyFiles;
    if ext != [] {
      extensions' := extensions' + {ext};
    }
    if path == "package.json" {
      keyFiles' := keyFiles' + ["package.json"];
    }
    if path == "requirements.txt" {
      keyFiles' := keyFiles' + ["requirements.txt"];
    }
    if path == "pom.xml" {
      keyFiles' := keyFiles' + ["pom.xml"];
    }
  }

  /** The `forEach` over the read lines of the requirements file, pushing each line's tags. */
  method ScanRequirements(content: string) returns (detected: seq<string>)
    ensures detected == RequirementsTags(content)
  {
    var lines := RequirementLines(Split(content, '\n'));
    detected := [];
    for j := 0 to |lines|
      invariant detected == TagsOfLines(lines[..j])
    {
      assert lines[..j + 1][..j] == lines[..j];
      detected := detected + LineTags(lines[j]);
    }
    assert lines[..|lines|] == lines;
  }

  /**
   * The routine itself: the tree loop, the extension table, each present
   * key file read in turn, and the pushed list with repeats removed.
   */
  method DetectTechnologies(tree: Fetched<seq<TreeEntry>>, pkg: Fetched<Manifest>, req: Fetched<string>, pom: Fetched<string>)
    returns (tags: seq<string>)
    ensures tags == Detect(tree, pkg, req, pom)
  {
    if !tree.Ok? {
      return [];
    }
    var files := Blobs(tree.body);
    var extensions, keyFiles := ScanTree(files);
    var detected := LanguageTags(extensions);
    if "package.json" in keyFiles {
      if pkg.Threw? {
        return [];
      }
      if pkg.Ok? {
        detected := detected + ManifestTags(pkg.body);
      }
    }
    assert detected == LanguageTags(extensions) + PkgPart(keyFiles, pkg);
    if "requirements.txt" in keyFiles {
      if req.Threw? {
        return [];
      }
      if req.Ok? {
        var lineTags := ScanRequirements(req.body);
        detected := detected + lineTags;
      }
    }
    assert detected == LanguageTags(extensions) + PkgPart(keyFiles, pkg) + ReqPart(keyFiles, req);
    if "pom.xml" in keyFiles {
      if pom.Threw? {
        return [];
      }
      if pom.Ok? {
        detected := detected + PomTags(pom.body);
      }
    }
    assert detected == RawTags(files, pkg, req, pom);
    assert !AnyManifestThrew(keyFiles, pkg, req, pom);
    tags := Dedup(detected);
  }

  /* ---------- properties of the specification ---------- */

  /** An exception while reading any present key file leaves the repository with no tags at all. */
  lemma ManifestThrowGivesNothing(entries: seq<TreeEntry>, pkg: Fetched<Manifest>, req: Fetched<string>, pom: Fetched<string>)
    requires AnyManifestThrew(KeyFilesOf(Blobs(entries)), pkg, req, pom)
    ensures Detect(Ok(entries), pkg, req, pom) == []
  {
  }

  /** Once no key file threw, a tag is reported exactly when one of the four sources pushed it. */
  lemma DetectRaw(entries: seq<TreeEntry>, pkg: Fetched<Manifest>, req: Fetched<string>, pom: Fetched<string>, t: string)
    requires !AnyManifestThrew(KeyFilesOf(Blobs(entries)), pkg, req, pom)
    ensures t in Detect(Ok(entries), pkg, req, pom) <==>
      t in LanguageTags(ExtensionsOf(Blobs(entries)))
      || t in PkgPart(KeyFilesOf(Blobs(entries)), pkg)
      || t in ReqPart(KeyFilesOf(Blobs(entries)), req)
      || t in PomPart(KeyFilesOf(Blobs(entries)), pom)
  {
  }

  /** The tag sets of the four sources are disjoint, so a tag's presence is decided by its own source. */
  lemma DetectMember(entries: seq<TreeEntry>, pkg: Fetched<Manifest>, req: Fetched<string>, pom: Fetched<string>, t: string)
    requires !AnyManifestThrew(KeyFilesOf(Blobs(entries)), pkg, req, pom)
    ensures t in Labels(ExtensionTable) ==>
      (t in Detect(Ok(entries), pkg, req, pom) <==> t in LanguageTags(ExtensionsOf(Blobs(entries))))
    ensures t in Labels(DependencyTable) ==>
      (t in Detect(Ok(entries), pkg, req, pom) <==> t in PkgPart(KeyFilesOf(Blobs(entries)), pkg))
    ensures t in Labels(RequirementTable) ==>
      (t in Detect(Ok(entries), pkg, req, pom) <==> t in ReqPart(KeyFilesOf(Blobs(entries)), req))
    ensures t in Labels(PomTable) ==>
      (t in Detect(Ok(entries), pkg, req, pom) <==> t in PomPart(KeyFilesOf(Blobs(entries)), pom))
  {
    DetectRaw(entries, pkg, req, pom, t);
    FamiliesDisjoint();
    var keys := KeyFilesOf(Blobs(entries));
    assert t in PkgPart(keys, pkg) ==> t in Labels(DependencyTable);
    assert t in ReqPart(keys, req) ==> t in Labels(RequirementTable);
    assert t in PomPart(keys, pom) ==> t in Labels(PomTable);
  }

  /** Some blob of the tree has one of these extensions (after lower-casing its path). */
  predicate HasBlobWithExtension(entries: seq<TreeEntry>, exts: set<string>) {
    exists f :: f in entries && f.kind == "blob" && Extension(ToLower(f.path)) in exts
  }

  lemma BlobsExtension(entries: seq<TreeEntry>, exts: set<string>)
    requires forall e :: e in exts ==> e != []
    ensures exts * ExtensionsOf(Blobs(entries)) != {} <==> HasBlobWithExtension(entries, exts)
  {
    var files := Blobs(entries);
    if exts * ExtensionsOf(files) != {} {
      var e :| e in exts && e in ExtensionsOf(files);
      ExtensionsOfMember(files, e);
      var k :| 0 <= k < |files| && Extension(ToLower(files[k].path)) == e;
      assert files[k] in files;
    }
    if HasBlobWithExtension(entries, exts) {
      var f :| f in entries && f.kind == "blob" && Extension(ToLower(f.path)) in exts;
      assert f in files;
      var k :| 0 <= k < |files| && files[k] == f;
      var e := Extension(ToLower(f.path));
      ExtensionsOfMember(files, e);
      assert e in exts * ExtensionsOf(files);
    }
  }

  /** The tag of row `k` of the extension table is pushed exactly when one of its extensions was seen. */
  lemma LanguageTagsMember(exts: set<string>, k: nat)
    requires k < |ExtensionTable|
    ensures ExtensionTable[k].0 in LanguageTags(exts) <==> ExtensionTable[k].1 * exts != {}
  {
    FamiliesDisjoint();
    PushedMember(Labels(ExtensionTable), seq(|ExtensionTable|, i requires 0 <= i < |ExtensionTable| =>
      ExtensionTable[i].1 * exts != {}), k);
  }

  /** The tag of row `k` of the dependency table is pushed exactly when one of its keys is a truthy dependency. */
  lemma ManifestTagsMember(m: Manifest, k: nat)
    requires k < |DependencyTable|
    ensures DependencyTable[k].0 in ManifestTags(m) <==> exists key :: key in DependencyTable[k].1 && HasDep(m, key)
  {
    FamiliesDisjoint();
    PushedMember(Labels(DependencyTable), seq(|DependencyTable|, i requires 0 <= i < |DependencyTable| =>
      exists key :: key in DependencyTable[i].1 && HasDep(m, key)), k);
  }

  /** The tag of row `k` of the requirements table is pushed for a line exactly when its lower-cased package name contains one of the row's substrings. */
  lemma LineTagsMember(line: string, k: nat)
    requires k < |RequirementTable|
    ensures RequirementTable[k].0 in LineTags(line) <==>
      exists sub :: sub in RequirementTable[k].1 && Contains(ToLower(PackageName(line)), sub)
  {
    var pkg := ToLower(PackageName(line));
    FamiliesDisjoint();
    PushedMember(Labels(RequirementTable), seq(|RequirementTable|, i requires 0 <= i < |RequirementTable| =>
      exists sub :: sub in RequirementTable[i].1 && Contains(pkg, sub)), k);
  }

  /** The build-file tags are pushed exactly when the raw text contains their markers. */
  lemma PomTagsMember(content: string)
    ensures "Spring Boot" in PomTags(content) <==> Contains(content, SpringMarker)
    ensures "Maven" in PomTags(content) <==> Contains(content, SurefireMarker)
  {
    var hits := seq(|PomTable|, i requires 0 <= i < |PomTable| =>
      exists marker :: marker in PomTable[i].1 && Contains(content, marker));
    FamiliesDisjoint();
    PushedMember(Labels(PomTable), hits, 0);
    PushedMember(Labels(PomTable), hits, 1);
  }

  /**
   * When the tree was read and no key file threw, the tag of row `k` of the
   * extension table is reported exactly when some blob has one of its extensions.
   */
  lemma LanguageTagExact(entries: seq<TreeEntry>, pkg: Fetched<Manifest>, req: Fetched<string>, pom: Fetched<string>, k: nat)
    requires !AnyManifestThrew(KeyFilesOf(Blobs(entries)), pkg, req, pom)
    requires k < |ExtensionTable|
    ensures ExtensionTable[k].0 in Detect(Ok(entries), pkg, req, pom) <==> HasBlobWithExtension(entries, ExtensionTable[k].1)
  {
    var row := ExtensionTable[k];
    LanguageTagsMember(ExtensionsOf(Blobs(entries)), k);
    assert Labels(ExtensionTable)[k] == row.0;
    DetectMember(entries, pkg, req, pom, row.0);
    ExtensionKeysNonEmpty(k);
    BlobsExtension(entries, row.1);
  }

  lemma ExtensionKeysNonEmpty(k: nat)
    requires k < |ExtensionTable|
    ensures forall e :: e in ExtensionTable[k].1 ==> e != []
  {
  }

  /** Some blob sits at exactly this lower-cased root path. */
  predicate HasRootFile(entries: seq<TreeEntry>, name: string) {
    exists f :: f in entries && f.kind == "blob" && ToLower(f.path) == name
  }

  lemma RootFileKey(entries: seq<TreeEntry>, name: string)
    requires name in {"package.json", "requirements.txt", "pom.xml"}
    ensures name in KeyFilesOf(Blobs(entries)) <==> HasRootFile(entries, name)
  {
    var files := Blobs(entries);
    KeyFilesOfMember(files, name);
    if HasRootFile(entries, name) {
      var f :| f in entries && f.kind == "blob" && ToLower(f.path) == name;
      var k :| 0 <= k < |files| && files[k] == f;
    }
    if name in KeyFilesOf(files) {
      var k :| 0 <= k < |files| && ToLower(files[k].path) == name;
      assert files[k] in files;
    }
  }

  /**
   * With a root package manifest read and nothing thrown, the tag of row `k`
   * of the dependency table is reported exactly when one of its keys is truthy
   * in the merged dependencies.
   */
  lemma FrameworkTagExact(entries: seq<TreeEntry>, m: Manifest, req: Fetched<string>, pom: Fetched<string>, k: nat)
    requires HasRootFile(entries, "package.json")
    requires !AnyManifestThrew(KeyFilesOf(Blobs(entries)), Ok(m), req, pom)
    requires k < |DependencyTable|
    ensures DependencyTable[k].0 in Detect(Ok(entries), Ok(m), req, pom) <==>
      exists key :: key in DependencyTable[k].1 && HasDep(m, key)
  {
    ManifestTagsMember(m, k);
    RootFileKey(entries, "package.json");
    assert Labels(DependencyTable)[k] == DependencyTable[k].0;
    DetectMember(entries, Ok(m), req, pom, DependencyTable[k].0);
  }

  /** A root `package.json` that lists `react` and `next` yields both framework tags. */
  lemma ReactAndNextDetected(entries: seq<TreeEntry>, m: Manifest, req: Fetched<string>, pom: Fetched<string>)
    requires HasRootFile(entries, "package.json")
    requires HasDep(m, "react") && HasDep(m, "next")
    requires !AnyManifestThrew(KeyFilesOf(Blobs(entries)), Ok(m), req, pom)
    ensures "React" in Detect(Ok(entries), Ok(m), req, pom)
    ensures "Next.js" in Detect(Ok(entries), Ok(m), req, pom)
  {
    ReactNextRows();
    FrameworkKeyDetected(entries, m, req, pom, 0, "react");
    FrameworkKeyDetected(entries, m, req, pom, 1, "next");
  }

  /** The first two rows of the dependency table. */
  lemma ReactNextRows()
    ensures DependencyTable[0].0 == "React" && "react" in DependencyTable[0].1
    ensures DependencyTable[1].0 == "Next.js" && "next" in DependencyTable[1].1
  {
  }

  /** One truthy key of a row is enough for its tag. */
  lemma FrameworkKeyDetected(entries: seq<TreeEntry>, m: Manifest, req: Fetched<string>, pom: Fetched<string>, k: nat, key: string)
    requires HasRootFile(entries, "package.json")
    requires !AnyManifestThrew(KeyFilesOf(Blobs(entries)), Ok(m), req, pom)
    requires k < |DependencyTable| && key in DependencyTable[k].1 && HasDep(m, key)
    ensures DependencyTable[k].0 in Detect(Ok(entries), Ok(m), req, pom)
  {
    FrameworkTagExact(entries, m, req, pom, k);
  }

  /**
   * With a root requirements file read and nothing thrown, the tag of row `k`
   * of the requirements table is reported exactly when some line that is
   * neither empty nor a comment has a package name containing one of its substrings.
   */
  lemma RequirementTagExact(entries: seq<TreeEntry>, pkg: Fetched<Manifest>, content: string, pom: Fetched<string>, k: nat)
    requires HasRootFile(entries, "requirements.txt")
    requires !AnyManifestThrew(KeyFilesOf(Blobs(entries)), pkg, Ok(content), pom)
    requires k < |RequirementTable|
    ensures RequirementTable[k].0 in Detect(Ok(entries), pkg, Ok(content), pom) <==>
      exists line :: line in Split(content, '\n') && IsRequirementLine(line)
        && exists sub :: sub in RequirementTable[k].1 && Contains(ToLower(PackageName(line)), sub)
  {
    var t := RequirementTable[k].0;
    RootFileKey(entries, "requirements.txt");
    assert Labels(RequirementTable)[k] == t;
    DetectMember(entries, pkg, Ok(content), pom, t);
    var lines := RequirementLines(Split(content, '\n'));
    TagsOfLinesMember(lines, t);
    forall line | line in lines
      ensures t in LineTags(line) <==> exists sub :: sub in RequirementTable[k].1 && Contains(ToLower(PackageName(line)), sub)
    {
      LineTagsMember(line, k);
    }
  }

  /**
   * With a root build file read and nothing thrown, `Spring Boot` and `Maven`
   * are reported exactly when the raw text contains their markers.
   */
  lemma PomTagExact(entries: seq<TreeEntry>, pkg: Fetched<Manifest>, req: Fetched<string>, content: string)
    requires HasRootFile(entries, "pom.xml")
    requires !AnyManifestThrew(KeyFilesOf(Blobs(entries)), pkg, req, Ok(content))
    ensures "Spring Boot" in Detect(Ok(entries), pkg, req, Ok(content)) <==> Contains(content, SpringMarker)
    ensures "Maven" in Detect(Ok(entries), pkg, req, Ok(content)) <==> Contains(content, SurefireMarker)
  {
    PomTagsMember(content);
    RootFileKey(entries, "pom.xml");
    assert Labels(PomTable) == ["Spring Boot", "Maven"];
    DetectMember(entries, pkg, req, Ok(content), "Spring Boot");
    DetectMember(entries, pkg, req, Ok(content), "Maven");
  }

  /** A key file in a sub-directory is not read: only the tree decides, whatever the manifest response. */
  lemma NestedManifestIgnored(entries: seq<TreeEntry>, pkg: Fetched<Manifest>, pkg': Fetched<Manifest>, req: Fetched<string>, pom: Fetched<string>)
    requires !HasRootFile(entries, "package.json")
    ensures Detect(Ok(entries), pkg, req, pom) == Detect(Ok(entries), pkg', req, pom)
  {
    RootFileKey(entries, "package.json");
  }
}
