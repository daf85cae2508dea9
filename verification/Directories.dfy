/** Parsing a directory: its manifest files, in path order, are one stream. */
module Directories {
  import opened Normalize
  import opened Parsing
  import opened Resources
  import opened Schema
  import opened Sorting
  import opened StringSorting
  import opened Text
  import opened Topology
  import opened Wrappers

  datatype DirError = InFile(error: ParseError) | NoResources

  /** A path whose extension, in any letter case, is .yaml or .yml. */
  predicate IsManifest(path: string) {
    HasSuffix(ToLower(path), ".yaml") || HasSuffix(ToLower(path), ".yml")
  }

  function Manifests(files: map<string, seq<Node>>): set<string> {
    set p | p in files && IsManifest(p)
  }

  /** The files' documents in path order. */
  ghost function InOrder(files: map<string, seq<Node>>): (out: seq<seq<Node>>)
  {
    StringsAreOrdered(Manifests(files));
    var paths := Ascending(Less, Manifests(files));
    Contents(files, paths)
  }

  function Contents(files: map<string, seq<Node>>, paths: seq<string>): seq<seq<Node>> {
    seq(|paths|, i requires 0 <= i < |paths| => if paths[i] in files then files[paths[i]] else [])
  }

  function AddFiles(v: Validators, files: seq<seq<Node>>, list: seq<Resource>): Result<seq<Resource>, ParseError>
    decreases |files|
  {
    if files == [] then Success(list)
    else
      match FlattenAll(files[0])
      case Failure(e) => Failure(e)
      case Success(rs) =>
        match AddAll(v, rs, list)
        case Failure(e) => Failure(e)
        case Success(more) => AddFiles(v, files[1..], more)
  }

  /** What ParseFS makes of a directory. */
  ghost function DirSpec(v: Validators, files: map<string, seq<Node>>): Result<seq<Resource>, DirError> {
    match AddFiles(v, InOrder(files), [])
    case Failure(e) => Failure(InFile(e))
    case Success(list) =>
      if list == [] then Failure(NoResources)
      else
        match ResolveReferences(list)
        case Failure(e) => Failure(InFile(e))
        case Success(l) => Success(l)
  }

  function Stream(files: seq<seq<Node>>): seq<Node> {
    if files == [] then [] else files[0] + Stream(files[1..])
  }

  lemma {:induction false} FlattenJoin(a: seq<Node>, b: seq<Node>)
    ensures FlattenAll(a + b) == match FlattenAll(a)
                                 case Failure(e) => Failure(e)
                                 case Success(x) =>
                                   match FlattenAll(b)
                                   case Failure(e) => Failure(e)
                                   case Success(y) => Success(x + y)
  {
    hide FlattenNode;
    if a == [] {
      assert a + b == b;
      assert FlattenAll(b).Success? ==> [] + FlattenAll(b).value == FlattenAll(b).value;
    } else {
      assert (a + b)[0] == a[0] && (a + b)[1..] == a[1..] + b;
      FlattenJoin(a[1..], b);
      if FlattenNode(a[0]).Success? && FlattenAll(a[1..]).Success? && FlattenAll(b).Success? {
        Associates(FlattenNode(a[0]).value, FlattenAll(a[1..]).value, FlattenAll(b).value);
      }
    }
  }

  lemma Associates<T>(x: seq<T>, y: seq<T>, z: seq<T>)
    ensures x + (y + z) == (x + y) + z
  {}

  lemma {:induction false} AddJoin(v: Validators, a: seq<Resource>, b: seq<Resource>, list: seq<Resource>)
    ensures AddAll(v, a + b, list) == match AddAll(v, a, list)
                                      case Failure(e) => Failure(e)
                                      case Success(l) => AddAll(v, b, l)
    decreases |a|
  {
    hide Accepts, Normalized, Find;
    if a == [] {
      assert a + b == b;
    } else {
      assert (a + b)[0] == a[0] && (a + b)[1..] == a[1..] + b;
      AddJoin(v, a[1..], b, list + [Normalized(a[0])]);
    }
  }

  /** Adding file by file succeeds exactly when adding the whole stream does,
      and gives the same list. */
  lemma {:induction false} FilesAreOneStream(v: Validators, files: seq<seq<Node>>, list: seq<Resource>)
    ensures var whole := FlattenAll(Stream(files));
      AddFiles(v, files, list).Success? <==> whole.Success? && AddAll(v, whole.value, list).Success?
    ensures AddFiles(v, files, list).Success? ==>
      AddFiles(v, files, list).value == AddAll(v, FlattenAll(Stream(files)).value, list).value
    decreases |files|
  {
    hide FlattenAll, AddAll;
    if files == [] {
      NothingAdded(v, list);
    } else {
      FlattenJoin(files[0], Stream(files[1..]));
      if FlattenAll(files[0]).Success? {
        var rs := FlattenAll(files[0]).value;
        if FlattenAll(Stream(files[1..])).Success? {
          AddJoin(v, rs, FlattenAll(Stream(files[1..])).value, list);
        }
        if AddAll(v, rs, list).Success? {
          FilesAreOneStream(v, files[1..], AddAll(v, rs, list).value);
        }
      }
    }
  }

  lemma NothingAdded(v: Validators, list: seq<Resource>)
    ensures FlattenAll([]) == Success([]) && AddAll(v, [], list) == Success(list)
  {}

  /** A directory parses if and only if its manifests, read in path order as one
      stream, parse and declare something; the resources are the same. */
  lemma DirectoryIsStream(v: Validators, files: map<string, seq<Node>>)
    ensures var whole := ParseSpec(v, Stream(InOrder(files)));
      DirSpec(v, files).Success? <==> whole.Success? && whole.value != []
    ensures DirSpec(v, files).Success? ==> DirSpec(v, files).value == ParseSpec(v, Stream(InOrder(files))).value
  {
    hide FlattenAll, AddAll, AddFiles, FirstError, InOrder, Stream;
    FilesAreOneStream(v, InOrder(files), []);
  }

  // ---- Which files, and in which order -------------------------------------------------

  predicate EndsInYaml(p: string) {
    && |p| >= 5 && p[|p| - 5] == '.' && p[|p| - 4] in "yY" && p[|p| - 3] in "aA" && p[|p| - 2] in "mM"
    && p[|p| - 1] in "lL"
  }

  predicate EndsInYml(p: string) {
    |p| >= 4 && p[|p| - 4] == '.' && p[|p| - 3] in "yY" && p[|p| - 2] in "mM" && p[|p| - 1] in "lL"
  }

  lemma LowerLetters(c: char)
    ensures LowerChar(c) == '.' <==> c == '.'
    ensures LowerChar(c) == 'y' <==> c in "yY"
    ensures LowerChar(c) == 'a' <==> c in "aA"
    ensures LowerChar(c) == 'm' <==> c in "mM"
    ensures LowerChar(c) == 'l' <==> c in "lL"
  {}

  lemma ManifestIs(p: string)
    ensures IsManifest(p) <==> EndsInYaml(p) || EndsInYml(p)
  {
    hide LowerChar;
    var t := ToLower(p);
    if |p| >= 4 {
      LowerLetters(p[|p| - 1]);
      LowerLetters(p[|p| - 2]);
      LowerLetters(p[|p| - 3]);
      LowerLetters(p[|p| - 4]);
      assert t[|t| - 4..] == [t[|t| - 4], t[|t| - 3], t[|t| - 2], t[|t| - 1]];
    }
    if |p| >= 5 {
      LowerLetters(p[|p| - 5]);
      assert t[|t| - 5..] == [t[|t| - 5], t[|t| - 4], t[|t| - 3], t[|t| - 2], t[|t| - 1]];
    }
  }

  /** The files read are those ending in .yaml or .yml, in any letter case, by path. */
  lemma FilesInOrder(files: map<string, seq<Node>>, paths: seq<string>)
    requires forall i, j | 0 <= i < j < |paths| :: Less(paths[i], paths[j])
    requires forall p :: p in paths <==> p in files && (EndsInYaml(p) || EndsInYml(p))
    ensures |InOrder(files)| == |paths| && forall i | 0 <= i < |paths| :: InOrder(files)[i] == files[paths[i]]
  {
    hide IsManifest, EndsInYaml, EndsInYml, Less;
    forall p
      ensures p in Elements(paths) <==> p in Manifests(files)
    {
      ManifestIs(p);
    }
    StringsAreOrdered(Manifests(files));
    ArrangementUnique(Less, paths, Ascending(Less, Manifests(files)), Manifests(files));
    assert forall i | 0 <= i < |paths| :: paths[i] in paths;
  }

  // ---- The imperative parser ---------------------------------------------------------

  method ManifestPaths(files: map<string, seq<Node>>) returns (paths: seq<string>)
    ensures Contents(files, paths) == InOrder(files)
  {
    hide IsManifest;
    var found: seq<string> := [];
    var todo := files.Keys;
    while todo != {}
      invariant todo <= files.Keys
      invariant NoDuplicates(found) && Elements(found) == set p | p in files && p !in todo && IsManifest(p)
      decreases todo
    {
      var p :| p in todo;
      if IsManifest(p) {
        Append(found, p);
        found := found + [p];
      }
      todo := todo - {p};
    }
    assert Elements(found) == Manifests(files);
    StringsAreOrdered(Manifests(files));
    SortIsAscending(Less, found, Manifests(files));
    paths := Sort(Less, found);
  }

  /** ParseFS: a fresh set holding what the directory declares, or the first error. */
  method ParseDirectory(v: Validators, files: map<string, seq<Node>>)
    returns (set_: ResourceSet, error: Option<DirError>)
    ensures fresh(set_) && set_.Valid()
    ensures match DirSpec(v, files)
            case Failure(e) => error == Some(e)
            case Success(list) => error == None && set_.list == list
  {
    hide FlattenAll, AddAll, FirstError, InOrder, Contents;
    set_ := new ResourceSet();
    var paths := ManifestPaths(files);
    var contents := Contents(files, paths);
    assert contents[0..] == contents;
    for i := 0 to |contents|
      invariant fresh(set_) && set_.Valid()
      invariant AddFiles(v, InOrder(files), []) == AddFiles(v, contents[i..], set_.list)
    {
      assert contents[i..][0] == contents[i] && contents[i..][1..] == contents[i + 1..];
      var rs := Flatten(contents[i]);
      if rs.Failure? {
        return set_, Some(InFile(rs.error));
      }
      var bad := AddResources(v, rs.value, set_);
      if bad.Some? {
        return set_, Some(InFile(bad.value));
      }
    }
    assert contents[|contents|..] == [];
    if |set_.list| == 0 {
      return set_, Some(NoResources);
    }
    var bad := ValidateReferences(set_);
    error := if bad.Some? then Some(InFile(BadReference(bad.value))) else None;
  }
}
