/** Path resolution: the two shard directories derived from a uuid, the
    storage root picked from the configuration, and the resulting relative
    path (`getSavePath`, `getNewFilePath`, the Hashids settings). */
module Paths {
  import opened Common
  import opened ConfigTree

  /** A Swatch Internet Time beat, `format("B")`: 0 to 999. */
  type Beat = b: int | 0 <= b < 1000

  type NonEmptyString = s: string | |s| > 0 witness "0"

  /** The facets of a `UuidComplexShort` the path depends on: its ordinal
      (`getId`), the beat of its date, and its hex rendering (`toHex`). */
  datatype Uuid = Uuid(id: nat, beat: Beat, hex: NonEmptyString)

  /** The arguments a `Hashids` encoder is constructed with. */
  datatype Hashids = Hashids(salt: Config, minLength: nat, alphabet: string)

  const SaltPath: seq<string> := ["Attach", "hashids", "salt"]
  const HashMinLength: nat := 4
  const HashAlphabet: string := "qwertyuiopasdfghjklzxcvbnm123456789"

  /** The encoder `getHahids` builds: the configured salt (the source file's
      own path when none is configured), minimum length 4, fixed alphabet. */
  function HashidsFor(cfg: Config, sourceFile: string): (h: Hashids)
    ensures h.minLength == 4 && h.alphabet == HashAlphabet
    ensures Lookup(cfg, SaltPath).Some? ==> h.salt == Lookup(cfg, SaltPath).value
    ensures Lookup(cfg, SaltPath).None? ==> h.salt == Text(sourceFile)
  {
    Hashids(GetOr(cfg, SaltPath, Text(sourceFile)), HashMinLength, HashAlphabet)
  }

  /** The alphabet has 35 symbols: the lower-case letters and the digits 1
      to 9, with no `0`. */
  lemma AlphabetShape()
    ensures |HashAlphabet| == 35
    ensures forall i :: 0 <= i < |HashAlphabet| ==>
      ('a' <= HashAlphabet[i] <= 'z') || ('1' <= HashAlphabet[i] <= '9')
    ensures '0' !in HashAlphabet
  {
  }

  /** `FileSystem::getFileType` and `FileSystem::getFileTypeConst`. */
  datatype FileTyper = FileTyper(mimeOf: string -> string, typeClassOf: string -> string)

  const FirstLevelPath: seq<string> := ["Attach", "firstDirsLevelCount"]
  const SecondLevelPath: seq<string> := ["Attach", "secondDirsLevelCount"]
  const DefaultLevelCount: int := 16
  const FilesPath: seq<string> := ["Attach", "filesPath"]

  /** A configured shard level count, by default 16. */
  function LevelCount(cfg: Config, path: seq<string>): Config {
    GetOr(cfg, path, Number(DefaultLevelCount))
  }

  /** A level count that `%` accepts: an integer other than 0. */
  predicate UsableCount(c: Config) {
    c.Number? && c.number != 0
  }

  /** The error `%` raises for a level count it does not accept. */
  function CountError(c: Config): Error
    requires !UsableCount(c)
  {
    if c.Number? then DivisionByZero else BadLevelCount
  }

  /** The two directory indices: `(id + beat) % first` and `id % second`. */
  function ShardIndices(u: Uuid, first: int, second: int): (r: (int, int))
    requires first != 0 && second != 0
    ensures 0 <= r.0 < Abs(first) && 0 <= r.1 < Abs(second)
    ensures (u.id + u.beat - r.0) % first == 0 && (u.id - r.1) % second == 0
  {
    (PhpMod(u.id + u.beat, first), PhpMod(u.id, second))
  }

  /** With the default counts, ordinal 7 and beat 3 land in directories 10 and 7. */
  lemma ShardExample(hex: NonEmptyString)
    ensures ShardIndices(Uuid(7, 3, hex), DefaultLevelCount, DefaultLevelCount) == (10, 7)
  {
  }

  /** The candidate key paths for the storage root, in priority order. */
  function SavePathCandidates(ext: Option<string>, currentPath: Option<string>, typer: FileTyper): (r: seq<seq<string>>)
    ensures |r| == 2 + (if Truthy(ext) then 1 else 0) + (if Truthy(currentPath) then 2 else 0)
    ensures r[|r| - 2] == FilesPath + ["default"] && r[|r| - 1] == FilesPath
    ensures Truthy(ext) ==> r[0] == FilesPath + [ext.value]
    ensures Truthy(currentPath) ==>
      var k := if Truthy(ext) then 1 else 0;
      r[k] == FilesPath + [typer.mimeOf(currentPath.value)]
      && r[k + 1] == FilesPath + [typer.typeClassOf(currentPath.value)]
  {
    (if Truthy(ext) then [FilesPath + [ext.value]] else [])
    + (if Truthy(currentPath)
       then [FilesPath + [typer.mimeOf(currentPath.value)], FilesPath + [typer.typeClassOf(currentPath.value)]]
       else [])
    + [FilesPath + ["default"], FilesPath]
  }

  /** `getSavePath`: the storage root, `None` (PHP null) when no candidate
      resolves, and an error when the chosen value is a table. */
  function SavePath(cfg: Config, ext: Option<string>, currentPath: Option<string>, typer: FileTyper): (r: Result<Option<string>>)
    ensures r.Err? ==> r.error == AmbiguousRoot
    ensures r.Err? <==>
      var v := FirstResolved(cfg, SavePathCandidates(ext, currentPath, typer)); v.Some? && v.value.Table?
    ensures r == Ok(None) <==> FirstResolved(cfg, SavePathCandidates(ext, currentPath, typer)).None?
    ensures r.Ok? && r.value.Some? ==>
      var v := FirstResolved(cfg, SavePathCandidates(ext, currentPath, typer));
      v == Some(Text(r.value.value)) || (v.Some? && v.value.Number? && r.value.value == DecimalString(v.value.number))
  {
    match FirstResolved(cfg, SavePathCandidates(ext, currentPath, typer))
    case None => Ok(None)
    case Some(Table(_)) => Err(AmbiguousRoot)
    case Some(Text(s)) => Ok(Some(s))
    case Some(Number(n)) => Ok(Some(DecimalString(n)))
  }

  /** A string at candidate i is the root when no earlier candidate
      resolves: the extension, MIME, type-class and default roots alike. */
  lemma SavePathAt(cfg: Config, ext: Option<string>, currentPath: Option<string>, typer: FileTyper, i: nat, root: string)
    requires i < |SavePathCandidates(ext, currentPath, typer)|
    requires Lookup(cfg, SavePathCandidates(ext, currentPath, typer)[i]) == Some(Text(root))
    requires forall j :: 0 <= j < i ==> Lookup(cfg, SavePathCandidates(ext, currentPath, typer)[j]).None?
    ensures SavePath(cfg, ext, currentPath, typer) == Ok(Some(root))
  {
    FirstResolvedAt(cfg, SavePathCandidates(ext, currentPath, typer), i);
  }

  /** A root configured for the file's extension takes precedence over all
      other candidates. */
  lemma SavePathByExtension(cfg: Config, ext: Option<string>, currentPath: Option<string>, typer: FileTyper, root: string)
    requires Truthy(ext)
    requires Lookup(cfg, FilesPath + [ext.value]) == Some(Text(root))
    ensures SavePath(cfg, ext, currentPath, typer) == Ok(Some(root))
  {
    FirstResolvedAt(cfg, SavePathCandidates(ext, currentPath, typer), 0);
  }

  /** When `filesPath` is a table holding none of the keys asked for, it is
      itself the answer, and that is the ambiguity error. */
  lemma {:induction false} SavePathAmbiguous(cfg: Config, ext: Option<string>, currentPath: Option<string>, typer: FileTyper, m: map<string, Config>)
    requires Lookup(cfg, FilesPath) == Some(Table(m))
    requires "default" !in m
    requires Truthy(ext) ==> ext.value !in m
    requires Truthy(currentPath) ==> typer.mimeOf(currentPath.value) !in m && typer.typeClassOf(currentPath.value) !in m
    ensures SavePath(cfg, ext, currentPath, typer) == Err(AmbiguousRoot)
  {
    var cands := SavePathCandidates(ext, currentPath, typer);
    forall j | 0 <= j < |cands| - 1
      ensures Lookup(cfg, cands[j]).None?
    {
      var key := cands[j][2];
      assert cands[j] == FilesPath + [key];
      LookupAppend(cfg, FilesPath, [key]);
    }
    FirstResolvedAt(cfg, cands, |cands| - 1);
  }

  /** When `filesPath` is a plain string, no keyed candidate resolves and that
      string is the root. */
  lemma {:induction false} SavePathSingleRoot(cfg: Config, ext: Option<string>, currentPath: Option<string>, typer: FileTyper, root: string)
    requires Lookup(cfg, FilesPath) == Some(Text(root))
    ensures SavePath(cfg, ext, currentPath, typer) == Ok(Some(root))
  {
    var cands := SavePathCandidates(ext, currentPath, typer);
    forall j | 0 <= j < |cands| - 1
      ensures Lookup(cfg, cands[j]).None?
    {
      var key := cands[j][2];
      assert cands[j] == FilesPath + [key];
      LookupAppend(cfg, FilesPath, [key]);
    }
    FirstResolvedAt(cfg, cands, |cands| - 1);
  }

  /** Where a file goes: `root/dir1/dir2/leaf`. */
  datatype Placement = Placement(root: string, dir1: string, dir2: string, leaf: string) {
    /** The directory `saveFileIO` creates when absent. */
    function Dir(): string {
      root + "/" + dir1 + "/" + dir2
    }

    function Path(): string {
      Dir() + "/" + leaf
    }
  }

  /** The file name's suffix: "." + ext when ext is truthy; otherwise ext as
      PHP interpolates it (so "0" is appended without a dot). */
  function Suffix(ext: Option<string>): string {
    if Truthy(ext) then "." + ext.value else Interpolate(ext)
  }

  /** `getNewFilePath`: the shard directories, the storage root and the file
      name, or the exception raised on the way (a level count `%` rejects, in
      the order the source evaluates them, then an ambiguous root). */
  function NewFilePath(cfg: Config, h: Hashids, encode: (Hashids, int) -> string, typer: FileTyper,
                       ext: Option<string>, currentPath: Option<string>, u: Uuid): (r: Result<Placement>)
    ensures var first := LevelCount(cfg, FirstLevelPath);
            var second := LevelCount(cfg, SecondLevelPath);
            && (!UsableCount(first) ==> r == Err(CountError(first)))
            && (UsableCount(first) && !UsableCount(second) ==> r == Err(CountError(second)))
            && (UsableCount(first) && UsableCount(second) && SavePath(cfg, ext, currentPath, typer).Err? ==> r == Err(AmbiguousRoot))
            && (r.Ok? ==> SavePath(cfg, ext, currentPath, typer).Ok?
                          && r.value.root == Interpolate(SavePath(cfg, ext, currentPath, typer).value)
                          && r.value.leaf == u.hex + Suffix(ext))
  {
    var first := LevelCount(cfg, FirstLevelPath);
    var second := LevelCount(cfg, SecondLevelPath);
    if !UsableCount(first) then Err(CountError(first))
    else if !UsableCount(second) then Err(CountError(second))
    else
      var ix := ShardIndices(u, first.number, second.number);
      match SavePath(cfg, ext, currentPath, typer)
      case Err(e) => Err(e)
      case Ok(root) => Ok(Placement(Interpolate(root), encode(h, ix.0), encode(h, ix.1), u.hex + Suffix(ext)))
  }

  /** The path is `root/enc(dir1Index)/enc(dir2Index)/hex` followed by
      `.ext` exactly when ext is truthy, with the indices bounded by the
      level counts; it fails exactly when a level count is unusable or the
      root is ambiguous. */
  lemma NewFilePathShape(cfg: Config, h: Hashids, encode: (Hashids, int) -> string, typer: FileTyper,
                         ext: Option<string>, currentPath: Option<string>, u: Uuid)
    ensures var first := LevelCount(cfg, FirstLevelPath);
            var second := LevelCount(cfg, SecondLevelPath);
            var r := NewFilePath(cfg, h, encode, typer, ext, currentPath, u);
            var root := SavePath(cfg, ext, currentPath, typer);
            && (r.Ok? <==> UsableCount(first) && UsableCount(second) && root.Ok?)
            && (r.Ok? ==>
                  exists i, j ::
                    0 <= i < Abs(first.number) && 0 <= j < Abs(second.number)
                    && (u.id + u.beat - i) % first.number == 0 && (u.id - j) % second.number == 0
                    && r.value.Path() == Interpolate(root.value) + "/" + encode(h, i) + "/" + encode(h, j) + "/" + u.hex + Suffix(ext))
            && (r.Ok? && Truthy(ext) ==> r.value.leaf == u.hex + "." + ext.value)
            && (r.Ok? && !Truthy(ext) ==> r.value.leaf == u.hex + Interpolate(ext))
  {
  }

  /** An extension "0" is falsy in PHP: it is not a root candidate and is
      appended to the name without a dot. */
  lemma ZeroExtension(cfg: Config, h: Hashids, encode: (Hashids, int) -> string, typer: FileTyper,
                      currentPath: Option<string>, u: Uuid)
    ensures SavePathCandidates(Some("0"), currentPath, typer) == SavePathCandidates(None, currentPath, typer)
    ensures var r := NewFilePath(cfg, h, encode, typer, Some("0"), currentPath, u);
            r.Ok? ==> r.value.leaf == u.hex + "0"
  {
  }

  /** The uuid of the worked example with the default counts: directories
      enc(10) and enc(7), name hex + ".png", under the root configured for png. */
  lemma NewFilePathExample(h: Hashids, encode: (Hashids, int) -> string, typer: FileTyper, hex: NonEmptyString, root: string)
    ensures var cfg := Table(map["Attach" := Table(map["filesPath" := Table(map["png" := Text(root)])])]);
            NewFilePath(cfg, h, encode, typer, Some("png"), None, Uuid(7, 3, hex))
            == Ok(Placement(root, encode(h, 10), encode(h, 7), hex + ".png"))
  {
    var cfg := Table(map["Attach" := Table(map["filesPath" := Table(map["png" := Text(root)])])]);
    assert Lookup(cfg, FirstLevelPath).None?;
    assert Lookup(cfg, SecondLevelPath).None?;
    LookupAppend(cfg, FilesPath, ["png"]);
    SavePathByExtension(cfg, Some("png"), None, typer, root);
    assert LevelCount(cfg, FirstLevelPath) == Number(16);
    assert LevelCount(cfg, SecondLevelPath) == Number(16);
    ShardExample(hex);
    assert Suffix(Some("png")) == ".png";
  }

  /** The (dir1, dir2) index pairs that a set of uuids occupies. */
  ghost function ShardPairs(us: set<Uuid>, first: int, second: int): set<(int, int)>
    requires first != 0 && second != 0
  {
    set u | u in us :: ShardIndices(u, first, second)
  }

  /** The (dir1, dir2) directory names that a set of uuids occupies. */
  ghost function ShardNames(us: set<Uuid>, h: Hashids, encode: (Hashids, int) -> string, first: int, second: int): set<(string, string)>
    requires first != 0 && second != 0
  {
    set p | p in ShardPairs(us, first, second) :: (encode(h, p.0), encode(h, p.1))
  }

  ghost function Grid(n: nat, m: nat): set<(int, int)> {
    set i, j | 0 <= i < n && 0 <= j < m :: (i, j)
  }

  ghost function Row(i: int, m: nat): set<(int, int)> {
    set j | 0 <= j < m :: (i, j)
  }

  lemma {:induction false} RowSize(i: int, m: nat)
    ensures |Row(i, m)| == m
  {
    if m == 0 {
      assert Row(i, 0) == {};
    } else {
      RowSize(i, m - 1);
      assert Row(i, m) == Row(i, m - 1) + {(i, m - 1)};
      assert (i, m - 1) !in Row(i, m - 1);
    }
  }

  lemma {:induction false} GridSize(n: nat, m: nat)
    ensures |Grid(n, m)| == n * m
  {
    if n == 0 {
      assert Grid(0, m) == {};
    } else {
      GridSize(n - 1, m);
      RowSize(n - 1, m);
      assert Grid(n, m) == Grid(n - 1, m) + Row(n - 1, m);
      assert Grid(n - 1, m) !! Row(n - 1, m);
      assert (n - 1) * m + m == n * m;
    }
  }

  lemma SubsetSize<T>(a: set<T>, b: set<T>)
    requires a <= b
    ensures |a| <= |b|
  {
    assert b == a + (b - a);
  }

  /** Encoding the index pairs never yields more name pairs than there are
      index pairs. */
  lemma {:induction false} ImageSize(s: set<(int, int)>, h: Hashids, encode: (Hashids, int) -> string)
    ensures |set p | p in s :: (encode(h, p.0), encode(h, p.1))| <= |s|
  {
    if s != {} {
      var x :| x in s;
      var rest := s - {x};
      ImageSize(rest, h, encode);
      assert (set p | p in s :: (encode(h, p.0), encode(h, p.1)))
          == (set p | p in rest :: (encode(h, p.0), encode(h, p.1))) + {(encode(h, x.0), encode(h, x.1))};
    } else {
      assert (set p | p in s :: (encode(h, p.0), encode(h, p.1))) == {};
    }
  }

  /** Fan-out bound: however many uuids are stored, they occupy at most
      |first| * |second| distinct pairs of shard directories. */
  lemma FanOut(us: set<Uuid>, h: Hashids, encode: (Hashids, int) -> string, first: int, second: int)
    requires first != 0 && second != 0
    ensures |ShardPairs(us, first, second)| <= Abs(first) * Abs(second)
    ensures |ShardNames(us, h, encode, first, second)| <= Abs(first) * Abs(second)
  {
    var pairs := ShardPairs(us, first, second);
    assert pairs <= Grid(Abs(first), Abs(second));
    SubsetSize(pairs, Grid(Abs(first), Abs(second)));
    GridSize(Abs(first), Abs(second));
    ImageSize(pairs, h, encode);
  }
}
