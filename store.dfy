/** The attachment store: the file manager object, its lazily built caches,
    the repository of attachment records it saves into and queries, and the
    save orchestration (`saveFileIO`, `saveFileForObject`, `create`,
    `getFilesForObject`, `getRootUri`). */
module Store {
  import opened Common
  import opened ConfigTree
  import opened Sections
  import opened Paths

  /** An uploaded file: `getExt`, `getPath` (the temporary path) and `getType`. */
  datatype Upload = Upload(ext: Option<string>, tmpPath: Option<string>, fileType: string)

  /** The persisted fields of an attachment. `name` and `description` are
      `None` when the caller passed null. */
  datatype Record = Record(
    section: Config,
    objectId: int,
    path: string,
    fileType: string,
    name: Option<string>,
    description: Option<string>,
    uuid: Uuid)

  /** The entity `create` returns: the record and the root URI attached to it. */
  datatype FileEntity = FileEntity(record: Record, rootUri: string)

  /** The `{section, object}` criteria `getFilesForObject` queries with. */
  datatype Criteria = Criteria(section: Config, objectId: int)

  /** The web-server variables `getRootUri` reads. */
  datatype Server = Server(https: Option<string>, port: int, serverName: string)

  /** The foreign code the file manager calls: the CRC-32 checksum, the
      Hashids encoder, the file type sniffers. */
  datatype Env = Env(crc32: string -> Checksum, encode: (Hashids, int) -> string, typer: FileTyper)

  predicate Matches(r: Record, c: Criteria) {
    r.section == c.section && r.objectId == c.objectId
  }

  /** `find(criteria)`: the records that match, in repository order. */
  function Find(rs: seq<Record>, c: Criteria): (found: seq<Record>)
    ensures |found| <= |rs|
    ensures forall i :: 0 <= i < |found| ==> found[i] in rs && Matches(found[i], c)
    ensures forall i :: 0 <= i < |rs| && Matches(rs[i], c) ==> rs[i] in found
  {
    if rs == [] then []
    else (if Matches(rs[0], c) then [rs[0]] else []) + Find(rs[1..], c)
  }

  /** Saving one more record adds it to every query it matches and to no
      other. */
  lemma {:induction false} FindAppend(rs: seq<Record>, x: Record, c: Criteria)
    ensures Find(rs + [x], c) == Find(rs, c) + (if Matches(x, c) then [x] else [])
  {
    if rs == [] {
      assert [] + [x] == [x];
      assert Find([x][1..], c) == [];
    } else {
      assert (rs + [x])[0] == rs[0];
      assert (rs + [x])[1..] == rs[1..] + [x];
      FindAppend(rs[1..], x, c);
    }
  }

  /** The criteria for an owning entity: its section and its id. */
  function CriteriaFor(cfg: Config, crc32: string -> Checksum, o: Owner): Criteria {
    Criteria(Section(cfg, crc32, Instance(o)), o.id)
  }

  /** HTTPS is on (set, not empty and not "off") or the port is 443. */
  predicate Secure(s: Server) {
    (Truthy(s.https) && s.https.value != "off") || s.port == 443
  }

  /** The root URI `getRootUri` computes: scheme, then the server name. */
  function RootUriFor(s: Server): (r: string)
    ensures |r| == |s.serverName| + (if Secure(s) then 8 else 7)
    ensures r[|r| - |s.serverName|..] == s.serverName
  {
    (if Secure(s) then "https://" else "http://") + s.serverName
  }

  /** The computed root URI starts with "https://" exactly when the request
      is secure, and ends with the server name. */
  lemma RootUriScheme(s: Server)
    ensures Secure(s) <==> |RootUriFor(s)| >= 8 && RootUriFor(s)[..8] == "https://"
    ensures |RootUriFor(s)| >= |s.serverName| && RootUriFor(s)[|RootUriFor(s)| - |s.serverName|..] == s.serverName
  {
    if !Secure(s) {
      var u := RootUriFor(s);
      assert u[4] == ':';
      if |u| >= 8 {
        assert u[..8][4] != "https://"[4];
      }
    }
  }

  /** A relative path of a placement is never falsy in PHP. */
  lemma PlacementPathTruthy(p: Placement)
    ensures Truthy(Some(p.Path()))
  {
  }

  class FileManager {
    const config: Config
    const env: Env
    /** The uuid sequence: the n-th uuid it hands out. */
    const uuidSource: nat -> Uuid
    /** `__FILE__`, the default Hashids salt. */
    const sourceFile: string

    var rootUri: Option<string>
    var hashids: Option<Hashids>
    /** How many uuids have been taken from the sequence. */
    var issued: nat
    /** The repository's records, in insertion order. */
    var records: seq<Record>
    /** Directories known to exist, relative to the application root. */
    ghost var dirs: set<string>
    /** Files moved into place, relative to the application root. */
    ghost var files: set<string>

    /** The Hashids cache only ever holds the configured encoder, and every
        stored record points at a file that was moved into place. */
    ghost predicate Valid()
      reads this
    {
      (hashids.Some? ==> hashids.value == HashidsFor(config, sourceFile))
      && (forall i :: 0 <= i < |records| ==> records[i].path in files)
    }

    constructor (config: Config, env: Env, uuidSource: nat -> Uuid, sourceFile: string)
      ensures Valid()
      ensures this.config == config && this.env == env && this.uuidSource == uuidSource && this.sourceFile == sourceFile
      ensures rootUri == None && hashids == None && issued == 0 && records == []
      ensures dirs == {} && files == {}
    {
      this.config := config;
      this.env := env;
      this.uuidSource := uuidSource;
      this.sourceFile := sourceFile;
      rootUri := None;
      hashids := None;
      issued := 0;
      records := [];
      dirs := {};
      files := {};
    }

    /** `getRootUri`: computed from the server variables on first use, then
        served from the cache. */
    method GetRootUri(server: Server) returns (uri: string)
      modifies this`rootUri
      ensures old(rootUri).Some? ==> uri == old(rootUri).value
      ensures old(rootUri).None? ==> uri == RootUriFor(server)
      ensures rootUri == Some(uri)
    {
      if rootUri.None? {
        var scheme := "http://";
        if (Truthy(server.https) && server.https.value != "off") || server.port == 443 {
          scheme := "https://";
        }
        rootUri := Some(scheme + server.serverName);
      }
      uri := rootUri.value;
    }

    /** `setRootUri`: overrides the cache; null makes the next read recompute. */
    method SetRootUri(uri: Option<string>)
      requires Valid()
      modifies this`rootUri
      ensures Valid()
      ensures rootUri == uri
    {
      rootUri := uri;
    }

    /** `getHahids`: builds the encoder on first use and keeps it. */
    method GetHashids() returns (h: Hashids)
      requires Valid()
      modifies this`hashids
      ensures Valid()
      ensures h == HashidsFor(config, sourceFile) && hashids == Some(h)
    {
      if hashids.None? {
        var salt := GetOr(config, SaltPath, Text(sourceFile));
        hashids := Some(Hashids(salt, HashMinLength, HashAlphabet));
      }
      h := hashids.value;
    }

    /** `hash`: encodes a value with the configured encoder. */
    method Hash(value: int) returns (s: string)
      requires Valid()
      modifies this`hashids
      ensures Valid() && hashids == Some(HashidsFor(config, sourceFile))
      ensures s == env.encode(HashidsFor(config, sourceFile), value)
    {
      var h := GetHashids();
      s := env.encode(h, value);
    }

    /** `createUuid`: the next uuid of the sequence. */
    method CreateUuid() returns (u: Uuid)
      requires Valid()
      modifies this`issued
      ensures Valid()
      ensures u == uuidSource(old(issued)) && issued == old(issued) + 1
    {
      u := uuidSource(issued);
      issued := issued + 1;
    }

    /** The placement `getNewFilePath` computes for `u`; it does not depend
        on the state of the Hashids cache. */
    ghost function PlacementFor(ext: Option<string>, currentPath: Option<string>, u: Uuid): Result<Placement> {
      NewFilePath(config, HashidsFor(config, sourceFile), env.encode, env.typer, ext, currentPath, u)
    }

    /** `getNewFilePath`: the relative path for `u`, or the exception raised.
        The encoder is built as soon as the first index has been computed. */
    method GetNewFilePath(ext: Option<string>, currentPath: Option<string>, u: Uuid) returns (r: Result<string>)
      requires Valid()
      modifies this`hashids
      ensures Valid()
      ensures var p := PlacementFor(ext, currentPath, u);
              r == if p.Ok? then Ok(p.value.Path()) else Err(p.error)
      ensures hashids == if UsableCount(LevelCount(config, FirstLevelPath))
                         then Some(HashidsFor(config, sourceFile)) else old(hashids)
    {
      var first := LevelCount(config, FirstLevelPath);
      var second := LevelCount(config, SecondLevelPath);
      if !UsableCount(first) {
        return Err(CountError(first));
      }
      var dir1 := Hash(PhpMod(u.id + u.beat, first.number));
      if !UsableCount(second) {
        return Err(CountError(second));
      }
      var dir2 := Hash(PhpMod(u.id, second.number));
      var savedPath := SavePath(config, ext, currentPath, env.typer);
      if savedPath.Err? {
        return Err(savedPath.error);
      }
      var placement := Placement(Interpolate(savedPath.value), dir1, dir2, u.hex + Suffix(ext));
      assert PlacementFor(ext, currentPath, u) == Ok(placement);
      r := Ok(placement.Path());
    }

    /** `saveFileIO`: takes a new uuid only when none is given, computes the
        path, creates its directory when absent and moves the upload there.
        `moved` is the outcome of the move. The result is the relative path,
        or `None` (PHP false) when the move failed. */
    method SaveFileIO(file: Upload, uuid: Option<Uuid>, moved: bool) returns (r: Result<Option<string>>)
      requires Valid()
      modifies this`issued, this`hashids, this`dirs, this`files
      ensures Valid()
      ensures issued == old(issued) + (if uuid.Some? then 0 else 1)
      ensures var u := if uuid.Some? then uuid.value else uuidSource(old(issued));
              var p := PlacementFor(file.ext, file.tmpPath, u);
              && (p.Err? ==> r == Err(p.error) && dirs == old(dirs) && files == old(files))
              && (p.Ok? ==> dirs == old(dirs) + {p.value.Dir()})
              && (p.Ok? && moved ==> r == Ok(Some(p.value.Path())) && files == old(files) + {p.value.Path()})
              && (p.Ok? && !moved ==> r == Ok(None) && files == old(files))
    {
      var u: Uuid;
      if uuid.None? {
        u := CreateUuid();
      } else {
        u := uuid.value;
      }
      var newFile := GetNewFilePath(file.ext, file.tmpPath, u);
      if newFile.Err? {
        return Err(newFile.error);
      }
      ghost var p := PlacementFor(file.ext, file.tmpPath, u).value;
      dirs := dirs + {p.Dir()};
      if !moved {
        return Ok(None);
      }
      files := files + {newFile.value};
      r := Ok(Some(newFile.value));
    }

    /** `create`: builds the entity and attaches the root URI to it. */
    method Create(data: Record, server: Server) returns (e: FileEntity)
      requires Valid()
      modifies this`rootUri
      ensures Valid()
      ensures e.record == data
      ensures e.rootUri == if old(rootUri).Some? then old(rootUri).value else RootUriFor(server)
      ensures rootUri == Some(e.rootUri)
    {
      var uri := GetRootUri(server);
      e := FileEntity(data, uri);
    }

    /** The record `saveFileForObject` builds for `o` once the upload is at `path`. */
    ghost function RecordFor(o: Owner, file: Upload, name: Option<string>, description: Option<string>,
                             path: string, u: Uuid): Record {
      Record(Section(config, env.crc32, Instance(o)), o.id, path, file.fileType, name, description, u)
    }

    /** `saveFileForObject`: one uuid is taken and used for the path; when the
        file is not saved nothing is persisted; otherwise exactly one record
        is appended, with the section, the object's id, the path, the type,
        that uuid, and the name and description as given. */
    method SaveFileForObject(o: Owner, file: Upload, name: Option<string>, description: Option<string>,
                             server: Server, moved: bool) returns (r: Result<()>)
      requires Valid()
      modifies this
      ensures Valid()
      ensures issued == old(issued) + 1
      ensures var u := uuidSource(old(issued));
              var p := PlacementFor(file.ext, file.tmpPath, u);
              && (r.Ok? <==> p.Ok? && moved)
              && (p.Err? ==> r == Err(p.error) && files == old(files) && dirs == old(dirs))
              && (p.Ok? ==> dirs == old(dirs) + {p.value.Dir()})
              && (p.Ok? && !moved ==> r == Err(FileNotSaved) && files == old(files))
              && (r.Err? ==> records == old(records) && rootUri == old(rootUri))
              && (r.Ok? ==> records == old(records) + [RecordFor(o, file, name, description, p.value.Path(), u)]
                            && files == old(files) + {p.value.Path()}
                            && rootUri == Some(if old(rootUri).Some? then old(rootUri).value else RootUriFor(server)))
    {
      var section := Section(config, env.crc32, Instance(o));
      var objId := o.id;
      var u := CreateUuid();
      var path := SaveFileIO(file, Some(u), moved);
      if path.Err? {
        return Err(path.error);
      }
      if !Truthy(path.value) {
        return Err(FileNotSaved);
      }
      var data := Record(section, objId, path.value.value, file.fileType, name, description, u);
      var entity := Create(data, server);
      records := records + [entity.record];
      r := Ok(());
    }

    /** `getFilesForObject`: exactly the stored records whose section is the
        object's section and whose object is the object's id. */
    method GetFilesForObject(o: Owner) returns (items: seq<Record>)
      ensures items == Find(records, CriteriaFor(config, env.crc32, o))
      ensures forall i :: 0 <= i < |items| ==>
        items[i] in records && items[i].section == Section(config, env.crc32, Instance(o)) && items[i].objectId == o.id
      ensures forall i :: 0 <= i < |records| ==>
        (records[i].section == Section(config, env.crc32, Instance(o)) && records[i].objectId == o.id ==> records[i] in items)
    {
      var section := Section(config, env.crc32, Instance(o));
      var id := o.id;
      var criteria := Criteria(section, id);
      items := Find(records, criteria);
    }
  }

  /** Records are told apart only by section and object id: two entity
      types with the same section share the records of equal object ids. */
  lemma SharedSectionCollision(cfg: Config, crc32: string -> Checksum, rs: seq<Record>, a: Owner, b: Owner)
    requires Section(cfg, crc32, Instance(a)) == Section(cfg, crc32, Instance(b)) && a.id == b.id
    ensures Find(rs, CriteriaFor(cfg, crc32, a)) == Find(rs, CriteriaFor(cfg, crc32, b))
  {
  }

  /** Two class names whose checksums are 100001 and 100002 both fall back
      to section 11, so with no configured sections their records mix. */
  lemma CollisionExample(crc32: string -> Checksum)
    requires crc32("A") == 100001 && crc32("B") == 100002
    ensures Section(Table(map[]), crc32, ClassName("A")) == Section(Table(map[]), crc32, ClassName("B")) == Number(11)
  {
  }

  /** A record saved for an object is found by that object's lookup. */
  lemma SavedRecordIsFound(cfg: Config, crc32: string -> Checksum, rs: seq<Record>, o: Owner, x: Record)
    requires x.section == Section(cfg, crc32, Instance(o)) && x.objectId == o.id
    ensures Find(rs + [x], CriteriaFor(cfg, crc32, o)) == Find(rs, CriteriaFor(cfg, crc32, o)) + [x]
  {
    FindAppend(rs, x, CriteriaFor(cfg, crc32, o));
  }
}
