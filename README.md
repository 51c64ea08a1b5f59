# Attachment file manager, modelled in Dafny

This project models the core of the `Attach\Model\FileManager` class of the
akademiano content-files package. The class stores uploaded files in a
two-level tree of shard directories and records which entity owns each file.

- **Sections** (`sections.dfy`). The section is the integer code of an owning
  entity's class. A code configured under `Attach.sectionMatrix` wins.
  Otherwise the CRC-32 checksum of the class name is adjusted: codes up to
  1000 get 1000 added, codes above 100000 are divided by 9999 and rounded up.
- **Paths** (`paths.dfy`). A uuid's ordinal and its Swatch beat give two
  directory indices, each taken `%` a configured level count (16 by default).
  The Hashids encoder turns each index into a directory name. The storage root
  is the first of up to five configuration paths that resolves. The file's
  path is `root/dir1/dir2/hex[.ext]`.
- **Store** (`store.dfy`). A `FileManager` class holds the configuration, the
  collaborators, the lazily built Hashids and root-URI caches, the uuid
  sequence position and the repository's records. Its methods take a uuid,
  compute the path, move the file and append exactly one record. A failed move
  appends nothing. The lookup returns exactly the stored records with the
  object's section and id.
- **ConfigTree** (`config_tree.dfy`) is the configuration tree: key-path
  lookup with a default, and "first candidate that resolves" (`getOneIs`).
- **Common** (`common.dfy`) holds nullable values, the exceptions as a
  `Result`, PHP truthiness (null, `""` and `"0"` are false) and PHP's
  truncating `%`.

Collaborators are parameters with only the properties the core relies on:

- CRC-32 is a function into `[0, 2^32)`.
- The Hashids encoder is a function of the encoder settings and the value.
- The MIME and type-class sniffers are functions of the temporary path.
- The uuid sequence is a function from "how many uuids were taken" to a uuid.
- The result of moving the upload is a boolean parameter.
- The web-server variables are a `Server` value.

Facts about the program that the model makes explicit:

- The time facet is `format("B")`, the Swatch Internet Time beat, 0 to 999.
- The fallback section lies in [11, 429540] (`SectionHashExtremes`): checksums
  above 100000 give codes from 11 upward, so a fallback code can be 1000 or
  less.
- `getSavePath` raises its error exactly when the first candidate that
  resolves holds a table.
- Two entity types whose sections coincide (a configured code, or two
  checksums with the same fallback code) share their records for equal
  object ids (`Store.SharedSectionCollision`).

## Model

| member | source | states |
|---|---|---|
| `Common.PhpMod` | src/Attach/Model/FileManager.php:217-219 | PHP `%`: the remainder is smaller in magnitude than the divisor, takes the dividend's sign, and differs from the dividend by a multiple of the divisor |
| `ConfigTree.Lookup` | src/Attach/Model/FileManager.php:112 | `Config::get(path)`: the empty path gives the value itself, and a string or integer leaf has no children |
| `ConfigTree.GetOr` | src/Attach/Model/FileManager.php:214 | `getConfig(path, default)`: the value at the path when it resolves, otherwise the default |
| `ConfigTree.LookupAppend` | src/Attach/Model/FileManager.php:106-113 | looking up a joined key path equals looking up the second part from the value the first part reaches (the section matrix, then the class name) |
| `ConfigTree.FirstIndex` | src/Attach/Model/FileManager.php:188 | the index `getOneIs` picks: every earlier candidate is unresolved and the picked one resolves, or none resolves |
| `ConfigTree.FirstResolved` | src/Attach/Model/FileManager.php:188 | `getOneIs` gives null exactly when no candidate path resolves |
| `ConfigTree.FirstResolvedAt` | src/Attach/Model/FileManager.php:188 | a resolving candidate with no resolving predecessor is the one returned |
| `Sections.CeilDiv` | src/Attach/Model/FileManager.php:99 | `ceil(a / b)` is the least q with q * b >= a |
| `Sections.SectionHash` | src/Attach/Model/FileManager.php:95-101 | for every 32-bit checksum the adjusted code lies in [11, 429540] |
| `Sections.SectionHashOf` | src/Attach/Model/FileManager.php:90-102 | `getSectionHash` of an object or of a class name lies in [11, 429540] |
| `Sections.SectionHashCases` | src/Attach/Model/FileManager.php:96-100 | h <= 1000 gives h + 1000 (in [1000, 2000]); 1000 < h <= 100000 gives h; h > 100000 gives the least q with q * 9999 >= h |
| `Sections.SectionHashExtremes` | src/Attach/Model/FileManager.php:95-101 | the bounds 11 and 429540 are reached (at 100001 and 2^32 - 1), and checksum 0 gives 1000 |
| `Sections.Section` | src/Attach/Model/FileManager.php:104-118 | `getSection`: the configured matrix entry when there is one, otherwise an integer fallback in [11, 429540] |
| `Sections.SectionConfiguredWins` | src/Attach/Model/FileManager.php:104-117 | a value configured at `Attach.sectionMatrix.<class>` is the section |
| `Sections.SectionFallback` | src/Attach/Model/FileManager.php:114-116 | with no configured entry the section is the adjusted checksum of the class name, an integer in [11, 429540] |
| `Sections.SectionOfInstance` | src/Attach/Model/FileManager.php:107-109 | an object and its class name have the same section |
| `Paths.HashidsFor` | src/Attach/Model/FileManager.php:201-202 | the encoder settings: minimum length 4, the fixed alphabet, and the configured salt or, when none is configured, the source file's path |
| `Paths.AlphabetShape` | src/Attach/Model/FileManager.php:202 | the Hashids alphabet has 35 symbols, all lower-case letters or digits 1 to 9, with no `0` |
| `Paths.ShardIndices` | src/Attach/Model/FileManager.php:214-220 | dir1Index is in [0, first) and congruent to id + beat; dir2Index is in [0, second) and congruent to id |
| `Paths.ShardExample` | src/Attach/Model/FileManager.php:214-219 | with the default counts, ordinal 7 and beat 3 give indices 10 and 7 |
| `Paths.FanOut` | src/Attach/Model/FileManager.php:214-221 | any set of uuids occupies at most first * second index pairs, and at most that many directory-name pairs |
| `Paths.SavePathCandidates` | src/Attach/Model/FileManager.php:175-186 | 2 to 5 candidates: the extension key only for a truthy extension, then the MIME and type-class keys only for a truthy temporary path, then `default`, then `filesPath` itself |
| `Paths.SavePath` | src/Attach/Model/FileManager.php:173-193 | the only error is the ambiguity error, raised exactly when the first resolving candidate holds a table; the root is null exactly when no candidate resolves; otherwise it is that candidate's string, or the decimal rendering of its integer |
| `Paths.SavePathAt` | src/Attach/Model/FileManager.php:175-188 | a string at any candidate (extension, MIME, type class, `default`, `filesPath`) is the root when no earlier candidate resolves |
| `Paths.SavePathByExtension` | src/Attach/Model/FileManager.php:176-188 | a root configured for the extension wins over every other candidate |
| `Paths.SavePathAmbiguous` | src/Attach/Model/FileManager.php:185-191 | a table `filesPath` holding none of the asked keys raises the ambiguity error |
| `Paths.SavePathSingleRoot` | src/Attach/Model/FileManager.php:186-192 | a string `filesPath` is the root whatever the extension and temporary path |
| `Paths.NewFilePath` | src/Attach/Model/FileManager.php:212-228 | `getNewFilePath`: an unusable first count, then an unusable second count, then an ambiguous root raise their errors in that order; on success the root is `getSavePath`'s answer and the name is hex plus the extension suffix |
| `Paths.NewFilePathShape` | src/Attach/Model/FileManager.php:212-228 | the path is `root/enc(i)/enc(j)/hex` plus `.ext` exactly when ext is truthy, with i, j the bounded shard indices; it fails exactly when a level count is not a non-zero integer or the root is ambiguous |
| `Paths.ZeroExtension` | src/Attach/Model/FileManager.php:223-226 | extension `"0"` gives the same candidates as none and is appended without a dot |
| `Paths.NewFilePathExample` | src/Attach/Model/FileManager.php:212-227 | ordinal 7, beat 3, extension `png`, default counts: `root/enc(10)/enc(7)/hex.png` |
| `Store.Find` | src/Attach/Model/FileManager.php:293 | `find` returns only stored records matching the criteria, and every stored record that matches |
| `Store.FindAppend` | src/Attach/Model/FileManager.php:281-282 | saving one record adds it to the end of every query it matches and leaves the other queries unchanged |
| `Store.SharedSectionCollision` | src/Attach/Model/FileManager.php:287-293 | two entity types with equal sections and equal object ids get the same lookup results |
| `Store.CollisionExample` | src/Attach/Model/FileManager.php:95-99 | class names with checksums 100001 and 100002 both fall back to section 11 |
| `Store.SavedRecordIsFound` | src/Attach/Model/FileManager.php:285-294 | a record saved for an object is found, appended, by that object's lookup |
| `Store.RootUriFor` | src/Attach/Model/FileManager.php:70-77 | the URI is a scheme of 8 characters when secure (7 otherwise) followed by the server name |
| `Store.RootUriScheme` | src/Attach/Model/FileManager.php:70-77 | the root URI starts with `https://` exactly when HTTPS is set and not `off` or the port is 443, and it ends with the server name |
| `Store.PlacementPathTruthy` | src/Attach/Model/FileManager.php:264 | a computed path is never falsy, so a moved file always passes the "file not saved" check |
| `Store.FileManager.constructor` | src/Attach/Model/FileManager.php:28-33 | both caches empty, no uuid taken, no records, no files |
| `Store.FileManager.GetRootUri` | src/Attach/Model/FileManager.php:68-80 | computes the URI from the server variables only when nothing is cached, then caches it |
| `Store.FileManager.SetRootUri` | src/Attach/Model/FileManager.php:85-88 | replaces the cached URI (null makes the next read recompute) and keeps the object invariant |
| `Store.FileManager.GetHashids` | src/Attach/Model/FileManager.php:198-205 | returns the encoder with the configured salt (default the source file's path), minimum length 4 and the fixed alphabet, and caches it |
| `Store.FileManager.Hash` | src/Attach/Model/FileManager.php:207-210 | encodes with the configured encoder, whatever the cache held |
| `Store.FileManager.CreateUuid` | src/Attach/Model/FileManager.php:152-160 | takes the next uuid of the sequence and keeps the object invariant |
| `Store.FileManager.GetNewFilePath` | src/Attach/Model/FileManager.php:212-228 | returns the path `NewFilePath` describes or its exception; the encoder is cached once the first count is usable |
| `Store.FileManager.SaveFileIO` | src/Attach/Model/FileManager.php:230-247 | takes a uuid only when none is given; creates the directory even when the move then fails; returns the relative path on a move, false otherwise |
| `Store.FileManager.Create` | src/Attach/Model/FileManager.php:249-256 | the entity carries the given fields and the (possibly newly cached) root URI |
| `Store.FileManager.SaveFileForObject` | src/Attach/Model/FileManager.php:258-283 | exactly one uuid is taken; on a config error the records, root URI, files and directories are unchanged; once the path is computed its directory exists, even when the move fails; on a failed move the records, root URI and files are unchanged; on success exactly one record with the section, object id, path, type, that uuid, name and description is appended, and every record's file exists |
| `Store.FileManager.GetFilesForObject` | src/Attach/Model/FileManager.php:285-295 | returns `find` of the `{section, object}` criteria: stored records whose section and object id are the object's, and every stored record that has both |

## Left out

- Filesystem effects: `file_exists`, `mkdir` (mode 0750, recursive), `dirname`, `ROOT_DIR` are not modelled. Existing directories and moved files are ghost sets of paths relative to the application root, and the created directory is taken to be `root/dir1/dir2`.
- The move of the upload (`$file->mv`) is a boolean parameter. Its atomicity and the bytes themselves are not modelled.
- CRC-32 (`hash("crc32")`, the BZIP2 variant) and `hexdec` are an abstract function into [0, 2^32).
- The Hashids algorithm is foreign code: `encode` is an abstract function. Its output alphabet and minimum length are recorded as constructor arguments only, not proved of its output.
- The uuid internals are not modelled. This covers the Postgres sequence adapter (`PgSequenceUuidComplexShort`), `UuidFactory`, `toHex` and `DateTime::format("B")`. A uuid is an ordinal, a beat in [0, 999] and a non-empty hex string.
- The sequence is a function of how many uuids were taken. Uniqueness of uuids (the sequence's promise) is not stated.
- Repository internals are not modelled: `Repository::find`, `save`, `create` and the store-assigned record `id`. `find` is a filter over the records in insertion order, and `save` appends.
- The `uuidFactory` entry that `saveFileForObject` passes and `create` attaches is not modelled.
- `getOneIs` lives in the unseen configuration class. It is taken to return the first candidate that resolves. A sub-table is taken to come back as an array, and `Config::get` to return a `Config` for tables.
- Level counts: PHP's coercion of numeric strings and floats is not modelled. A non-integer count leads to `BadLevelCount`.
- `Sections.SectionHash`: PHP's `ceil` returns a float. The model returns the equal integer; for inputs below 2^32 the double division is exact enough that the two agree.
- After a successful move, a failure to persist leaves an orphan file. The model's `save` cannot fail, so this case is not modelled.
- Concurrency is not modelled: racing `mkdir` calls and concurrent uuid issue.
- `getRootUri`: a missing `SERVER_NAME` or `SERVER_PORT` is not modelled. The port is compared as an integer, as PHP's loose `==` does for numeric strings.
- Not modelled because they are plain configuration reads, deprecated or trivial:
  - `getRelationsConfig` and `getSequenceName`;
  - `getNextSequence`;
  - `getUuidFactory`/`setUuidFactory`;
  - `getLastChanged`/`setLastChanged` (these use an undeclared field).
- `getSectionsConfig` is folded into `Sections.ConfiguredSection`.
- `FileSystem::getFileType` and `getFileTypeConst` are abstract functions of the temporary path.
