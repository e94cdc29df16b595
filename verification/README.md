# Moonshot object storage layer, in Dafny

This project models `Storage`, the persistence layer of the Moonshot red-teaming tool. Sessions, recipes,
cookbooks, runners and the rest of the tool keep their objects through it. An object is addressed by an
object type (such as `"recipe"`), an id and a file extension. The layer has three parts:

- **Path resolver** (`Paths.FilePath`): the root directory configured for the type, then `/`, the id, `.` and
  the extension. A type with no configured root fails with `UnknownType` before any file is touched. This
  models the `getattr(EnvironmentVars, obj_type)` lookup. `Paths.StemOf` is its inverse for a fixed root and
  extension.
- **Document store** (class `StorageLayer.Storage`): the filesystem is the class field `files`, a map from path
  string to an `Entry`. An entry is either a JSON document, whose decoded value has the opaque type parameter
  `Doc`, or content that is not JSON. `CreateObject` and `DeleteObject` update the map in place. `ReadObject`,
  `IsObjectExists`, `GetObjects` and `GetCreationDatetime` are queries on it. Every operation resolves its path
  through `Paths.FilePath`.
- **Database-handle helpers**: a handle is a `Database.DbAccessor?<V>`, where `null` is the missing instance
  and `V` is the type of the statement parameters the caller passes. A handle records its path, whether it is open, and the calls passed to it. Each helper refuses a missing handle
  with the source's own message. Otherwise it passes its arguments, unchanged, to the handle exactly once.

The listing pattern `*.ext` in a root directory is modelled by `Paths.MatchesGlob`. A path matches when it is
`root/stem.ext`, the stem contains no `/`, and the file name is not hidden: the stem is non-empty and does not
start with `.`. Python's glob skips hidden names when the pattern does not itself start with `.`.

## Model

| member | source | states |
|---|---|---|
| `Paths.FilePath` | moonshot/src/storage/storage.py:99-112 | An unconfigured type fails with `UnknownType(type)`. Otherwise the path is `root/id.ext`, and `StemOf` gives back exactly `id`, so distinct ids of one type and extension never share a path. |
| `Paths.StemOf` | moonshot/src/storage/storage.py:112 | When a path parses against a root and extension, it is exactly `root + "/" + stem + "." + ext`. This is the inverse of the resolver. |
| `Paths.FilePathMatchesGlob` | moonshot/src/storage/storage.py:79 | The resolved path of an object matches the listing pattern of its own type and extension exactly when the wildcard accepts its id. |
| `Paths.GlobRootIsUnique` | moonshot/src/storage/storage.py:79 | A path matched by the pattern `*.ext` in two root directories has equal roots. |
| `Paths.GlobExtensionIsUnique` | moonshot/src/storage/storage.py:79 | A path matched for two extensions that contain no `.` has equal extensions. |
| `StorageLayer.Storage.CreateObject` | moonshot/src/storage/storage.py:14-29 | An unconfigured type fails and the store is unchanged. Otherwise the path maps to the new document, overwriting any earlier one, and every other path is unchanged. Afterwards a read returns the document written, the object exists, and it is listed iff the wildcard accepts its id. |
| `StorageLayer.Storage.ReadObject` | moonshot/src/storage/storage.py:31-47 | An unconfigured type fails with `UnknownType`. Otherwise the read fails with `FileNotFound(path)` exactly when the object does not exist. A stored document reads back as `Success` of that document. A stored file that is not JSON fails with `InvalidJson(path)`. No default value is returned. |
| `StorageLayer.Storage.DeleteObject` | moonshot/src/storage/storage.py:49-65 | A present path is removed: the store shrinks by one, the object no longer exists, and a read fails. An absent path raises `"No {type} found with ID: {id}"` and leaves the store unchanged. An unconfigured type fails and the store is unchanged. |
| `StorageLayer.Storage.GetObjects` | moonshot/src/storage/storage.py:67-79 | An unconfigured type fails. Otherwise every listed path is a stored file that matches the pattern in the type's root, and every stored object of the type whose id the wildcard accepts is listed. |
| `StorageLayer.Storage.GetCreationDatetime` | moonshot/src/storage/storage.py:81-97 | An unconfigured type fails. Otherwise the call succeeds iff the object exists, returns the metadata time of the resolved path, and otherwise fails with `FileNotFound(path)`. |
| `StorageLayer.Storage.IsObjectExists` | moonshot/src/storage/storage.py:114-130 | Total for every configured type. It returns true exactly when the resolved path is stored. An unconfigured type fails. |
| `StorageLayer.Storage.CreateDatabaseConnection` | moonshot/src/storage/storage.py:132-151 | An unconfigured type fails before the manager is called, and the store is unchanged. When the manager gives no handle, the call raises `"db instance is not initialised."` and the store is unchanged. Otherwise it returns a fresh, open handle bound to the resolved path, with no calls made on it yet. The database file then exists at that path: an existing file is kept, and a missing one is created as a non-JSON entry. |
| `StorageLayer.Storage.CloseDatabaseConnection` | moonshot/src/storage/storage.py:153-167 | A missing handle raises `"Database instance is not initialised."`. Otherwise the handle is closed and exactly one `Close` call is appended to its calls. |
| `StorageLayer.Storage.CreateDatabaseTable` | moonshot/src/storage/storage.py:169-189 | A missing handle raises `"Database instance is not initialised."`. Otherwise exactly one `Table(sql)` call is appended, with the statement unchanged. |
| `StorageLayer.Storage.CreateDatabaseRecord` | moonshot/src/storage/storage.py:191-212 | A missing handle raises `"Database instance is not initialised."`. Otherwise exactly one `Insert(data, sql)` call is appended, with its arguments unchanged. |
| `StorageLayer.Storage.UpdateDatabaseRecord` | moonshot/src/storage/storage.py:214-235 | A missing handle raises `"Database instance is not initialised."`. Otherwise exactly one `Update(data, sql)` call is appended, with its arguments unchanged. |
| `StorageLayer.ListingsOfDistinctRootsAreDisjoint` | moonshot/src/storage/storage.py:79 | The listings of two types whose roots are different strings share no path. |
| `StorageLayer.ListingsOfDistinctExtensionsAreDisjoint` | moonshot/src/storage/storage.py:79 | The listings of one type for two different extensions without `.` share no path. |

## Left out

- JSON encoding and decoding (`json.dump`, `json.load`): documents are an opaque `Doc`, and a file either decodes to one or is `Unparsable`. Round-trip fidelity of the serialiser is taken as given.
- The laziness and order of `glob.iglob`: a listing is a set.
- GetObjects: a configured root that ends in `/` is listed under the resolver's literal string (`data//x.json`), while Python's glob strips the trailing `/` from the directory part and yields `data/x.json`. The model does not normalise paths.
- ListingsOfDistinctRootsAreDisjoint: it compares roots as literal strings, so `data` and `data/` count as different roots, although the program's listings for them are the same strings.
- GetObjects: glob metacharacters (`*`, `?`, `[`) inside a configured root or an extension are taken literally, and the model does not distinguish directories from files.
- Path normalisation: paths are the literal strings built by the resolver, so `a//b` and `a/b` are different keys. The operating system and `pathlib.Path` would treat them as one file.
- Filesystem and engine I/O faults (permissions, a missing root directory, a full disk) and partial writes: no operation models them.
- Concurrent writers to the same path: the model is sequential.
- GetCreationDatetime: the operating system's ctime and its conversion to a local `datetime` are the parameter `ctime`, so creation times are not related to the order of writes.
- `DatabaseManager.create_connection` is the parameter `connects`. When it connects, the database file it creates is entered as a non-JSON file, and later table and record calls do not change that entry. `DBAccessor` and SQL execution are not part of this model: a handle only records the calls passed to it, so table contents, SQL errors and durability across close and reopen are not modelled.
- Loading `EnvironmentVars` from the environment: the type-to-root map is a fixed `Config` given to the constructor.
- Python truthiness of a handle is modelled as "not `null`".
- The HTTP routes (`moonshot/integrations/web_api/routes/redteam.py`), the progress webhook (`moonshot/integrations/web_api/status_updater/moonshot_ui_webhook.py`) and `tests/test_api.py` are outside the storage layer and are not modelled.
