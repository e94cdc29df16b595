/**
 * The object-persistence layer: JSON documents addressed by (object type, id,
 * extension) and stored at the path the resolver gives, plus the helpers that
 * open a per-object database and pass table and record operations to it.
 *
 * The filesystem is the `files` field of a `Storage` object: a map from path
 * to what is stored there.  The type-to-directory configuration is fixed when
 * the object is built.
 */
module StorageLayer {
  import opened Wrappers
  import opened Errors
  import opened Paths
  import opened Database

  /** What a file holds: a JSON document that decodes to `doc`, or text that is not JSON. */
  datatype Entry<Doc> = Document(doc: Doc) | Unparsable

  class Storage<Doc> {
    const config: Config
    var files: map<string, Entry<Doc>>

    constructor (config: Config, files: map<string, Entry<Doc>>)
      ensures this.config == config && this.files == files
    {
      this.config := config;
      this.files := files;
    }

    /**
     * Writes `objInfo` to the object's path, replacing whatever was there:
     * reading the object back gives `objInfo`, and every other path keeps its
     * contents.
     */
    method CreateObject(objType: string, objId: string, objInfo: Doc, objExtension: string)
      returns (r: Outcome<StorageError>)
      modifies this
      ensures match FilePath(config, objType, objId, objExtension)
              case Failure(e) => r == Fail(e) && files == old(files)
              case Success(path) => r == Pass && files == old(files)[path := Document(objInfo)]
      ensures r.Pass? ==> ReadObject(objType, objId, objExtension) == Success(objInfo)
      ensures r.Pass? ==> IsObjectExists(objType, objId, objExtension) == Success(true)
      ensures r.Pass? ==> (FilePath(config, objType, objId, objExtension).value in GetObjects(objType, objExtension).value
                           <==> WildcardMatches(objId))
    {
      match FilePath(config, objType, objId, objExtension)
      case Failure(e) =>
        r := Fail(e);
      case Success(path) =>
        files := files[path := Document(objInfo)];
        r := Pass;
        FilePathMatchesGlob(config, objType, objId, objExtension);
    }

    /**
     * The document stored for the object.  A missing file fails with
     * `FileNotFound` exactly when the object does not exist; a file that is not
     * JSON fails with `InvalidJson`; no default value is ever returned.
     */
    function ReadObject(objType: string, objId: string, objExtension: string): (r: Result<Doc, StorageError>)
      reads this
      ensures objType !in config ==> r == Failure(UnknownType(objType))
      ensures objType in config ==>
                var path := FilePath(config, objType, objId, objExtension).value;
                && (r == Failure(FileNotFound(path)) <==> IsObjectExists(objType, objId, objExtension) == Success(false))
                && (r.Success? ==> path in files && files[path] == Document(r.value))
                && (r.Failure? ==> r.error == FileNotFound(path) || r.error == InvalidJson(path))
                && (path in files && files[path].Document? ==> r == Success(files[path].doc))
                && (path in files && files[path] == Unparsable ==> r == Failure(InvalidJson(path)))
    {
      match FilePath(config, objType, objId, objExtension)
      case Failure(e) => Failure(e)
      case Success(path) =>
        if path !in files then Failure(FileNotFound(path))
        else match files[path]
          case Document(doc) => Success(doc)
          case Unparsable => Failure(InvalidJson(path))
    }

    /**
     * Removes the object's file.  A present file is removed and nothing else
     * changes; an absent one raises "No <type> found with ID: <id>" and the
     * store is left as it was.
     */
    method DeleteObject(objType: string, objId: string, objExtension: string)
      returns (r: Outcome<StorageError>)
      modifies this
      ensures match FilePath(config, objType, objId, objExtension)
              case Failure(e) => r == Fail(e) && files == old(files)
              case Success(path) =>
                if path in old(files) then r == Pass && files == old(files) - {path}
                else r == Fail(Runtime(NotFoundMessage(objType, objId))) && files == old(files)
      ensures r.Pass? ==> |files| == |old(files)| - 1
      ensures r.Pass? ==> IsObjectExists(objType, objId, objExtension) == Success(false)
      ensures r.Pass? ==> ReadObject(objType, objId, objExtension).Failure?
    {
      match FilePath(config, objType, objId, objExtension)
      case Failure(e) =>
        r := Fail(e);
      case Success(path) =>
        if path in files {
          files := files - {path};
          r := Pass;
        } else {
          r := Fail(Runtime(NotFoundMessage(objType, objId)));
        }
    }

    /**
     * The paths of all stored files that the pattern `*.objExtension` matches
     * in the type's root directory: each listed path is a stored file of that
     * shape, and every stored object of the type whose id the wildcard accepts
     * is listed.  Order is not modelled.
     */
    function GetObjects(objType: string, objExtension: string): (r: Result<set<string>, StorageError>)
      reads this
      ensures objType !in config ==> r == Failure(UnknownType(objType))
      ensures objType in config ==> r.Success?
      ensures r.Success? ==> forall path | path in r.value ::
                path in files && MatchesGlob(path, config[objType], objExtension)
      ensures r.Success? ==> forall objId | WildcardMatches(objId) && FilePath(config, objType, objId, objExtension).value in files ::
                FilePath(config, objType, objId, objExtension).value in r.value
    {
      if objType in config then
        var root := config[objType];
        var listed := set path | path in files && MatchesGlob(path, root, objExtension);
        assert forall objId | WildcardMatches(objId) && FilePath(config, objType, objId, objExtension).value in files ::
            FilePath(config, objType, objId, objExtension).value in listed by {
          forall objId | WildcardMatches(objId) && FilePath(config, objType, objId, objExtension).value in files
            ensures FilePath(config, objType, objId, objExtension).value in listed
          {
            FilePathMatchesGlob(config, objType, objId, objExtension);
          }
        }
        Success(listed)
      else
        Failure(UnknownType(objType))
    }

    /**
     * The creation time the operating system reports for the object's file,
     * where `ctime` stands for that metadata.  A missing file fails with
     * `FileNotFound`.
     */
    function GetCreationDatetime<T>(objType: string, objId: string, objExtension: string, ctime: string -> T): (r: Result<T, StorageError>)
      reads this
      ensures objType !in config ==> r == Failure(UnknownType(objType))
      ensures objType in config ==>
                var path := FilePath(config, objType, objId, objExtension).value;
                && (r.Success? <==> IsObjectExists(objType, objId, objExtension) == Success(true))
                && (r.Success? ==> r.value == ctime(path))
                && (r.Failure? ==> r.error == FileNotFound(path))
    {
      match FilePath(config, objType, objId, objExtension)
      case Failure(e) => Failure(e)
      case Success(path) =>
        if path in files then Success(ctime(path)) else Failure(FileNotFound(path))
    }

    /**
     * Whether the object's file is present.  Total for every configured type:
     * it answers and never fails.
     */
    function IsObjectExists(objType: string, objId: string, objExtension: string): (r: Result<bool, StorageError>)
      reads this
      ensures objType !in config ==> r == Failure(UnknownType(objType))
      ensures objType in config ==> r.Success?
      ensures r.Success? ==> (r.value <==> FilePath(config, objType, objId, objExtension).value in files)
    {
      match FilePath(config, objType, objId, objExtension)
      case Failure(e) => Failure(e)
      case Success(path) => Success(path in files)
    }

    /**
     * Opens the object's database at its resolved path.  `connects` stands for
     * the database manager: whether it hands back a connection for that path.
     * When it does not, the call raises "db instance is not initialised." and
     * the store is unchanged.  When it does, the database file exists at that
     * path afterwards: an existing file is kept, and a missing one is created
     * with content that is not a JSON document.
     */
    method CreateDatabaseConnection<V>(objType: string, objId: string, objExtension: string, connects: string -> bool)
      returns (r: Result<DbAccessor<V>, StorageError>)
      modifies this
      ensures match FilePath(config, objType, objId, objExtension)
              case Failure(e) => r == Failure(e) && files == old(files)
              case Success(path) =>
                if connects(path) then
                  && r.Success? && fresh(r.value)
                  && r.value.path == path && r.value.isOpen && r.value.calls == []
                  && files == (if path in old(files) then old(files) else old(files)[path := Unparsable])
                else
                  r == Failure(Runtime(DbNotInitialisedOnOpen)) && files == old(files)
      ensures r.Success? ==> IsObjectExists(objType, objId, objExtension) == Success(true)
    {
      match FilePath(config, objType, objId, objExtension)
      case Failure(e) =>
        r := Failure(e);
      case Success(path) =>
        if connects(path) {
          if path !in files {
            files := files[path := Unparsable];
          }
          var db := new DbAccessor<V>(path);
          r := Success(db);
        } else {
          r := Failure(Runtime(DbNotInitialisedOnOpen));
        }
    }

    /**
     * Closes `db`: with no database instance it raises "Database instance is
     * not initialised."; otherwise the close is passed to the handle once and
     * the handle is closed.
     */
    static method CloseDatabaseConnection<V>(db: DbAccessor?<V>) returns (r: Outcome<StorageError>)
      modifies db
      ensures db == null ==> r == Fail(Runtime(DbNotInitialised))
      ensures db != null ==> r == Pass && !db.isOpen && db.calls == old(db.calls) + [Close]
    {
      if db != null {
        db.CloseConnection();
        r := Pass;
      } else {
        r := Fail(Runtime(DbNotInitialised));
      }
    }

    /**
     * Creates a table through `db`: with no database instance it raises
     * "Database instance is not initialised."; otherwise the statement is
     * passed to the handle once, unchanged.
     */
    static method CreateDatabaseTable<V>(db: DbAccessor?<V>, sqlCreateTable: string) returns (r: Outcome<StorageError>)
      modifies db
      ensures db == null ==> r == Fail(Runtime(DbNotInitialised))
      ensures db != null ==> r == Pass && db.isOpen == old(db.isOpen) && db.calls == old(db.calls) + [Table(sqlCreateTable)]
    {
      if db != null {
        db.CreateTable(sqlCreateTable);
        r := Pass;
      } else {
        r := Fail(Runtime(DbNotInitialised));
      }
    }

    /**
     * Inserts a record through `db`: with no database instance it raises
     * "Database instance is not initialised."; otherwise the parameters and
     * statement are passed to the handle once, unchanged.
     */
    static method CreateDatabaseRecord<V>(db: DbAccessor?<V>, data: seq<V>, sqlCreateRecord: string) returns (r: Outcome<StorageError>)
      modifies db
      ensures db == null ==> r == Fail(Runtime(DbNotInitialised))
      ensures db != null ==> r == Pass && db.isOpen == old(db.isOpen) && db.calls == old(db.calls) + [Insert(data, sqlCreateRecord)]
    {
      if db != null {
        db.CreateRecord(data, sqlCreateRecord);
        r := Pass;
      } else {
        r := Fail(Runtime(DbNotInitialised));
      }
    }

    /**
     * Updates a record through `db`: with no database instance it raises
     * "Database instance is not initialised."; otherwise the parameters and
     * statement are passed to the handle once, unchanged.
     */
    static method UpdateDatabaseRecord<V>(db: DbAccessor?<V>, data: seq<V>, sqlUpdateRecord: string) returns (r: Outcome<StorageError>)
      modifies db
      ensures db == null ==> r == Fail(Runtime(DbNotInitialised))
      ensures db != null ==> r == Pass && db.isOpen == old(db.isOpen) && db.calls == old(db.calls) + [Update(data, sqlUpdateRecord)]
    {
      if db != null {
        db.UpdateRecord(data, sqlUpdateRecord);
        r := Pass;
      } else {
        r := Fail(Runtime(DbNotInitialised));
      }
    }
  }

  /** Listings of two object types with different root directories share no path. */
  lemma ListingsOfDistinctRootsAreDisjoint<Doc>(s: Storage<Doc>, objType1: string, objType2: string, objExtension: string)
    requires objType1 in s.config && objType2 in s.config && s.config[objType1] != s.config[objType2]
    ensures s.GetObjects(objType1, objExtension).value !! s.GetObjects(objType2, objExtension).value
  {
    forall path | path in s.GetObjects(objType1, objExtension).value && path in s.GetObjects(objType2, objExtension).value
      ensures false
    {
      GlobRootIsUnique(path, s.config[objType1], s.config[objType2], objExtension);
    }
  }

  /**
   * Listings of one object type for two different extensions share no path,
   * when neither extension contains '.'.
   */
  lemma ListingsOfDistinctExtensionsAreDisjoint<Doc>(s: Storage<Doc>, objType: string, objExtension1: string, objExtension2: string)
    requires objType in s.config && objExtension1 != objExtension2
    requires '.' !in objExtension1 && '.' !in objExtension2
    ensures s.GetObjects(objType, objExtension1).value !! s.GetObjects(objType, objExtension2).value
  {
    forall path | path in s.GetObjects(objType, objExtension1).value && path in s.GetObjects(objType, objExtension2).value
      ensures false
    {
      GlobExtensionIsUnique(path, s.config[objType], s.config[objType], objExtension1, objExtension2);
    }
  }
}
