/** The failures the storage layer surfaces to its callers. */
module Errors {

  datatype StorageError =
    /** `getattr(EnvironmentVars, obj_type)` found no directory for this object type. */
    | UnknownType(objType: string)
    /** `open(path, "r")` or `os.path.getctime(path)` on a path that does not exist. */
    | FileNotFound(path: string)
    /** `json.load` on a file whose content is not a JSON document. */
    | InvalidJson(path: string)
    /** A `RuntimeError` raised by the storage layer itself, with its message. */
    | Runtime(message: string)

  /** Message raised when the database manager hands back no connection. */
  const DbNotInitialisedOnOpen: string := "db instance is not initialised."

  /** Message raised when a database helper is given no database instance. */
  const DbNotInitialised: string := "Database instance is not initialised."

  /** Message raised when deleting an object that is not stored. */
  function NotFoundMessage(objType: string, objId: string): string
  {
    "No " + objType + " found with ID: " + objId
  }
}
