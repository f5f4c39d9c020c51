/** Shared result and error types of the provider's resource adapters. */
module Common {

  /** A value that may be absent: the model of a Go pointer that may be nil. */
  datatype Option<+T> = None | Some(value: T)

  /** A lifecycle step that the error was raised in. */
  datatype Operation =
    | CheckExisting   // the Get issued before a Create to detect a resource that must be imported
    | Creating        // issuing a create / create-or-update request
    | Updating        // issuing an update request
    | Retrieving      // the Get issued after a Create or Update to read back the ID
    | Reading         // the Get issued by a Read
    | Deleting        // issuing a delete request

  /** The errors the adapters return; the wording of the messages is not modelled. */
  datatype Error =
    | InvalidResourceId(id: string)                   // the stored ID could not be parsed
    | RequestFailed(during: Operation)                // the API answered with an error other than 404
    | AwaitFailed(during: Operation)                  // waiting for a long-running operation failed
    | ResourceNotFound                                // a data source looked up a resource that does not exist
    | ImportAsExists(resourceType: string, id: string) // the resource exists and must be imported first
    | MissingId                                       // the API returned a resource without an ID

  /** The value of a Go `error` return: nil or an error. */
  datatype Outcome = Pass | Fail(error: Error)
}
