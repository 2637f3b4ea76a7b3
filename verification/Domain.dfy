/** What the services share: identifiers, the type and the status of a file. */
module Domain {

  type Id = nat

  datatype FileType = PDF | Image

  datatype Status = Pending | Processing | Done | Error {
    predicate Terminal() {
      Done? || Error?
    }
  }
}
