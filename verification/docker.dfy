/** The container runtime as the pilot sees it: the results of listing,
    inspecting and subscribing, given as plain values. */
module Docker {

  /** The fields of an inspected container the pilot reads. `path` is the
      entrypoint (the infrastructure container's is "/pause"), `status` the
      lifecycle state ("running", "exited", ...). */
  datatype Container = Container(
    id: string,
    name: string,
    path: string,
    status: string,
    logPath: string,
    labels: map<string, string>)

  /** One entry of the container list: its id and its lifecycle state. */
  datatype Summary = Summary(id: string, state: string)

  /** The answer to "list all containers". */
  datatype Listing = Listed(summaries: seq<Summary>) | ListError

  /** The answers to "inspect by id": an id that is not a key fails. */
  type Inspector = map<string, Container>

  /** A container event: the action and the id of the container concerned. */
  datatype Event = Event(action: string, actorId: string)
}
