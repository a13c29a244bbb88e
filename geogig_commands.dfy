/** The GeoGig/GeoGit command classes and refs that the command hooks look at. */
module GeogigCommands {
  /** The class of a command handed to a hook's `appliesTo`. */
  datatype CommandClass =
    | UpdateRefOp | LsRemoteOp | CloneOp | FetchOp | PushOp | PullOp
    | RemoteAddOp | RemoteRemoveOp | OtherOp(name: string)

  /** A ref: a plain ref pointing at an object, or a symbolic ref pointing at another ref. */
  datatype Ref = Ref(name: string, objectId: string) | SymRef(name: string, target: string)

  /** The well-known ref names of the GeoGig `Ref` class. */
  const HEAD := "HEAD"
  const WORK_HEAD := "WORK_HEAD"
  const STAGE_HEAD := "STAGE_HEAD"

  /** A configured remote with its fetch and push URLs. */
  datatype Remote = Remote(name: string, fetchUrl: string, pushUrl: string)
}
