/** The values the update command works on: catalog rows, install receipts,
    configured indexes, and errors coming back from collaborators. */
module Types {

  datatype Option<+T> = None | Some(value: T)

  /** An error returned by a collaborator (git, the index scanner, the receipt
      store); only its message is modelled. */
  datatype Error = Error(message: string)

  /** A collaborator's result: a value, or the error it returned. */
  datatype Result<+T> = Ok(value: T) | Err(error: Error)

  /** One entry of an index snapshot (index.Plugin), reduced to the two fields
      the update command reads: metadata.name and spec.version. */
  datatype Plugin = Plugin(name: string, version: string)

  /** An install receipt: the name and version of an installed plugin. */
  datatype Receipt = Receipt(name: string, version: string)

  /** A configured plugin index: its name and the URL of its git remote. */
  datatype Index = Index(name: string, url: string)
}
