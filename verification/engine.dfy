/**
 The embedded database engine, seen only through one open attempt: creating
 the in-memory engine and selecting namespace "ideanet" / database "main".
 The engine's own behaviour is not modelled; each attempt is given as an
 `OpenOutcome`.
 */
module Engine {

  /** An opaque open connection; `id` only lets the model tell handles apart. */
  datatype Handle = Handle(id: nat)

  /** The three ways one open attempt can end; `reason` is the engine error's own text. */
  datatype OpenOutcome =
    | CreateFail(reason: string)
    | NsFail(reason: string)
    | Opened(handle: Handle)
}
