/** Failure-compatible wrappers shared by every module of the model. */
module Wrappers {

  /** Python's `None` versus a present value. */
  datatype Option<+T> = None | Some(value: T)

  /** A value, or the exception that was raised instead of producing it. */
  datatype Result<+T, +E> = Ok(value: T) | Err(error: E) {

    predicate IsFailure() {
      Err?
    }

    function PropagateFailure<U>(): Result<U, E>
      requires Err?
    {
      Err(error)
    }

    function Extract(): T
      requires Ok?
    {
      value
    }
  }

  /** `d.get(k)` on a Dafny map. */
  function MapGet<K, V>(m: map<K, V>, k: K): (r: Option<V>)
    ensures r.Some? <==> k in m
    ensures r.Some? ==> r.value == m[k]
  {
    if k in m then Some(m[k]) else None
  }

  /** Python truthiness of an optional string: both `None` and `""` are falsy. */
  predicate Truthy(s: Option<string>) {
    s.Some? && s.value != ""
  }
}

/** What the modelled code can raise, and the side effects it has on disk. */
module Outcomes {
  import opened Wrappers

  type Path = string

  /** The exceptions the modelled code lets escape. */
  datatype Failure =
    | KeyMissing(key: string)            // a strict `d[key]` on a dict without that key
    | PathIdMissing(pathId: int)         // a strict `self.path_id[id]` on an id with no object
    | DanglingRef(pathId: int)           // dereferencing a container PPtr whose object is absent
    | NotSubscriptable                   // subscripting a `None` card definition
    | AttributeMissing                   // calling `.get` on a `None` gameplay-audio table
    | LoadFailed(path: Path)             // loading a bundle that is missing or corrupt
    | DecodeFailed                       // the audio decoder raised
    | UnknownImageOption(option: string) // `ArgumentTypeError` for an image option
    | UnknownAudioOption(option: string) // `ArgumentTypeError` for an audio option
    | CollaboratorFailed                 // an extractor outside this model raised

  /** A change to the file system. */
  datatype Effect = MakeDir(dir: Path) | WriteFile(file: Path)

  /** The effects performed, in order, and then either a value or the exception raised. */
  datatype Step<+T> = Step(effects: seq<Effect>, outcome: Result<T, Failure>)

  /** The effects of a sequence of file writes, one per path, in order. */
  function Writes(files: seq<Path>): (es: seq<Effect>)
    ensures |es| == |files|
    ensures forall i :: 0 <= i < |files| ==> es[i] == WriteFile(files[i])
  {
    seq(|files|, i requires 0 <= i < |files| => WriteFile(files[i]))
  }

  /** `Path(dir) / name`, rendered with `as_posix()`. */
  function Join(dir: Path, name: string): Path {
    dir + "/" + name
  }
}
