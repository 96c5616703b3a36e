/**
 * The local file system as the stores see it: a map from path to what `JSON.parse` of the
 * file would give. A path that is not in the map has no file.
 */
module Disk {

  /** A file read back: no file (`ENOENT`), unreadable or unparsable, or a parsed document. */
  datatype FileState<T> = Missing | Corrupt | Value(v: T)

  /** The files that exist; a stored `Missing` is never put in by the stores. */
  type Files<T> = map<string, FileState<T>>

  /** What reading `path` gives. */
  function At<T>(files: Files<T>, path: string): (r: FileState<T>)
    ensures path !in files ==> r == Missing
  {
    if path in files then files[path] else Missing
  }

  /** What a store makes of a read: the parsed document, or `fallback` when missing or unreadable. */
  function ValueOr<T>(f: FileState<T>, fallback: T): (r: T)
    ensures f.Value? ==> r == f.v
    ensures !f.Value? ==> r == fallback
  {
    if f.Value? then f.v else fallback
  }

  /**
   * How one write-to-temp-then-rename save turns out: it succeeds, `writeFile` on the
   * temporary path fails part-way (a torn temporary file is left), or `rename` fails
   * (a complete temporary file is left).
   */
  datatype SaveFault = NoFault | WriteFault | RenameFault

  /**
   * The files after `writeFile(temp, v)` followed, if that succeeded, by `rename(temp, target)`,
   * before any clean-up.
   */
  function AfterAtomicSave<T>(files: Files<T>, target: string, temp: string, v: T, fault: SaveFault):
    (r: Files<T>)
    requires target != temp
    ensures fault == NoFault ==> At(r, target) == Value(v) && At(r, temp) == Missing
    ensures fault != NoFault ==> At(r, target) == At(files, target) && temp in r
    ensures fault == WriteFault ==> At(r, temp) == Corrupt
    ensures fault == RenameFault ==> At(r, temp) == Value(v)
    ensures forall p :: p != target && p != temp ==> At(r, p) == At(files, p)
  {
    match fault
    case NoFault => (files - {temp})[target := Value(v)]
    case WriteFault => files[temp := Corrupt]
    case RenameFault => files[temp := Value(v)]
  }

  /**
   * How one direct `writeFile(path, v)` turns out: it succeeds, it fails before the file is
   * opened or truncated (`EACCES`, a missing directory: the old contents stay), or it fails
   * part-way (a torn file is left).
   */
  datatype WriteFault = NoWriteFault | OpenFault | TornFault

  /** The files after `writeFile(path, v)`. */
  function AfterWrite<T>(files: Files<T>, path: string, v: T, fault: WriteFault): (r: Files<T>)
    ensures fault == NoWriteFault ==> At(r, path) == Value(v)
    ensures fault == OpenFault ==> r == files
    ensures fault == TornFault ==> At(r, path) == Corrupt
    ensures forall p :: p != path ==> At(r, p) == At(files, p)
  {
    match fault
    case NoWriteFault => files[path := Value(v)]
    case OpenFault => files
    case TornFault => files[path := Corrupt]
  }

  /** Every file other than `p` and `q` reads the same in `a` as in `b`. */
  ghost predicate SameElsewhere<T>(a: Files<T>, b: Files<T>, p: string, q: string) {
    forall x :: x != p && x != q ==> At(a, x) == At(b, x)
  }

  /** `path.join(dir, name)` for a plain file name; normalisation of `..` and `//` is not modelled. */
  function PathJoin(dir: string, name: string): string {
    dir + "/" + name
  }

  /** `unlink(path)` when it succeeds: afterwards there is no file at `path`. */
  function RemoveFile<T>(files: Files<T>, path: string): (r: Files<T>)
    ensures At(r, path) == Missing
    ensures forall p :: p != path ==> At(r, p) == At(files, p)
  {
    files - {path}
  }
}
