/** The plain records the engine passes around. */
module ScanTypes {

  datatype Option<+T> = None | Some(value: T)

  datatype Kind = TypeDir | TypeFile | TypeStem | TypeFullPath

  /** One path to test. `score` is the cached frontier priority. */
  datatype Candidate = Candidate(
    path: string,
    kind: Kind,
    basePrio: real,
    score: real,
    depth: int,
    parentDir: string,
    provenance: string,
    tags: seq<string>)

  /** One confirmed hit the learners are taught. */
  datatype Lesson = Lesson(dir: string, path: string, protected: bool, indexOf: bool)
}
