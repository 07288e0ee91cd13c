/** The tracked-project record of hourtab/project.go. */
module Projects {
  import opened Ints

  /** One tracked working directory. `path` is the key the session compares
      queries against; the other fields are the activity counters that the
      project's own operations maintain. */
  datatype Project = Project(
    path: string,
    gitOrigin: string,
    inactive: bool,
    totalTime: u64,
    resetSince: u64)

  /** A per-project activity operation `p.op(timeout, now)`, returning the
      project's new state. `bump` and `timeout` are of this kind; their bodies
      are not part of this model, so every session operation that uses one
      takes it as a parameter and holds for every such operation. */
  type Transition = (Project, u64, u64) -> Project
}
