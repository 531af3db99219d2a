/** Names that are only ever compared: hosts, runs, cells, windows, paths, digests. Nothing in the run
    protocol looks inside one, so nothing here can either. */
module Names {
  type Id(==, 0, !new)

  /** Text carried from an agent to a row and compared whole: a stderr, a timestamp. */
  type Text(==, 0, !new)
}
