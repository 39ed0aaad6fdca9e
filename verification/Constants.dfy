/** Sizes that several parts of TopoLVM share. */
module Constants {
  /** Volumes are whole sectors. */
  const SECTOR := 4096

  /** The size of a volume whose request does not say one. */
  const DEFAULT_SIZE := 0x4000_0000
}
