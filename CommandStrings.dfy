/**
 * The redumper mode words. The class that declares them is not part of this
 * model; the spellings below are the ones redumper accepts on its command line.
 */
module CommandStrings {
  import opened Strings

  /** The "no mode" placeholder. */
  const NONE: string := ""
  const CD: string := "cd"
  const DVD: string := "dvd"
  const BluRay: string := "bd"
  const SACD: string := "sacd"
  const New: string := "new"
  const Rings: string := "rings"
  const Dump: string := "dump"
  const DumpNew: string := "dumpnew"
  const Refine: string := "refine"
  const RefineNew: string := "refinenew"
  const Verify: string := "verify"
  const DVDKey: string := "dvdkey"
  const Eject: string := "eject"
  const DVDIsoKey: string := "dvdisokey"
  const Protection: string := "protection"
  const Split: string := "split"
  const Hash: string := "hash"
  const Info: string := "info"
  const Skeleton: string := "skeleton"
  const Debug: string := "debug"

  /** The mode words the parser accepts before the first flag (the cases of its mode switch). */
  predicate IsMode(part: string) {
    || part == CD || part == DVD || part == BluRay || part == SACD || part == New
    || part == Rings || part == Dump || part == DumpNew || part == Refine || part == RefineNew
    || part == Verify || part == DVDKey || part == Eject || part == DVDIsoKey || part == Protection
    || part == Split || part == Hash || part == Info || part == Skeleton || part == Debug
  }

  /** No mode word is empty or looks like a flag, so the placeholder is never taken for a mode. */
  lemma ModesAreNotFlags(part: string)
    requires IsMode(part)
    ensures |part| > 0 && part[0] != '-'
  {
  }
}
