/**
 * The commit record that flows through the whole pipeline. The commit source
 * delivers the list newest first; the easter-egg tagger later adds `index` and
 * `easterEggs`. The date is carried as the two integers the composer reads from
 * it: the epoch time in milliseconds and the local hour of day.
 */
module Commits {
  import opened Wrappers

  /** One keyword-triggered tag: the category key, its icon, its one-shot sound and its description. */
  datatype EggTag = EggTag(kind: string, icon: string, sound: string, description: string)

  datatype Commit = Commit(
    sha: string,
    message: string,
    author: string,
    epochMs: int,
    hour: int,
    filesChanged: nat,
    index: Option<nat>,
    easterEggs: seq<EggTag>)
}
