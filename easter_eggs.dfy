/**
 * The easter-egg tagger: a keyword scan over each commit message that
 * attaches zero or more decorative tags, each naming a one-shot sound.
 */
module EasterEggs {
  import opened Wrappers
  import opened JsText
  import opened Commits

  datatype Category = Category(key: string, keywords: seq<string>, icon: string, sound: string, description: string)

  /** The `EASTER_EGGS` table, in declaration order (which is the order of `Object.entries`). */
  const Table: seq<Category> := [
    Category("bug", ["fix", "bug", "error", "issue"], "\U{1F41B}", "scratch", "Bug fix"),
    Category("refactor", ["refactor", "cleanup", "reorganize"], "\U{267B}\U{FE0F}", "reverseCymbal", "Refactoring"),
    Category("breaking", ["breaking", "break", "major"], "\U{1F4A5}", "orchestralHit", "Breaking change"),
    Category("wip", ["wip", "temp", "todo", "hack"], "\U{1F6A7}", "drumRoll", "Work in progress"),
    Category("profanity", ["fuck", "shit", "damn", "hell"], "\U{1F514}", "cowbell", "Frustrated commit"),
    Category("merge", ["merge", "merged"], "\U{1F500}", "glitch", "Merge commit")
  ]

  /** `egg.keywords.some(keyword => message.includes(keyword))` on the lower-cased message. */
  predicate Found(lowered: string, cat: Category) {
    exists k :: 0 <= k < |cat.keywords| && Contains(lowered, cat.keywords[k])
  }

  /** `{ type: key, ...egg }`, keeping the fields the rest of the program reads. */
  function TagOf(cat: Category): EggTag {
    EggTag(cat.key, cat.icon, cat.sound, cat.description)
  }

  /** The tags the scan has pushed after looking at the first `n` categories. */
  function TagsUpTo(lowered: string, n: nat): seq<EggTag>
    requires n <= |Table|
  {
    if n == 0 then []
    else TagsUpTo(lowered, n - 1) + (if Found(lowered, Table[n - 1]) then [TagOf(Table[n - 1])] else [])
  }

  /** The tags of one message. */
  function TagsFor(message: string): seq<EggTag> {
    TagsUpTo(Lower(message), |Table|)
  }

  /** The inner scan: walk the categories in order, pushing a tag for each one whose keyword occurs. */
  method ScanCategories(message: string) returns (eggs: seq<EggTag>)
    ensures eggs == TagsFor(message)
  {
    var lowered := Lower(message);
    eggs := [];
    var i := 0;
    while i < |Table|
      invariant 0 <= i <= |Table|
      invariant eggs == TagsUpTo(lowered, i)
    {
      var egg := Table[i];
      if Found(lowered, egg) {
        eggs := eggs + [TagOf(egg)];
      }
      i := i + 1;
    }
  }

  /** `detectEasterEggs`: every commit kept in place, with its index and its tags added. */
  function DetectEasterEggs(commits: seq<Commit>): (r: seq<Commit>)
    ensures |r| == |commits|
    ensures forall k :: 0 <= k < |r| ==>
      && r[k].sha == commits[k].sha && r[k].message == commits[k].message
      && r[k].author == commits[k].author && r[k].epochMs == commits[k].epochMs
      && r[k].hour == commits[k].hour && r[k].filesChanged == commits[k].filesChanged
      && r[k].index == Some(k) && r[k].easterEggs == TagsFor(commits[k].message)
  {
    seq(|commits|, k requires 0 <= k < |commits| =>
      commits[k].(index := Some(k), easterEggs := TagsFor(commits[k].message)))
  }

  /** Position of a category key in the table (|Table| when absent). */
  function Rank(kind: string): (r: nat)
    ensures r <= |Table|
    ensures r < |Table| ==> Table[r].key == kind
  {
    if kind == "bug" then 0 else if kind == "refactor" then 1 else if kind == "breaking" then 2
    else if kind == "wip" then 3 else if kind == "profanity" then 4 else if kind == "merge" then 5
    else 6
  }

  lemma RankOfTable(j: nat)
    requires j < |Table|
    ensures Rank(Table[j].key) == j
  {
  }

  /**
   * What the scan of the first `n` categories holds: each tag is the tag of
   * a category that matched, each matching category has its tag, and the tags
   * come in strictly increasing table position.
   */
  lemma {:induction false} TagsUpToShape(lowered: string, n: nat)
    requires n <= |Table|
    ensures forall t :: t in TagsUpTo(lowered, n) ==>
              Rank(t.kind) < n && t == TagOf(Table[Rank(t.kind)]) && Found(lowered, Table[Rank(t.kind)])
    ensures forall j :: 0 <= j < n && Found(lowered, Table[j]) ==> TagOf(Table[j]) in TagsUpTo(lowered, n)
    ensures forall a, b :: 0 <= a < b < |TagsUpTo(lowered, n)| ==>
              Rank(TagsUpTo(lowered, n)[a].kind) < Rank(TagsUpTo(lowered, n)[b].kind)
  {
    if n > 0 {
      TagsUpToShape(lowered, n - 1);
      RankOfTable(n - 1);
      var prev := TagsUpTo(lowered, n - 1);
      var tags := TagsUpTo(lowered, n);
      forall a, b | 0 <= a < b < |tags| ensures Rank(tags[a].kind) < Rank(tags[b].kind) {
        if b < |prev| {
          assert tags[a] == prev[a] && tags[b] == prev[b];
        } else {
          assert tags[a] == prev[a] && prev[a] in prev;
        }
      }
    }
  }

  /** A category's tag is present exactly when one of its keywords occurs in the lower-cased message. */
  lemma TagPresentIff(message: string, c: nat)
    requires c < |Table|
    ensures TagOf(Table[c]) in TagsFor(message) <==> Found(Lower(message), Table[c])
    ensures (exists t :: t in TagsFor(message) && t.kind == Table[c].key) <==> Found(Lower(message), Table[c])
  {
    TagsUpToShape(Lower(message), |Table|);
    RankOfTable(c);
  }

  /** Tags follow table order, so no category contributes twice; each carries exactly its category's fields. */
  lemma TagsOrdered(message: string)
    ensures forall a, b :: 0 <= a < b < |TagsFor(message)| ==>
              Rank(TagsFor(message)[a].kind) < Rank(TagsFor(message)[b].kind)
    ensures forall a :: 0 <= a < |TagsFor(message)| ==>
              Rank(TagsFor(message)[a].kind) < |Table| && TagsFor(message)[a] == TagOf(Table[Rank(TagsFor(message)[a].kind)])
  {
    TagsUpToShape(Lower(message), |Table|);
    var tags := TagsFor(message);
    forall a | 0 <= a < |tags|
      ensures Rank(tags[a].kind) < |Table| && tags[a] == TagOf(Table[Rank(tags[a].kind)])
    {
      assert tags[a] in tags;
    }
  }

  /** A message gets no tag exactly when it contains no keyword at all. */
  lemma NoKeywordNoTags(message: string)
    ensures TagsFor(message) == [] <==> forall c :: 0 <= c < |Table| ==> !Found(Lower(message), Table[c])
  {
    TagsUpToShape(Lower(message), |Table|);
    if TagsFor(message) != [] {
      var t := TagsFor(message)[0];
      assert t in TagsFor(message);
    }
  }
}
