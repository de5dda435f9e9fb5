/**
 * The commit-to-section lookup both generators build before scheduling:
 * every commit of every section, keyed by sha, later sections overwriting
 * earlier ones.
 */
module SectionMap {
  import opened Commits
  import opened SongStructure

  function ShasOf(commits: seq<Commit>): set<string> {
    set k | 0 <= k < |commits| :: commits[k].sha
  }

  /** Every sha of `commits` pointing at `section`. */
  function Tagged(section: Section, commits: seq<Commit>): map<string, Section> {
    map sha | sha in ShasOf(commits) :: section
  }

  /** The map after the sections in order have been entered; right-hand entries win. */
  function ShaMap(sections: seq<Section>): map<string, Section> {
    if |sections| == 0 then map[]
    else ShaMap(sections[..|sections| - 1]) + Tagged(sections[|sections| - 1], sections[|sections| - 1].commits)
  }

  lemma TaggedStep(section: Section, commits: seq<Commit>, j: nat)
    requires j < |commits|
    ensures Tagged(section, commits[..j + 1]) == Tagged(section, commits[..j])[commits[j].sha := section]
  {
    assert ShasOf(commits[..j + 1]) == ShasOf(commits[..j]) + {commits[j].sha} by {
      assert forall k :: 0 <= k < j ==> commits[..j + 1][k] == commits[..j][k];
    }
  }

  lemma UnionUpdate(a: map<string, Section>, b: map<string, Section>, k: string, v: Section)
    ensures (a + b)[k := v] == a + b[k := v]
  {
  }

  lemma ShaMapStep(sections: seq<Section>, i: nat)
    requires i < |sections|
    ensures ShaMap(sections[..i + 1]) == ShaMap(sections[..i]) + Tagged(sections[i], sections[i].commits)
  {
    assert sections[..i + 1][..i] == sections[..i];
  }

  /** The nested `forEach` with `commitToSection.set(commit.sha, section)`. */
  method BuildSectionMap(sections: seq<Section>) returns (commitToSection: map<string, Section>)
    ensures commitToSection == ShaMap(sections)
  {
    commitToSection := map[];
    var i := 0;
    while i < |sections|
      invariant 0 <= i <= |sections|
      invariant commitToSection == ShaMap(sections[..i])
    {
      var section := sections[i];
      ghost var before := commitToSection;
      var j := 0;
      while j < |section.commits|
        invariant 0 <= j <= |section.commits|
        invariant commitToSection == before + Tagged(section, section.commits[..j])
      {
        TaggedStep(section, section.commits, j);
        UnionUpdate(before, Tagged(section, section.commits[..j]), section.commits[j].sha, section);
        commitToSection := commitToSection[section.commits[j].sha := section];
        j := j + 1;
      }
      assert section.commits[..j] == section.commits;
      ShaMapStep(sections, i);
      i := i + 1;
    }
    assert sections[..i] == sections;
  }

  /**
   * A sha is mapped exactly when some section holds a commit with it, and it
   * is mapped to the last such section in push order.
   */
  lemma {:induction false} LastSectionWins(sections: seq<Section>, sha: string)
    ensures sha in ShaMap(sections) <==> exists k :: 0 <= k < |sections| && sha in ShasOf(sections[k].commits)
    ensures sha in ShaMap(sections) ==>
      exists k :: 0 <= k < |sections| && ShaMap(sections)[sha] == sections[k] && sha in ShasOf(sections[k].commits)
        && forall j :: k < j < |sections| ==> sha !in ShasOf(sections[j].commits)
  {
    if |sections| > 0 {
      var init := sections[..|sections| - 1];
      var last := sections[|sections| - 1];
      LastSectionWins(init, sha);
      if sha in ShasOf(last.commits) {
        assert ShaMap(sections)[sha] == last;
      } else if sha in ShaMap(init) {
        var k :| 0 <= k < |init| && ShaMap(init)[sha] == init[k] && sha in ShasOf(init[k].commits)
          && forall j :: k < j < |init| ==> sha !in ShasOf(init[j].commits);
        assert sections[k] == init[k];
        assert forall j :: k < j < |sections| ==> sha !in ShasOf(sections[j].commits) by {
          forall j | k < j < |sections| ensures sha !in ShasOf(sections[j].commits) {
            if j < |init| { assert sections[j] == init[j]; }
          }
        }
      } else {
        forall k | 0 <= k < |sections| ensures sha !in ShasOf(sections[k].commits) {
          if k < |init| { assert sections[k] == init[k]; }
        }
      }
      if exists k :: 0 <= k < |sections| && sha in ShasOf(sections[k].commits) {
        var k :| 0 <= k < |sections| && sha in ShasOf(sections[k].commits);
        if k < |init| { assert sections[k] == init[k]; }
      }
    }
  }
}
