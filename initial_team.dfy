/**
 * The page's starting roster worked through the model: the flattened
 * lists and label axis of the distribution chart, the stacked bar of the
 * first project phase, and the edge overwrite on a tag held twice.
 */
module InitialTeamFacts {
  import opened Profiles
  import opened Distribution
  import opened PhaseCoverage
  import opened RelationshipMap

  /** The flattened lists of the starting roster, members in order. */
  lemma InitialFlattened()
    ensures Flatten(InitialTeam(), Genius) == [G, T, I, D, I, D, W, E]
    ensures Flatten(InitialTeam(), Competency) == [I, D, G, E, G, T, D, I]
    ensures Flatten(InitialTeam(), Frustration) == [W, E, W, T, W, E, G, T]
  {
    var r := InitialTeam();
    assert r[1..][1..] == r[2..] && r[2..][1..] == r[3..];
    assert Flatten(r[3..], Genius) == [W, E];
    assert Flatten(r[2..], Genius) == [I, D, W, E];
    assert Flatten(r[1..], Genius) == [I, D, I, D, W, E];
    assert Flatten(r[3..], Competency) == [D, I];
    assert Flatten(r[2..], Competency) == [G, T, D, I];
    assert Flatten(r[1..], Competency) == [G, E, G, T, D, I];
    assert Flatten(r[3..], Frustration) == [G, T];
    assert Flatten(r[2..], Frustration) == [W, E, G, T];
    assert Flatten(r[1..], Frustration) == [W, T, W, E, G, T];
  }

  /** Every tag is used by the starting roster, so the axis has all six. */
  lemma InitialLabels()
    ensures Labels(InitialTeam()) == [D, E, G, I, T, W]
  {
    var r := InitialTeam();
    forall t ensures t in [D, E, G, I, T, W] <==> exists i :: 0 <= i < |r| && Uses(r[i].profile, t) {
      assert r[0].profile == Profile([G, T], [I, D], [W, E]);
      assert Uses(r[0].profile, t) by {
        match t
        case G => assert r[0].profile.genius[0] == t;
        case T => assert r[0].profile.genius[1] == t;
        case I => assert r[0].profile.competency[0] == t;
        case D => assert r[0].profile.competency[1] == t;
        case W => assert r[0].profile.frustration[0] == t;
        case E => assert r[0].profile.frustration[1] == t;
      }
      assert t in [D, E, G, I, T, W] by { match t case _ => }
    }
    LabelsAreSortedUsedTags(r, [D, E, G, I, T, W]);
  }

  /** Ideation needs W and I: Anne 0.5, Molly 1.0, Allison 1.0, Kris 1.5. */
  lemma InitialTeamIdeation()
    ensures Stacked(InitialTeam(), [W, I]) ==
              [Segment("Anne", 0.0, 0.5), Segment("Molly", 0.5, 1.0), Segment("Allison", 1.5, 1.0), Segment("Kris", 2.5, 1.5)]
    ensures TotalWeight(InitialTeam(), [W, I]) == 4.0
  {
    var r, needed := InitialTeam(), [W, I];
    assert needed[..1] == [W];
    assert PhaseWeight(r[0].profile, needed) == 0.5;
    assert PhaseWeight(r[1].profile, needed) == 1.0;
    assert PhaseWeight(r[2].profile, needed) == 1.0;
    assert PhaseWeight(r[3].profile, needed) == 1.5;
    assert r[..1][..0] == [];
    assert r[..2][..1] == r[..1];
    assert r[..3][..2] == r[..2];
    assert r[..4][..3] == r[..3];
    assert r[..4] == r;
    assert TotalWeight(r[..1], needed) == 0.5;
    assert TotalWeight(r[..2], needed) == 1.5;
    assert TotalWeight(r[..3], needed) == 2.5;
    assert Stacked(r[..1], needed) == [Segment("Anne", 0.0, 0.5)];
    assert Stacked(r[..2], needed) == [Segment("Anne", 0.0, 0.5), Segment("Molly", 0.5, 1.0)];
    assert Stacked(r[..3], needed) ==
             [Segment("Anne", 0.0, 0.5), Segment("Molly", 0.5, 1.0), Segment("Allison", 1.5, 1.0)];
  }

  /** A tag held as both Genius and Competency keeps one edge, marked Competency. */
  lemma DoubleTagKeepsLastRelation()
    ensures Edges([Entry("Anne", Profile([G, T], [G], []))]) ==
              map[("Anne", G) := Competency, ("Anne", T) := Genius]
  {
    var r := [Entry("Anne", Profile([G, T], [G], []))];
    assert r[..0] == [] && [G, T][..1] == [G] && [G][..0] == [];
    var afterGenius := WithRelation(map[], "Anne", [G, T], Genius);
    assert afterGenius == map[("Anne", G) := Genius, ("Anne", T) := Genius];
    var afterCompetency := WithRelation(afterGenius, "Anne", [G], Competency);
    assert afterCompetency == map[("Anne", G) := Competency, ("Anne", T) := Genius];
    assert Edges(r) == WithRelation(afterCompetency, "Anne", [], Frustration);
  }
}
