/**
 * The "Team Coverage per Project Phase" chart: a fixed table of phases and
 * the tags each one needs, a weight per member and phase (1.0 per needed tag
 * the member has as Genius, otherwise 0.5 if it is a Competency), and the
 * stacked bar of each phase, one segment per member with positive weight,
 * each segment resting on the running `bottom`.
 */
module PhaseCoverage {
  import opened Profiles

  datatype Phase = Phase(name: string, needed: seq<Tag>)

  /** `project_phases`, in the dictionary's order. */
  const ProjectPhases: seq<Phase> := [
    Phase("Ideation", [W, I]),
    Phase("Vetting", [D]),
    Phase("Launch Planning", [G]),
    Phase("Execution", [G, T]),
    Phase("Stabilization", [E, T])
  ]

  /** What one needed tag adds to a member's weight; Genius takes precedence. */
  function TagWeight(p: Profile, t: Tag): real
  {
    if t in p.genius then 1.0
    else if t in p.competency then 0.5
    else 0.0
  }

  /** A member's weight for a phase: the sum over the needed tags. */
  function PhaseWeight(p: Profile, needed: seq<Tag>): (w: real)
    ensures 0.0 <= w <= |needed| as real
    ensures w == 0.0 <==> forall t :: t in needed ==> t !in p.genius && t !in p.competency
  {
    if needed == [] then 0.0
    else
      var init := needed[..|needed| - 1];
      assert forall t :: t in needed <==> t in init || t == needed[|needed| - 1];
      PhaseWeight(p, init) + TagWeight(p, needed[|needed| - 1])
  }

  /** The needed tags the member has as Genius. */
  function GeniusMatches(p: Profile, needed: seq<Tag>): set<Tag>
  {
    set t | t in needed && t in p.genius
  }

  /** The needed tags the member has as Competency but not as Genius. */
  function CompetencyOnlyMatches(p: Profile, needed: seq<Tag>): set<Tag>
  {
    set t | t in needed && t !in p.genius && t in p.competency
  }

  ghost predicate Distinct(s: seq<Tag>)
  {
    forall i, j :: 0 <= i < j < |s| ==> s[i] != s[j]
  }

  /**
   * For a phase whose needed tags are distinct (every phase of the table),
   * the weight is one point per Genius match and half a point per tag held
   * only as Competency: a tag in both lists counts once, as Genius.
   */
  lemma {:induction false} PhaseWeightByMatches(p: Profile, needed: seq<Tag>)
    requires Distinct(needed)
    ensures PhaseWeight(p, needed) ==
              |GeniusMatches(p, needed)| as real + 0.5 * |CompetencyOnlyMatches(p, needed)| as real
  {
    if needed == [] {
      assert GeniusMatches(p, needed) == {};
      assert CompetencyOnlyMatches(p, needed) == {};
    } else {
      var init, x := needed[..|needed| - 1], needed[|needed| - 1];
      assert needed == init + [x];
      assert x !in init;
      PhaseWeightByMatches(p, init);
      if x in p.genius {
        assert GeniusMatches(p, needed) == GeniusMatches(p, init) + {x};
        assert CompetencyOnlyMatches(p, needed) == CompetencyOnlyMatches(p, init);
      } else if x in p.competency {
        assert GeniusMatches(p, needed) == GeniusMatches(p, init);
        assert CompetencyOnlyMatches(p, needed) == CompetencyOnlyMatches(p, init) + {x};
      } else {
        assert GeniusMatches(p, needed) == GeniusMatches(p, init);
        assert CompetencyOnlyMatches(p, needed) == CompetencyOnlyMatches(p, init);
      }
    }
  }

  lemma PhaseTableHasDistinctTags(k: nat)
    requires k < |ProjectPhases|
    ensures Distinct(ProjectPhases[k].needed)
  {
  }

  /** The member's Frustration list never changes its weight. */
  lemma {:induction false} PhaseWeightIgnoresFrustration(p: Profile, frustration: seq<Tag>, needed: seq<Tag>)
    ensures PhaseWeight(p.(frustration := frustration), needed) == PhaseWeight(p, needed)
  {
    if needed != [] {
      PhaseWeightIgnoresFrustration(p, frustration, needed[..|needed| - 1]);
    }
  }

  /** The inner loop: the weight of one member for one phase. */
  method MemberWeight(p: Profile, needed: seq<Tag>) returns (weight: real)
    ensures weight == PhaseWeight(p, needed)
  {
    weight := 0.0;
    for k := 0 to |needed|
      invariant weight == PhaseWeight(p, needed[..k])
    {
      assert needed[..k + 1][..k] == needed[..k];
      if needed[k] in p.genius {
        weight := weight + 1.0;
      } else if needed[k] in p.competency {
        weight := weight + 0.5;
      }
    }
    assert needed[..|needed|] == needed;
  }

  /** The phase's total: the sum of every member's weight. */
  function TotalWeight(r: Roster, needed: seq<Tag>): (total: real)
    ensures 0.0 <= total <= (|r| * |needed|) as real
  {
    if r == [] then 0.0
    else
      var n := |needed|;
      assert (|r| - 1) * n + n == |r| * n;
      TotalWeight(r[..|r| - 1], needed) + PhaseWeight(r[|r| - 1].profile, needed)
  }

  /** One `ax2.bar(phase, weight, bottom=bottom)` call: a member's segment. */
  datatype Segment = Segment(member: Name, base: real, height: real)

  /** The segments of one phase's bar, in roster order. */
  function Stacked(r: Roster, needed: seq<Tag>): seq<Segment>
  {
    if r == [] then []
    else
      var e := r[|r| - 1];
      var w := PhaseWeight(e.profile, needed);
      var below := Stacked(r[..|r| - 1], needed);
      if w > 0.0 then below + [Segment(e.name, TotalWeight(r[..|r| - 1], needed), w)] else below
  }

  /** The height the stack reaches: the top of its last segment, or 0. */
  function Top(s: seq<Segment>): real
  {
    if s == [] then 0.0 else s[|s| - 1].base + s[|s| - 1].height
  }

  /**
   * The segments of a phase form one stack: the first rests on 0, each
   * next one on the top of the one before, every segment has positive
   * height (so `bottom` only grows), and the stack reaches the phase total.
   */
  lemma {:induction false} StackedIsOneStack(r: Roster, needed: seq<Tag>)
    ensures var s := Stacked(r, needed);
      && (|s| > 0 ==> s[0].base == 0.0)
      && (forall k :: 0 <= k < |s| - 1 ==> s[k + 1].base == s[k].base + s[k].height)
      && (forall k :: 0 <= k < |s| ==> s[k].height > 0.0)
      && Top(s) == TotalWeight(r, needed)
  {
    if r != [] {
      StackedIsOneStack(r[..|r| - 1], needed);
    }
  }

  /** Member `m` has a segment in the stack `s`. */
  predicate HasSegment(s: seq<Segment>, m: Name)
  {
    exists k :: 0 <= k < |s| && s[k].member == m
  }

  /** The segment belongs to a member of `r` and is as tall as its weight. */
  predicate SegmentOfMember(r: Roster, needed: seq<Tag>, seg: Segment)
  {
    exists i :: 0 <= i < |r| && seg.member == r[i].name && seg.height == PhaseWeight(r[i].profile, needed)
  }

  /** A member has a segment exactly when its weight is positive. */
  lemma {:induction false} StackedMembers(r: Roster, needed: seq<Tag>)
    requires WellFormed(r)
    ensures forall i :: 0 <= i < |r| ==>
              (PhaseWeight(r[i].profile, needed) > 0.0 <==> HasSegment(Stacked(r, needed), r[i].name))
  {
    if r != [] {
      var init, e := r[..|r| - 1], r[|r| - 1];
      StackedMembers(init, needed);
      SegmentsBelongToMembers(init, needed);
      var below := Stacked(init, needed);
      var s := Stacked(r, needed);
      assert forall k :: 0 <= k < |below| ==> s[k] == below[k];
      forall k | 0 <= k < |below| ensures below[k].member != e.name {
        assert SegmentOfMember(init, needed, below[k]);
        var i :| 0 <= i < |init| && below[k].member == init[i].name;
        assert r[i] == init[i];
      }
      forall i | 0 <= i < |r|
        ensures PhaseWeight(r[i].profile, needed) > 0.0 <==> HasSegment(s, r[i].name)
      {
        if i < |r| - 1 {
          assert r[i] == init[i];
          assert r[i].name != e.name;
          if PhaseWeight(r[i].profile, needed) > 0.0 {
            assert HasSegment(below, init[i].name);
            var k :| 0 <= k < |below| && below[k].member == init[i].name;
            assert s[k].member == r[i].name;
          }
          if HasSegment(s, r[i].name) {
            var k :| 0 <= k < |s| && s[k].member == r[i].name;
            assert k < |below|;
            assert below[k].member == init[i].name;
            assert HasSegment(below, init[i].name);
          }
        } else if PhaseWeight(e.profile, needed) > 0.0 {
          assert s[|below|].member == e.name;
        } else {
          assert s == below;
        }
      }
    }
  }

  /** Every segment is some member's, as tall as that member's weight. */
  lemma {:induction false} SegmentsBelongToMembers(r: Roster, needed: seq<Tag>)
    ensures forall k :: 0 <= k < |Stacked(r, needed)| ==> SegmentOfMember(r, needed, Stacked(r, needed)[k])
  {
    var s := Stacked(r, needed);
    if r == [] {
      assert s == [];
    } else {
      var init := r[..|r| - 1];
      SegmentsBelongToMembers(init, needed);
      var below := Stacked(init, needed);
      forall k | 0 <= k < |s| ensures SegmentOfMember(r, needed, s[k]) {
        if k < |below| {
          assert SegmentOfMember(init, needed, below[k]);
          var i :| 0 <= i < |init| && below[k].member == init[i].name &&
                   below[k].height == PhaseWeight(init[i].profile, needed);
          assert r[i] == init[i];
          assert s[k] == below[k];
        } else {
          assert s[k].member == r[|r| - 1].name;
          assert s[k].height == PhaseWeight(r[|r| - 1].profile, needed);
        }
      }
    }
  }

  /** The member loop of one phase: segments and the final `bottom`. */
  method StackPhase(r: Roster, needed: seq<Tag>) returns (segments: seq<Segment>, bottom: real)
    ensures segments == Stacked(r, needed)
    ensures bottom == TotalWeight(r, needed)
  {
    segments, bottom := [], 0.0;
    for i := 0 to |r|
      invariant segments == Stacked(r[..i], needed)
      invariant bottom == TotalWeight(r[..i], needed)
    {
      assert r[..i + 1][..i] == r[..i];
      var weight := MemberWeight(r[i].profile, needed);
      if weight > 0.0 {
        segments := segments + [Segment(r[i].name, bottom, weight)];
        bottom := bottom + weight;
      }
    }
    assert r[..|r|] == r;
  }

  /** One phase's bar: its segments and the height it reaches. */
  datatype PhaseBar = PhaseBar(phase: string, segments: seq<Segment>, height: real)

  /** The phase loop: one stacked bar per phase, in the table's order. */
  method WeightedCoverage(r: Roster, phases: seq<Phase>) returns (bars: seq<PhaseBar>)
    ensures |bars| == |phases|
    ensures forall k :: 0 <= k < |phases| ==>
              bars[k] == PhaseBar(phases[k].name, Stacked(r, phases[k].needed), TotalWeight(r, phases[k].needed))
  {
    bars := [];
    for k := 0 to |phases|
      invariant |bars| == k
      invariant forall j :: 0 <= j < k ==>
                  bars[j] == PhaseBar(phases[j].name, Stacked(r, phases[j].needed), TotalWeight(r, phases[j].needed))
    {
      var segments, bottom := StackPhase(r, phases[k].needed);
      bars := bars + [PhaseBar(phases[k].name, segments, bottom)];
    }
  }
}
