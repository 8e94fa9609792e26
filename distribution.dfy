/**
 * The "Team Distribution" chart: each category's tags flattened across the
 * members, the label axis `sorted(set(...))` of every tag in use, and the
 * per-label counts read from a `Counter` of each flattened list.
 */
module Distribution {
  import opened Profiles

  /** `[tag for member in team.values() for tag in member[category]]`. */
  function Flatten(r: Roster, c: Category): (s: seq<Tag>)
    ensures forall t :: t in s <==> exists i :: 0 <= i < |r| && t in r[i].profile.Tags(c)
  {
    if r == [] then []
    else
      var rest := Flatten(r[1..], c);
      assert forall i :: 1 <= i < |r| ==> r[i] == r[1..][i - 1];
      r[0].profile.Tags(c) + rest
  }

  /** The member uses the tag in one of its three lists. */
  predicate Uses(p: Profile, t: Tag)
  {
    t in p.genius || t in p.competency || t in p.frustration
  }

  /** Ascending by the tags' one-letter strings, with no repeats. */
  ghost predicate StrictlySorted(s: seq<Tag>)
  {
    forall i, j :: 0 <= i < j < |s| ==> Letter(s[i]) < Letter(s[j])
  }

  /** The alphabet in the order Python sorts the one-letter strings. */
  const LetterOrder: seq<Tag> := [D, E, G, I, T, W]

  lemma LetterOrderIsSortedAlphabet()
    ensures StrictlySorted(LetterOrder)
    ensures forall t: Tag :: t in LetterOrder
  {
    forall t: Tag ensures t in LetterOrder {
      match t
      case D => assert LetterOrder[0] == t;
      case E => assert LetterOrder[1] == t;
      case G => assert LetterOrder[2] == t;
      case I => assert LetterOrder[3] == t;
      case T => assert LetterOrder[4] == t;
      case W => assert LetterOrder[5] == t;
    }
  }

  /** The tags of `order` that occur in `s`, kept in the order of `order`. */
  function Select(order: seq<Tag>, s: seq<Tag>): (l: seq<Tag>)
    ensures forall t :: t in l <==> t in order && t in s
    ensures StrictlySorted(order) ==> StrictlySorted(l)
  {
    if order == [] then []
    else
      var rest := Select(order[1..], s);
      assert forall x :: 1 <= x < |order| ==> order[x] == order[1..][x - 1];
      if order[0] in s then
        assert StrictlySorted(order) ==> StrictlySorted([order[0]] + rest) by {
          if StrictlySorted(order) {
            forall j | 0 <= j < |rest| ensures Letter(order[0]) < Letter(rest[j]) {
              assert rest[j] in order[1..];
            }
          }
        }
        [order[0]] + rest
      else rest
  }

  /** `labels = sorted(set(all_geniuses + all_competencies + all_frustrations))`. */
  function Labels(r: Roster): (labels: seq<Tag>)
    ensures StrictlySorted(labels)
    ensures forall t :: t in labels <==> exists i :: 0 <= i < |r| && Uses(r[i].profile, t)
  {
    LetterOrderIsSortedAlphabet();
    var all := Flatten(r, Genius) + Flatten(r, Competency) + Flatten(r, Frustration);
    var labels := Select(LetterOrder, all);
    assert forall t :: t in labels <==> exists i :: 0 <= i < |r| && Uses(r[i].profile, t) by {
      forall t ensures t in labels <==> exists i :: 0 <= i < |r| && Uses(r[i].profile, t) {
        if t in labels {
          assert t in Flatten(r, Genius) || t in Flatten(r, Competency) || t in Flatten(r, Frustration);
        }
        if exists i :: 0 <= i < |r| && Uses(r[i].profile, t) {
          var i :| 0 <= i < |r| && Uses(r[i].profile, t);
          assert t in r[i].profile.Tags(Genius) || t in r[i].profile.Tags(Competency) || t in r[i].profile.Tags(Frustration);
        }
      }
    }
    labels
  }

  /**
   * Sorting the set of used tags has one possible outcome: any strictly
   * sorted sequence holding the same tags is the label axis.
   */
  lemma {:induction false} SortedSetUnique(a: seq<Tag>, b: seq<Tag>)
    requires StrictlySorted(a) && StrictlySorted(b)
    requires forall t :: t in a <==> t in b
    ensures a == b
  {
    assert (a == []) == (b == []) by {
      if a != [] { assert a[0] in b; }
      if b != [] { assert b[0] in a; }
    }
    if a != [] {
      FirstIsLeast(a, b[0]);
      FirstIsLeast(b, a[0]);
      LetterInjective(a[0], b[0]);
      forall t ensures t in a[1..] <==> t in b[1..] {
        if t in a[1..] {
          var x :| 1 <= x < |a| && a[x] == t;
          assert Letter(a[0]) < Letter(t);
          assert t in b;
          var y :| 0 <= y < |b| && b[y] == t;
          assert y != 0;
          assert b[1..][y - 1] == t;
        }
        if t in b[1..] {
          var x :| 1 <= x < |b| && b[x] == t;
          assert Letter(b[0]) < Letter(t);
          assert t in a;
          var y :| 0 <= y < |a| && a[y] == t;
          assert y != 0;
          assert a[1..][y - 1] == t;
        }
      }
      SortedSetUnique(a[1..], b[1..]);
      assert a == [a[0]] + a[1..] && b == [b[0]] + b[1..];
    }
  }

  lemma FirstIsLeast(s: seq<Tag>, t: Tag)
    requires StrictlySorted(s)
    requires t in s
    ensures Letter(s[0]) <= Letter(t)
  {
    var k :| 0 <= k < |s| && s[k] == t;
    if k != 0 {
      assert Letter(s[0]) < Letter(s[k]);
    }
  }

  /** The label axis is exactly `sorted(set(...))` of the tags in use. */
  lemma LabelsAreSortedUsedTags(r: Roster, l: seq<Tag>)
    requires StrictlySorted(l)
    requires forall t :: t in l <==> exists i :: 0 <= i < |r| && Uses(r[i].profile, t)
    ensures l == Labels(r)
  {
    SortedSetUnique(l, Labels(r));
  }

  /** `[counter[label] for label in labels]`; a `Counter` answers 0 for a missing key. */
  function Tally(labels: seq<Tag>, counter: multiset<Tag>): seq<nat>
  {
    seq(|labels|, k requires 0 <= k < |labels| => counter[labels[k]])
  }

  /** `g_counts`, `c_counts`, `f_counts`: the chart's bar heights for one category. */
  function Counts(r: Roster, c: Category): seq<nat>
  {
    Tally(Labels(r), multiset(Flatten(r, c)))
  }

  /** The number of positions of `s` holding `t`. */
  function Occurrences(s: seq<Tag>, t: Tag): nat
  {
    if s == [] then 0
    else (if s[0] == t then 1 else 0) + Occurrences(s[1..], t)
  }

  function Sum(s: seq<nat>): nat
  {
    if s == [] then 0 else s[0] + Sum(s[1..])
  }

  lemma {:induction false} CounterIsOccurrences(s: seq<Tag>, t: Tag)
    ensures multiset(s)[t] == Occurrences(s, t)
  {
    if s != [] {
      assert s == [s[0]] + s[1..];
      assert multiset(s) == multiset{s[0]} + multiset(s[1..]);
      CounterIsOccurrences(s[1..], t);
    }
  }

  /**
   * Each bar is the number of times its label occurs in the category's
   * flattened list, and a label the category never uses gets 0.
   */
  lemma CountsAreOccurrences(r: Roster, c: Category)
    ensures |Counts(r, c)| == |Labels(r)|
    ensures forall k :: 0 <= k < |Labels(r)| ==>
              Counts(r, c)[k] == Occurrences(Flatten(r, c), Labels(r)[k])
    ensures forall k :: 0 <= k < |Labels(r)| ==>
              (Counts(r, c)[k] == 0 <==> Labels(r)[k] !in Flatten(r, c))
  {
    forall k | 0 <= k < |Labels(r)|
      ensures Counts(r, c)[k] == Occurrences(Flatten(r, c), Labels(r)[k])
    {
      CounterIsOccurrences(Flatten(r, c), Labels(r)[k]);
    }
  }

  /** Every label has a bar of positive height in at least one category. */
  lemma EveryLabelIsCounted(r: Roster, k: nat)
    requires k < |Labels(r)|
    ensures Counts(r, Genius)[k] + Counts(r, Competency)[k] + Counts(r, Frustration)[k] > 0
  {
    var t := Labels(r)[k];
    assert t in Labels(r);
    var i :| 0 <= i < |r| && Uses(r[i].profile, t);
    if t in r[i].profile.Tags(Genius) {
      CountIsPositive(r, Genius, k, i);
    } else if t in r[i].profile.Tags(Competency) {
      CountIsPositive(r, Competency, k, i);
    } else {
      CountIsPositive(r, Frustration, k, i);
    }
  }

  lemma CountIsPositive(r: Roster, c: Category, k: nat, i: nat)
    requires k < |Labels(r)| && i < |r|
    requires Labels(r)[k] in r[i].profile.Tags(c)
    ensures Counts(r, c)[k] > 0
  {
    var t := Labels(r)[k];
    assert t in Flatten(r, c);
    assert Counts(r, c)[k] == multiset(Flatten(r, c))[t];
  }

  ghost predicate Distinct(s: seq<Tag>)
  {
    forall i, j :: 0 <= i < j < |s| ==> s[i] != s[j]
  }

  lemma {:induction false} TallyAddOne(labels: seq<Tag>, counter: multiset<Tag>, x: Tag)
    requires Distinct(labels)
    ensures Sum(Tally(labels, counter + multiset{x})) == Sum(Tally(labels, counter)) + (if x in labels then 1 else 0)
  {
    if labels != [] {
      assert Tally(labels, counter + multiset{x})[1..] == Tally(labels[1..], counter + multiset{x});
      assert Tally(labels, counter)[1..] == Tally(labels[1..], counter);
      TallyAddOne(labels[1..], counter, x);
      assert x in labels <==> x == labels[0] || x in labels[1..];
      assert labels[0] !in labels[1..];
    }
  }

  lemma {:induction false} TallyTotal(labels: seq<Tag>, s: seq<Tag>)
    requires Distinct(labels)
    requires forall t :: t in s ==> t in labels
    ensures Sum(Tally(labels, multiset(s))) == |s|
  {
    if s == [] {
      assert Tally(labels, multiset(s)) == Tally(labels, multiset{});
      TallyOfEmpty(labels);
    } else {
      var init := s[..|s| - 1];
      assert s == init + [s[|s| - 1]];
      assert multiset(s) == multiset(init) + multiset{s[|s| - 1]};
      TallyTotal(labels, init);
      TallyAddOne(labels, multiset(init), s[|s| - 1]);
    }
  }

  lemma {:induction false} TallyOfEmpty(labels: seq<Tag>)
    ensures Sum(Tally(labels, multiset{})) == 0
  {
    if labels != [] {
      assert Tally(labels, multiset{})[1..] == Tally(labels[1..], multiset{});
      TallyOfEmpty(labels[1..]);
    }
  }

  /**
   * A category's bars add up to the length of its flattened list: every
   * tag entry of every member is counted once, under its own label.
   */
  lemma CountsSumToEntries(r: Roster, c: Category)
    ensures Sum(Counts(r, c)) == |Flatten(r, c)|
  {
    var labels := Labels(r);
    forall t | t in Flatten(r, c) ensures t in labels {
      var i :| 0 <= i < |r| && t in r[i].profile.Tags(c);
      assert Uses(r[i].profile, t);
    }
    forall i, j | 0 <= i < j < |labels| ensures labels[i] != labels[j] {
      assert Letter(labels[i]) < Letter(labels[j]);
    }
    TallyTotal(labels, Flatten(r, c));
  }
}
