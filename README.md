# Working Genius team model in Dafny

This project models the domain logic of the "MM Leadership – Working Genius
Team Model" dashboard (`app.py`), a page for a small team. Each member has
three lists of Working Genius tags: Genius, Competency and Frustration. The
tags come from the six-letter alphabet W, I, D, G, E, T. The page does four
things with the team, and each one is a module here:

- `Profiles` (`profiles.dfy`): the tags, profiles and the `team` dictionary.
  The dictionary is a sequence of `(name, profile)` entries in insertion
  order. `WellFormed` says that each name occurs once, as in a Python dict.
  `Lookup` is `team[member]`. The class `Team` holds the dictionary. Its
  method `ApplySelections` is the sidebar loop, which overwrites every
  member's three lists with what the multiselect widgets return.
- `Distribution` (`distribution.dfy`): each category's tags flattened
  across the members. The label axis is `sorted(set(...))` of every tag in
  use, and the per-label counts are read from a `Counter` (a multiset).
- `PhaseCoverage` (`coverage.dfy`): the fixed `project_phases` table and the
  weighted coverage loop. A member's weight for a phase adds 1.0 for each
  needed tag in its Genius list, and otherwise 0.5 if the tag is in its
  Competency list. Members with a positive weight get a bar segment that
  rests on the running `bottom`. Weights are exact `real`s.
- `RelationshipMap` (`relationships.dfy`): the relationship graph. The
  class `RelationshipGraph` has a node map (name to `type` attribute) and
  an edge map keyed by (member, tag). `BuildGraph` adds the member nodes,
  then all six tag nodes, then an edge for every tag of every list, in the
  order Genius, Competency, Frustration. As in a simple `networkx` graph,
  drawing a pair again overwrites its `relation`, so the last category
  wins.
- `InitialTeamFacts` (`initial_team.dfy`): the page's starting roster worked
  through the model, plus one example of the relation overwrite.

## Model

| member | source | states |
|---|---|---|
| `Profiles.Lookup` | app.py:34-37 | `team[member]`: None exactly when no entry has the name; otherwise the profile of an entry with that name |
| `Profiles.LookupFindsEntry` | app.py:37 | in a dictionary with unique keys, looking up an entry's name yields that entry's profile |
| `Profiles.Reselected` | app.py:32-37 | the roster after the sidebar loop has the same length, and entry i keeps its name and gets, per category, the widget's selection (or the current list when the widget returned its default) |
| `Profiles.ReselectedReplacesOnlyLists` | app.py:32-37 | the sidebar loop keeps the roster a dictionary and keeps every member name and position; a member's lookup gives exactly the chosen lists, and an absent name stays absent |
| `Profiles.Team.constructor` | app.py:15-20 | the team starts as the four hard-coded members with their three lists each |
| `Profiles.Team.ApplySelections` | app.py:32-37 | the loop's in-place updates leave the team equal to `Reselected` of the old team |
| `Distribution.Flatten` | app.py:40-42 | a tag is in a category's flattened list exactly when some member has it in that category's list |
| `Distribution.Labels` | app.py:45 | the label axis is strictly ascending by letter (so it has no repeats) and holds exactly the tags some member uses in any category |
| `Distribution.SortedSetUnique` | app.py:45 | two strictly sorted tag sequences with the same elements are equal, so sorting a set has one outcome |
| `Distribution.LabelsAreSortedUsedTags` | app.py:45 | any strictly sorted sequence of exactly the used tags is the label axis, i.e. `Labels` is `sorted(set(...))` |
| `Distribution.CounterIsOccurrences` | app.py:46-48 | a `Counter` entry is the number of positions of the list that hold the tag |
| `Distribution.CountsAreOccurrences` | app.py:46-52 | each category's count list is as long as the label axis; each count is the number of occurrences of its label in that category's flattened list, and it is 0 exactly when the category never uses the label |
| `Distribution.EveryLabelIsCounted` | app.py:45-52 | every label has a positive count in at least one of the three categories |
| `Distribution.CountsSumToEntries` | app.py:40-52 | a category's counts over the labels add up to the length of its flattened list, the number of tag entries of all members |
| `PhaseCoverage.PhaseWeight` | app.py:84-89 | a member's weight for a phase lies between 0 and the number of needed tags, and it is 0 exactly when no needed tag is in its Genius or Competency list |
| `PhaseCoverage.PhaseWeightByMatches` | app.py:84-89 | for distinct needed tags the weight is 1.0 per needed tag in Genius plus 0.5 per needed tag in Competency but not Genius; a tag in both counts 1.0 |
| `PhaseCoverage.PhaseTableHasDistinctTags` | app.py:70-76 | every phase of the table needs distinct tags, so the previous property applies to all of them |
| `PhaseCoverage.PhaseWeightIgnoresFrustration` | app.py:84-89 | replacing a member's Frustration list never changes its weight |
| `PhaseCoverage.MemberWeight` | app.py:84-89 | the inner loop's accumulated `weight` is the member's phase weight |
| `PhaseCoverage.TotalWeight` | app.py:82-92 | the phase total lies between 0 and members × needed tags |
| `PhaseCoverage.StackedIsOneStack` | app.py:82-92 | the segments form one stack: the first rests on 0, each next rests on the top of the previous one, every height is positive (so `bottom` only grows), and the stack reaches the sum of all members' weights |
| `PhaseCoverage.StackedMembers` | app.py:83-92 | a member has a segment exactly when its weight is positive; zero-weight members add none |
| `PhaseCoverage.SegmentsBelongToMembers` | app.py:90-92 | every segment belongs to a roster member and is as tall as that member's weight |
| `PhaseCoverage.StackPhase` | app.py:82-92 | the member loop produces the stacked segments, and its final `bottom` is the sum of all members' weights |
| `PhaseCoverage.WeightedCoverage` | app.py:81-92 | the phase loop yields one bar per phase, in table order, each with that phase's segments and total |
| `RelationshipMap.MemberNodesAdded` | app.py:108-109 | adding member nodes adds a node for each member and nothing else, each typed 'member' |
| `RelationshipMap.TagNodesAdded` | app.py:110-111 | adding tag nodes adds one node per tag, typed 'genius', and leaves other nodes' types alone |
| `RelationshipMap.NodesOfMap` | app.py:108-111 | the nodes are exactly the members and all six tags, used or not; tags are typed 'genius', and members are typed 'member' unless named like a tag |
| `RelationshipMap.EndpointsAreNodes` | app.py:108-120 | every member and every tag is a node before the first edge is drawn |
| `RelationshipMap.WithEndpoints` | app.py:114-120 | drawing edges between existing nodes adds no node |
| `RelationshipMap.RelationAdded` | app.py:115-120 | drawing a list adds an edge from the member to each of its tags and overwrites the relation of a pair already present; every other edge is kept |
| `RelationshipMap.EdgesAreLastRelations` | app.py:114-120 | there is exactly one edge per (member, tag) pair found in any of the member's lists; its relation is the last of Genius, Competency, Frustration whose list holds the tag |
| `RelationshipMap.RelationshipGraph.constructor` | app.py:105 | a new graph has no nodes and no edges |
| `RelationshipMap.RelationshipGraph.AddNode` | app.py:108-111 | `add_node` adds the node or overwrites its type and leaves the edges alone |
| `RelationshipMap.RelationshipGraph.AddEdge` | app.py:116 | `add_edge` sets the pair's relation, overwriting any earlier one, and adds missing endpoints without a type |
| `RelationshipMap.RelationshipGraph.AddRelations` | app.py:115-116 | one inner edge loop gives the edges and nodes of `WithRelation` and `WithEndpoints` |
| `RelationshipMap.AddAllNodes` | app.py:108-111 | the two node loops add the member nodes, then the six tag nodes |
| `RelationshipMap.BuildGraph` | app.py:105-120 | the built graph's nodes are `Nodes(r)` and its edges are `Edges(r)`, which the lemmas above characterise |
| `InitialTeamFacts.InitialFlattened` | app.py:40-42 | the starting roster flattens to G,T,I,D,I,D,W,E (Genius), I,D,G,E,G,T,D,I (Competency) and W,E,W,T,W,E,G,T (Frustration) |
| `InitialTeamFacts.InitialLabels` | app.py:45 | the starting roster's label axis is D, E, G, I, T, W |
| `InitialTeamFacts.InitialTeamIdeation` | app.py:81-92 | Ideation stacks Anne 0.5 at 0, Molly 1.0 at 0.5, Allison 1.0 at 1.5 and Kris 1.5 at 2.5, for a total of 4.0 |
| `InitialTeamFacts.DoubleTagKeepsLastRelation` | app.py:114-120 | a tag in both Genius and Competency leaves one edge, marked Competency |

## Left out

- Page setup, titles and sidebar widgets are not modelled; the multiselect results are an input map. This is framework behaviour. A widget with no entry in the map returns the member's current list, as its `default` does.
- Matplotlib rendering is not modelled: figure sizes, bar widths and positions, ticks, titles, legends and `st.pyplot`. Of each coverage bar the model keeps the member, its `bottom` and its height.
- The `member_colors` table, the legend built from it, and the per-relation edge colours and styles are not modelled. They are presentation only.
- `nx.spring_layout` and the node and edge drawing are not modelled. This is a third-party floating-point layout.
- The JSON export and download button are not modelled. This is library serialisation and file delivery.
- RelationshipMap.BuildGraph: edges are keyed by the ordered pair (member, tag), not by networkx's unordered node pair. The two differ only for a member whose name is a tag letter: there networkx would draw a self-loop or merge two members' edges.
- Tags are a closed datatype. A string outside the six letters cannot be represented, but the widgets only offer those six.
- Floating-point weights are modelled as exact reals. The source only adds 1.0 and 0.5 to small totals, which binary floating point represents exactly.
- The repository's other dashboard variants are not part of this model. They hold the Genius-count policy, the any-match membership policy and the Genius-only single-list profile.
