/**
 * The team roster of the Working Genius dashboard: the six Working Genius
 * tags, a member's three tag lists, the roster as an insertion-ordered
 * mapping from member name to profile, and the sidebar loop that overwrites
 * every member's lists with the current widget selections.
 */
module Profiles {

  datatype Option<T> = None | Some(value: T)

  /** Wonder, Invention, Discernment, Galvanizing, Enablement, Tenacity. */
  datatype Tag = W | I | D | G | E | T

  /** The widget options, in the order the page lists them. */
  const Alphabet: seq<Tag> := [W, I, D, G, E, T]

  /** The one-letter string the page uses for a tag. */
  function Letter(t: Tag): char
  {
    match t
    case W => 'W'
    case I => 'I'
    case D => 'D'
    case G => 'G'
    case E => 'E'
    case T => 'T'
  }

  lemma LetterInjective(a: Tag, b: Tag)
    ensures Letter(a) == Letter(b) <==> a == b
  {
  }

  datatype Category = Genius | Competency | Frustration

  /** One member's profile: the tag list of each category, in selection order. */
  datatype Profile = Profile(genius: seq<Tag>, competency: seq<Tag>, frustration: seq<Tag>)
  {
    function Tags(c: Category): seq<Tag>
    {
      match c
      case Genius => genius
      case Competency => competency
      case Frustration => frustration
    }
  }

  type Name = string

  datatype Entry = Entry(name: Name, profile: Profile)

  /**
   * The `team` dictionary: its entries in insertion order. A dictionary
   * holds each key once, which is what WellFormed says.
   */
  type Roster = seq<Entry>

  ghost predicate WellFormed(r: Roster)
  {
    forall i, j :: 0 <= i < j < |r| ==> r[i].name != r[j].name
  }

  /** `team[member]`: None where Python raises KeyError. */
  function Lookup(r: Roster, m: Name): (o: Option<Profile>)
    ensures o.None? <==> forall i :: 0 <= i < |r| ==> r[i].name != m
    ensures o.Some? ==> exists i :: 0 <= i < |r| && r[i] == Entry(m, o.value)
  {
    if r == [] then None
    else if r[|r| - 1].name == m then Some(r[|r| - 1].profile)
    else Lookup(r[..|r| - 1], m)
  }

  /** In a well-formed roster the entry of a member is the one Lookup finds. */
  lemma {:induction false} LookupFindsEntry(r: Roster, i: nat)
    requires WellFormed(r)
    requires i < |r|
    ensures Lookup(r, r[i].name) == Some(r[i].profile)
  {
    if i < |r| - 1 {
      LookupFindsEntry(r[..|r| - 1], i);
    }
  }

  /** The roster the page starts from. */
  function InitialTeam(): Roster
  {
    [ Entry("Anne", Profile([G, T], [I, D], [W, E])),
      Entry("Molly", Profile([I, D], [G, E], [W, T])),
      Entry("Allison", Profile([I, D], [G, T], [W, E])),
      Entry("Kris", Profile([W, E], [D, I], [G, T])) ]
  }

  /**
   * What the multiselect widgets hand back, keyed by member and category
   * (the widget key `member + "_Genius"` and so on). A widget that has no
   * entry returns its default, the member's current list.
   */
  type Selections = map<(Name, Category), seq<Tag>>

  function Pick(sel: Selections, m: Name, c: Category, current: seq<Tag>): seq<Tag>
  {
    if (m, c) in sel then sel[(m, c)] else current
  }

  /** The profile the sidebar loop writes back for member `m`. */
  function Chosen(sel: Selections, m: Name, p: Profile): Profile
  {
    Profile(Pick(sel, m, Genius, p.genius),
            Pick(sel, m, Competency, p.competency),
            Pick(sel, m, Frustration, p.frustration))
  }

  /** The roster after the sidebar loop, entry by entry. */
  function Reselected(r: Roster, sel: Selections): (r': Roster)
    ensures |r'| == |r|
    ensures forall i :: 0 <= i < |r| ==> r'[i] == Entry(r[i].name, Chosen(sel, r[i].name, r[i].profile))
  {
    if r == [] then []
    else Reselected(r[..|r| - 1], sel) + [Entry(r[|r| - 1].name, Chosen(sel, r[|r| - 1].name, r[|r| - 1].profile))]
  }

  /**
   * The sidebar loop keeps the members and their order, keeps the roster a
   * dictionary, and gives every member exactly the lists the widgets chose.
   */
  lemma {:induction false} ReselectedReplacesOnlyLists(r: Roster, sel: Selections, m: Name)
    requires WellFormed(r)
    ensures WellFormed(Reselected(r, sel))
    ensures forall i :: 0 <= i < |r| ==> Reselected(r, sel)[i].name == r[i].name
    ensures Lookup(Reselected(r, sel), m) ==
              match Lookup(r, m)
              case None => None
              case Some(p) => Some(Chosen(sel, m, p))
  {
    var r' := Reselected(r, sel);
    match Lookup(r, m)
    case None =>
    case Some(p) =>
      var i :| 0 <= i < |r| && r[i] == Entry(m, p);
      LookupFindsEntry(r', i);
  }

  /** The mutable `team` dictionary of the page. */
  class Team {
    var roster: Roster

    constructor ()
      ensures roster == InitialTeam()
    {
      roster := InitialTeam();
    }

    /** The sidebar loop: `team[member] = {...}` for every member, in order. */
    method ApplySelections(sel: Selections)
      modifies this
      ensures roster == Reselected(old(roster), sel)
    {
      var i := 0;
      while i < |roster|
        invariant 0 <= i <= |roster| == |old(roster)|
        invariant forall j :: 0 <= j < i ==>
                    roster[j] == Entry(old(roster)[j].name, Chosen(sel, old(roster)[j].name, old(roster)[j].profile))
        invariant forall j :: i <= j < |roster| ==> roster[j] == old(roster)[j]
      {
        var member := roster[i].name;
        var genius := Pick(sel, member, Genius, roster[i].profile.genius);
        var competency := Pick(sel, member, Competency, roster[i].profile.competency);
        var frustration := Pick(sel, member, Frustration, roster[i].profile.frustration);
        roster := roster[i := Entry(member, Profile(genius, competency, frustration))];
        i := i + 1;
      }
      assert roster == Reselected(old(roster), sel);
    }
  }
}
