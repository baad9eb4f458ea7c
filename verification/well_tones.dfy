/**
  The well-tone reference table: 25 named frequencies in Hz, kept in the
  source's insertion order (the order in which lookups list the valid names
  and category views list their members), together with exact-name lookup
  and the five name-based category views.
 */
module WellTones {

  import opened Outcomes

  datatype Entry = Entry(name: string, hz: real)

  /** The seven chakra entries. */
  const ChakraEntries: seq<Entry> := [
    Entry("chakra_base", 396.0),
    Entry("chakra_sacral", 417.0),
    Entry("chakra_solar_plexus", 528.0),
    Entry("chakra_heart", 639.0),
    Entry("chakra_throat", 741.0),
    Entry("chakra_third_eye", 852.0),
    Entry("chakra_crown", 963.0)
  ]

  /** The one alias entry. */
  const SpecialEntries: seq<Entry> := [Entry("love_frequency", 528.0)]

  /** The nine solfeggio entries, 174 Hz and 285 Hz included. */
  const SolfeggioEntries: seq<Entry> := [
    Entry("solfeggio_174", 174.0),
    Entry("solfeggio_285", 285.0),
    Entry("solfeggio_396", 396.0),
    Entry("solfeggio_417", 417.0),
    Entry("solfeggio_528", 528.0),
    Entry("solfeggio_639", 639.0),
    Entry("solfeggio_741", 741.0),
    Entry("solfeggio_852", 852.0),
    Entry("solfeggio_963", 963.0)
  ]

  /** The three earth-resonance entries (432 Hz and the Schumann resonances). */
  const EarthEntries: seq<Entry> := [
    Entry("earth_432", 432.0),
    Entry("earth_8", 8.0),
    Entry("earth_7_83", 7.83)
  ]

  /** The five brainwave bands. */
  const BrainwaveEntries: seq<Entry> := [
    Entry("theta", 4.0),
    Entry("delta", 0.5),
    Entry("alpha", 8.0),
    Entry("beta", 13.0),
    Entry("gamma", 40.0)
  ]

  /** The whole table, in declaration order. */
  const Table: seq<Entry> :=
    ChakraEntries + SpecialEntries + SolfeggioEntries + EarthEntries + BrainwaveEntries

  /** The names of a list of entries, in order. */
  function NamesOf(entries: seq<Entry>): (names: seq<string>)
    ensures |names| == |entries|
    ensures forall i :: 0 <= i < |entries| ==> names[i] == entries[i].name
  {
    if |entries| == 0 then [] else [entries[0].name] + NamesOf(entries[1..])
  }

  /** Every name in the table, in declaration order. */
  function Names(): seq<string> {
    NamesOf(Table)
  }

  predicate DistinctNames(entries: seq<Entry>) {
    forall i, j :: 0 <= i < j < |entries| ==> entries[i].name != entries[j].name
  }

  /** Dictionary lookup: the value stored under `name`, if any. */
  function Find(entries: seq<Entry>, name: string): (r: Option<real>)
    ensures r.Some? <==> name in NamesOf(entries)
    ensures r.Some? ==> Entry(name, r.value) in entries
  {
    if |entries| == 0 then None
    else if entries[0].name == name then Some(entries[0].hz)
    else
      var r := Find(entries[1..], name);
      assert NamesOf(entries) == [entries[0].name] + NamesOf(entries[1..]);
      r
  }

  /** `WELL_TONE_FREQUENCIES.get(name)`. */
  function Lookup(name: string): (r: Option<real>)
    ensures r.Some? <==> name in Names()
    ensures r.Some? ==> Entry(name, r.value) in Table
  {
    Find(Table, name)
  }

  /** With distinct names, lookup of the i-th entry's name finds the i-th entry's value. */
  lemma {:induction false} FindDistinct(entries: seq<Entry>, i: nat)
    requires DistinctNames(entries)
    requires i < |entries|
    ensures Find(entries, entries[i].name) == Some(entries[i].hz)
  {
    if i > 0 {
      assert entries[0].name != entries[i].name;
      assert entries[1..][i - 1] == entries[i];
      FindDistinct(entries[1..], i - 1);
    }
  }

  // ---------------------------------------------------------------------------
  // Categories

  datatype Category = Chakras | Solfeggio | EarthResonance | Brainwaves | Special

  /** `prefix` is a prefix of `s` (Python's `str.startswith`). */
  predicate StartsWith(s: string, prefix: string) {
    |prefix| <= |s| && s[..|prefix|] == prefix
  }

  /** The membership rule of each category, evaluated on the name alone. */
  predicate InCategory(c: Category, name: string) {
    match c
    case Chakras => StartsWith(name, "chakra_")
    case Solfeggio => StartsWith(name, "solfeggio_")
    case EarthResonance => StartsWith(name, "earth_")
    case Brainwaves => name in ["theta", "delta", "alpha", "beta", "gamma"]
    case Special => name == "love_frequency"
  }

  /** The entries whose names satisfy a category's rule, in their original order. */
  function Select(entries: seq<Entry>, c: Category): (r: seq<Entry>)
    ensures |r| <= |entries|
    ensures forall e {:trigger e in r} :: e in r <==> e in entries && InCategory(c, e.name)
  {
    if |entries| == 0 then []
    else
      var rest := Select(entries[1..], c);
      assert forall e :: e in entries <==> e == entries[0] || e in entries[1..];
      if InCategory(c, entries[0].name) then [entries[0]] + rest else rest
  }

  /** The table restricted to one category (one dictionary comprehension of the listing). */
  function View(c: Category): (r: seq<Entry>)
    ensures forall e {:trigger e in r} :: e in r <==> e in Table && InCategory(c, e.name)
  {
    Select(Table, c)
  }

  /** The declared block of entries each category's rule is meant to pick out. */
  function Group(c: Category): seq<Entry> {
    match c
    case Chakras => ChakraEntries
    case Solfeggio => SolfeggioEntries
    case EarthResonance => EarthEntries
    case Brainwaves => BrainwaveEntries
    case Special => SpecialEntries
  }

  predicate AllIn(entries: seq<Entry>, c: Category) {
    forall i :: 0 <= i < |entries| ==> InCategory(c, entries[i].name)
  }

  predicate NoneIn(entries: seq<Entry>, c: Category) {
    forall i :: 0 <= i < |entries| ==> !InCategory(c, entries[i].name)
  }

  /** Selection distributes over concatenation. */
  lemma {:induction false} SelectConcat(a: seq<Entry>, b: seq<Entry>, c: Category)
    ensures Select(a + b, c) == Select(a, c) + Select(b, c)
  {
    if |a| > 0 {
      assert (a + b)[1..] == a[1..] + b;
      SelectConcat(a[1..], b, c);
    } else {
      assert a + b == b;
    }
  }

  /** Selecting a category every entry belongs to keeps the whole list. */
  lemma {:induction false} SelectAll(entries: seq<Entry>, c: Category)
    requires AllIn(entries, c)
    ensures Select(entries, c) == entries
  {
    if |entries| > 0 {
      assert InCategory(c, entries[0].name);
      SelectAll(entries[1..], c);
    }
  }

  /** Selecting a category no entry belongs to keeps nothing. */
  lemma {:induction false} SelectNone(entries: seq<Entry>, c: Category)
    requires NoneIn(entries, c)
    ensures Select(entries, c) == []
  {
    if |entries| > 0 {
      assert !InCategory(c, entries[0].name);
      SelectNone(entries[1..], c);
    }
  }

  /** Every declared block satisfies its own category's rule and no other's. */
  lemma GroupMembership(g: Category, c: Category)
    ensures g == c ==> AllIn(Group(g), c)
    ensures g != c ==> NoneIn(Group(g), c)
  {
    match g
    case Chakras => ChakraBlock(c);
    case Solfeggio => SolfeggioBlock(c);
    case EarthResonance => EarthBlock(c);
    case Brainwaves => BrainwaveBlock(c);
    case Special => SpecialBlock(c);
  }

  /** The first letters a name in each category can start with. */
  function Leads(c: Category): set<char> {
    match c
    case Chakras => {'c'}
    case Solfeggio => {'s'}
    case EarthResonance => {'e'}
    case Brainwaves => {'t', 'd', 'a', 'b', 'g'}
    case Special => {'l'}
  }

  /** A name whose first letter is not among a category's leads is outside that category. */
  lemma LeadExcludes(c: Category, name: string)
    requires |name| > 0 && name[0] !in Leads(c)
    ensures !InCategory(c, name)
  {
  }

  /** Entries whose names all start with letter x lie outside every category not led by x. */
  lemma LedBlock(entries: seq<Entry>, x: char, c: Category)
    requires forall i :: 0 <= i < |entries| ==> |entries[i].name| > 0 && entries[i].name[0] == x
    requires x !in Leads(c)
    ensures NoneIn(entries, c)
  {
    forall i | 0 <= i < |entries|
      ensures !InCategory(c, entries[i].name)
    {
      LeadExcludes(c, entries[i].name);
    }
  }

  lemma ChakraBlock(c: Category)
    ensures c == Chakras ==> AllIn(ChakraEntries, c)
    ensures c != Chakras ==> NoneIn(ChakraEntries, c)
  {
    if c != Chakras {
      LedBlock(ChakraEntries, 'c', c);
    }
  }

  lemma SolfeggioBlock(c: Category)
    ensures c == Solfeggio ==> AllIn(SolfeggioEntries, c)
    ensures c != Solfeggio ==> NoneIn(SolfeggioEntries, c)
  {
    if c != Solfeggio {
      LedBlock(SolfeggioEntries, 's', c);
    }
  }

  lemma EarthBlock(c: Category)
    ensures c == EarthResonance ==> AllIn(EarthEntries, c)
    ensures c != EarthResonance ==> NoneIn(EarthEntries, c)
  {
    if c != EarthResonance {
      LedBlock(EarthEntries, 'e', c);
    }
  }

  lemma SpecialBlock(c: Category)
    ensures c == Special ==> AllIn(SpecialEntries, c)
    ensures c != Special ==> NoneIn(SpecialEntries, c)
  {
    if c != Special {
      LedBlock(SpecialEntries, 'l', c);
    }
  }

  lemma BrainwaveBlock(c: Category)
    ensures c == Brainwaves ==> AllIn(BrainwaveEntries, c)
    ensures c != Brainwaves ==> NoneIn(BrainwaveEntries, c)
  {
    if c != Brainwaves {
      forall i | 0 <= i < |BrainwaveEntries|
        ensures !InCategory(c, BrainwaveEntries[i].name)
      {
        LeadExcludes(c, BrainwaveEntries[i].name);
      }
    }
  }

  /** Selecting category c from declared block g gives the block itself when g == c, else nothing. */
  lemma SelectGroup(g: Category, c: Category)
    ensures Select(Group(g), c) == if g == c then Group(g) else []
  {
    GroupMembership(g, c);
    if g == c {
      SelectAll(Group(g), c);
    } else {
      SelectNone(Group(g), c);
    }
  }

  /** Selection from five concatenated blocks is the concatenation of the five selections. */
  lemma SelectFive(b0: seq<Entry>, b1: seq<Entry>, b2: seq<Entry>, b3: seq<Entry>, b4: seq<Entry>, c: Category)
    ensures Select(b0 + b1 + b2 + b3 + b4, c)
         == Select(b0, c) + Select(b1, c) + Select(b2, c) + Select(b3, c) + Select(b4, c)
  {
    SelectConcat(b0 + b1 + b2 + b3, b4, c);
    SelectConcat(b0 + b1 + b2, b3, c);
    SelectConcat(b0 + b1, b2, c);
    SelectConcat(b0, b1, c);
  }

  /** Where each category's block sits among the table's five blocks. */
  function Position(c: Category): nat {
    match c
    case Chakras => 0
    case Special => 1
    case Solfeggio => 2
    case EarthResonance => 3
    case Brainwaves => 4
  }

  /** Five concatenated parts of which all but the k-th are empty give the k-th. */
  lemma OnlyPart<T>(v: seq<T>, s0: seq<T>, s1: seq<T>, s2: seq<T>, s3: seq<T>, s4: seq<T>, x: seq<T>, k: nat)
    requires v == s0 + s1 + s2 + s3 + s4
    requires s0 == if k == 0 then x else []
    requires s1 == if k == 1 then x else []
    requires s2 == if k == 2 then x else []
    requires s3 == if k == 3 then x else []
    requires s4 == if k == 4 then x else []
    requires k < 5
    ensures v == x
  {
  }

  /** Selecting from five blocks of which only the k-th has members in c gives the k-th block. */
  lemma SelectOnlyBlock(b0: seq<Entry>, b1: seq<Entry>, b2: seq<Entry>, b3: seq<Entry>, b4: seq<Entry>,
                        c: Category, x: seq<Entry>, k: nat)
    requires k < 5
    requires Select(b0, c) == if k == 0 then x else []
    requires Select(b1, c) == if k == 1 then x else []
    requires Select(b2, c) == if k == 2 then x else []
    requires Select(b3, c) == if k == 3 then x else []
    requires Select(b4, c) == if k == 4 then x else []
    ensures Select(b0 + b1 + b2 + b3 + b4, c) == x
  {
    SelectFive(b0, b1, b2, b3, b4, c);
    OnlyPart(Select(b0 + b1 + b2 + b3 + b4, c), Select(b0, c), Select(b1, c), Select(b2, c),
             Select(b3, c), Select(b4, c), x, k);
  }

  /** Each category view of the table is exactly its declared block, in declaration order. */
  lemma ViewIsGroup(c: Category)
    ensures View(c) == Group(c)
  {
    SelectGroup(Chakras, c);
    SelectGroup(Special, c);
    SelectGroup(Solfeggio, c);
    SelectGroup(EarthResonance, c);
    SelectGroup(Brainwaves, c);
    var b0, b1, b2, b3, b4 := Group(Chakras), Group(Special), Group(Solfeggio), Group(EarthResonance), Group(Brainwaves);
    assert Table == b0 + b1 + b2 + b3 + b4;
    SelectOnlyBlock(b0, b1, b2, b3, b4, c, Group(c), Position(c));
  }

  /** The listing's category sizes: 7 chakras, 9 solfeggio, 3 earth, 5 brainwaves, 1 special. */
  lemma ViewSizes()
    ensures |View(Chakras)| == 7
    ensures |View(Solfeggio)| == 9
    ensures |View(EarthResonance)| == 3
    ensures |View(Brainwaves)| == 5
    ensures |View(Special)| == 1
    ensures |View(Chakras)| + |View(Solfeggio)| + |View(EarthResonance)|
            + |View(Brainwaves)| + |View(Special)| == |Table|
  {
    ViewIsGroup(Chakras);
    ViewIsGroup(Solfeggio);
    ViewIsGroup(EarthResonance);
    ViewIsGroup(Brainwaves);
    ViewIsGroup(Special);
  }

  /** Every table entry lies in exactly one category view. */
  lemma ViewsPartition(e: Entry)
    ensures e in Table <==> exists c :: e in View(c)
    ensures forall c, d :: e in View(c) && e in View(d) ==> c == d
  {
    if e in Table {
      var g :| e in Group(g);
      ViewIsGroup(g);
      assert e in View(g);
    }
    forall c, d | e in View(c) && e in View(d)
      ensures c == d
    {
      ViewIsGroup(c);
      ViewIsGroup(d);
      GroupMembership(c, c);
      GroupMembership(d, c);
    }
  }

  /** Entries of two different declared blocks have different names. */
  lemma CrossGroupNames(g: Category, h: Category, i: nat, j: nat)
    requires g != h
    requires i < |Group(g)| && j < |Group(h)|
    ensures Group(g)[i].name != Group(h)[j].name
  {
    GroupMembership(g, g);
    GroupMembership(h, g);
  }

  /** No name of `a` is a name of `b`. */
  predicate NamesApart(a: seq<Entry>, b: seq<Entry>) {
    forall i, j :: 0 <= i < |a| && 0 <= j < |b| ==> a[i].name != b[j].name
  }

  lemma DistinctConcat(a: seq<Entry>, b: seq<Entry>)
    requires DistinctNames(a) && DistinctNames(b) && NamesApart(a, b)
    ensures DistinctNames(a + b)
  {
    forall i, j | 0 <= i < j < |a + b|
      ensures (a + b)[i].name != (a + b)[j].name
    {
      if j < |a| {
      } else if i < |a| {
        assert (a + b)[j] == b[j - |a|];
      } else {
        assert (a + b)[i] == b[i - |a|] && (a + b)[j] == b[j - |a|];
      }
    }
  }

  lemma ApartConcat(a1: seq<Entry>, a2: seq<Entry>, b: seq<Entry>)
    requires NamesApart(a1, b) && NamesApart(a2, b)
    ensures NamesApart(a1 + a2, b)
  {
    forall i, j | 0 <= i < |a1 + a2| && 0 <= j < |b|
      ensures (a1 + a2)[i].name != b[j].name
    {
      if i >= |a1| {
        assert (a1 + a2)[i] == a2[i - |a1|];
      }
    }
  }

  lemma GroupsApart(g: Category, h: Category)
    requires g != h
    ensures NamesApart(Group(g), Group(h))
  {
    forall i, j | 0 <= i < |Group(g)| && 0 <= j < |Group(h)|
      ensures Group(g)[i].name != Group(h)[j].name
    {
      CrossGroupNames(g, h, i, j);
    }
  }

  /** Within each declared block the names differ. */
  lemma GroupDistinct(g: Category)
    ensures DistinctNames(Group(g))
  {
    match g
    case Chakras =>
    case Solfeggio =>
    case EarthResonance =>
    case Brainwaves =>
    case Special =>
  }

  /** The table's 25 names are pairwise distinct, as keys of a dictionary are. */
  lemma TableNamesDistinct()
    ensures DistinctNames(Table)
    ensures |Names()| == 25
  {
    var b0, b1, b2, b3, b4 := Group(Chakras), Group(Special), Group(Solfeggio), Group(EarthResonance), Group(Brainwaves);
    assert Table == b0 + b1 + b2 + b3 + b4;
    GroupDistinct(Chakras);
    GroupDistinct(Special);
    GroupDistinct(Solfeggio);
    GroupDistinct(EarthResonance);
    GroupDistinct(Brainwaves);
    GroupsApart(Chakras, Special);
    DistinctConcat(b0, b1);
    GroupsApart(Chakras, Solfeggio);
    GroupsApart(Special, Solfeggio);
    ApartConcat(b0, b1, b2);
    DistinctConcat(b0 + b1, b2);
    GroupsApart(Chakras, EarthResonance);
    GroupsApart(Special, EarthResonance);
    GroupsApart(Solfeggio, EarthResonance);
    ApartConcat(b0, b1, b3);
    ApartConcat(b0 + b1, b2, b3);
    DistinctConcat(b0 + b1 + b2, b3);
    GroupsApart(Chakras, Brainwaves);
    GroupsApart(Special, Brainwaves);
    GroupsApart(Solfeggio, Brainwaves);
    GroupsApart(EarthResonance, Brainwaves);
    ApartConcat(b0, b1, b4);
    ApartConcat(b0 + b1, b2, b4);
    ApartConcat(b0 + b1 + b2, b3, b4);
    DistinctConcat(b0 + b1 + b2 + b3, b4);
  }

  /** Looking up any tabulated name returns exactly its tabulated value. */
  lemma LookupTabulated(i: nat)
    requires i < |Table|
    ensures Lookup(Table[i].name) == Some(Table[i].hz)
  {
    TableNamesDistinct();
    FindDistinct(Table, i);
  }
}
